/** Whole-run accumulators up to the order of their samples: a commutative monoid, and sums of it over sequences. */
module Tallies {
  import opened Events
  import opened Ordered
  import opened CollectorModel
  import opened CollectorAlgebra

  type Bags = PerKind<multiset<int>>

  const NO_BAGS: Bags := PerKind(multiset{}, multiset{}, multiset{}, multiset{})

  function JoinBags(a: Bags, b: Bags): Bags {
    PerKind(a.quote + b.quote, a.trade + b.trade, a.tradeEth + b.tradeEth, a.summary + b.summary)
  }

  datatype Tally = Tally(events: Bags, batches: multiset<int>, negative: nat, missing: nat, delivery: Delivery) {
    function Plus(t: Tally): Tally {
      Tally(JoinBags(events, t.events), batches + t.batches, negative + t.negative, missing + t.missing,
            delivery.Plus(t.delivery))
    }
  }

  const NO_TALLY := Tally(NO_BAGS, multiset{}, 0, 0, NO_DELIVERY)

  function BagsOf(a: PerKind<seq<int>>): Bags {
    PerKind(multiset(a.quote), multiset(a.trade), multiset(a.tradeEth), multiset(a.summary))
  }

  function TallyOf(t: Totals): Tally {
    Tally(BagsOf(t.eventsByKind), multiset(t.batches), t.negative, t.missing, t.delivery)
  }

  function TallyOfBook(b: Book): Tally {
    TallyOf(Digest(b))
  }

  lemma BagPlus(a: multiset<int>, b: multiset<int>, c: multiset<int>)
    ensures (a + b) + c == a + (b + c) && a + b == b + a && a + multiset{} == a
  {
  }

  lemma BagsPlus(a: Bags, b: Bags, c: Bags)
    ensures JoinBags(JoinBags(a, b), c) == JoinBags(a, JoinBags(b, c))
    ensures JoinBags(a, b) == JoinBags(b, a) && JoinBags(a, NO_BAGS) == a
  {
    BagPlus(a.quote, b.quote, c.quote);
    BagPlus(a.trade, b.trade, c.trade);
    BagPlus(a.tradeEth, b.tradeEth, c.tradeEth);
    BagPlus(a.summary, b.summary, c.summary);
  }

  lemma TallyPlus(a: Tally, b: Tally, c: Tally)
    ensures a.Plus(b).Plus(c) == a.Plus(b.Plus(c))
    ensures a.Plus(b) == b.Plus(a)
    ensures a.Plus(NO_TALLY) == a == NO_TALLY.Plus(a)
  {
    hide Delivery.Plus, JoinBags;
    BagsPlus(a.events, b.events, c.events);
    BagsPlus(NO_BAGS, a.events, NO_BAGS);
    DeliveryPlus(a.delivery, b.delivery, c.delivery);
  }

  lemma BagsOfAppend(a: PerKind<seq<int>>, b: PerKind<seq<int>>)
    ensures BagsOf(AppendKinds(a, b)) == JoinBags(BagsOf(a), BagsOf(b))
  {
  }

  lemma TallyOfPlus(a: Totals, b: Totals)
    ensures TallyOf(a.Plus(b)) == TallyOf(a).Plus(TallyOf(b))
  {
    hide Delivery.Plus, AppendKinds, BagsOf, JoinBags;
    BagsOfAppend(a.eventsByKind, b.eventsByKind);
  }

  lemma TallyOfEmpty()
    ensures TallyOf(NO_TOTALS) == NO_TALLY && TallyOfBook(EMPTY_BOOK) == NO_TALLY
  {
    hide Digest;
    DigestEmpty();
  }

  lemma TallyOfBooks(a: Book, b: Book)
    ensures TallyOfBook(a.Plus(b)) == TallyOfBook(a).Plus(TallyOfBook(b))
  {
    hide Digest, Book.Plus, TallyOf;
    DigestPlus(a, b);
    TallyOfPlus(Digest(a), Digest(b));
  }

  lemma RecordTally(core: Core, b: Book)
    ensures TallyOf(core.Record(b).total) == TallyOf(core.total).Plus(TallyOfBook(b))
  {
    hide Digest, TallyOf, Book.Plus;
    TallyOfPlus(core.total, Digest(b));
  }

  // Sums over publication sequences.

  function SumTally(m: map<int, Tally>): Tally
    decreases |m.Keys|
  {
    if m.Keys == {} then NO_TALLY else
    var k := Least(m.Keys);
    m[k].Plus(SumTally(m - {k}))
  }

  lemma {:induction false} SumTallyRemove(m: map<int, Tally>, k: int)
    requires k in m
    ensures SumTally(m) == m[k].Plus(SumTally(m - {k}))
    decreases |m.Keys|
  {
    hide Tally.Plus;
    var j := Least(m.Keys);
    if j != k {
      SumTallyRemove(m - {j}, k);
      assert m - {j} - {k} == m - {k} - {j};
      assert Least((m - {k}).Keys) == j;
      var rest := SumTally(m - {k} - {j});
      TallyPlus(m[j], m[k], rest);
      TallyPlus(m[k], m[j], rest);
    }
  }

  /** The share a sequence holds in a ledger. */
  function Share(m: map<int, Tally>, k: int): Tally {
    if k in m then m[k] else NO_TALLY
  }

  /** Adding to one sequence's share adds to the sum. */
  lemma SumTallyAdd(m: map<int, Tally>, k: int, t: Tally)
    ensures SumTally(m[k := Share(m, k).Plus(t)]) == SumTally(m).Plus(t)
  {
    hide Tally.Plus, SumTally;
    var m' := m[k := Share(m, k).Plus(t)];
    SumTallyRemove(m', k);
    var rest := SumTally(m' - {k});
    if k in m {
      SumTallyRemove(m, k);
      assert m' - {k} == m - {k};
      TallyPlus(m[k], t, rest);
      TallyPlus(t, rest, rest);
      TallyPlus(m[k], rest, t);
    } else {
      assert m' - {k} == m;
      TallyPlus(t, NO_TALLY, rest);
      TallyPlus(t, rest, rest);
    }
  }
}
