/** Order independence of whole measurements, and what lossless delivery yields. */
module CollectorTheorems {
  import opened Arithmetic
  import opened Events
  import opened Ordered
  import opened CollectorModel
  import opened Tallies
  import opened CollectorOrder
  import opened CollectorClosedForm
  import opened CollectorExactness

  ghost predicate TameItems(cfg: Config, items: seq<Item>, excluded: set<int>) {
    forall s :: s !in excluded ==> Tame(cfg, View(items, s))
  }

  ghost function ClosedForms(cfg: Config, items: seq<Item>, excluded: set<int>): map<int, Tally> {
    map s | s in Sequences(items) - excluded :: ClosedForm(cfg, View(items, s))
  }

  /** Everything recorded by a collector that got these items and then handed out its final window. */
  function FinalTally(cfg: Config, start: Core, items: seq<Item>): Tally {
    TallyOf(Flush(cfg, ProcessAll(cfg, start, items)).total)
  }

  /** The closed form: a sum, over the sequences seen, of what each one's arrivals are worth. */
  lemma FinalClosedForm(cfg: Config, start: Core, items: seq<Item>)
    requires start.accepting && start.pending == map[] && TameItems(cfg, items, start.excluded)
    ensures FinalTally(cfg, start, items)
         == TallyOf(start.total).Plus(SumTally(ClosedForms(cfg, items, start.excluded)))
  {
    hide TallyOf, Tally.Plus, SumTally, ProcessAll, Flush, Tame, ClosedForm, Settled, TallyOfBook, View;
    FlushedTally(cfg, start, items);
    forall s | s in Sequences(items) - start.excluded
      ensures TallyOfBook(Settled(cfg, View(items, s))) == ClosedForm(cfg, View(items, s))
    {
      SettledClosedForm(cfg, View(items, s));
    }
    assert Outcomes(cfg, items, start.excluded) == ClosedForms(cfg, items, start.excluded);
  }

  lemma {:induction false} ViewCount(items: seq<Item>, s: int, a: Arrival)
    ensures multiset(View(items, s))[a] == multiset(items)[Item(s, a)]
  {
    if items != [] {
      var front, last := items[..|items| - 1], items[|items| - 1];
      ViewCount(front, s, a);
      assert items == front + [last];
    }
  }

  lemma ViewPermute(a: seq<Item>, b: seq<Item>, s: int)
    requires multiset(a) == multiset(b)
    ensures multiset(View(a, s)) == multiset(View(b, s))
  {
    hide View;
    forall x ensures multiset(View(a, s))[x] == multiset(View(b, s))[x] {
      ViewCount(a, s, x);
      ViewCount(b, s, x);
    }
  }

  lemma SequencesPermute(a: seq<Item>, b: seq<Item>)
    requires multiset(a) == multiset(b)
    ensures Sequences(a) == Sequences(b)
  {
    hide View;
    forall s ensures s in Sequences(a) <==> s in Sequences(b) {
      ViewEmpty(a, s);
      ViewEmpty(b, s);
      ViewPermute(a, b, s);
      assert |View(a, s)| == |multiset(View(a, s))| == |multiset(View(b, s))| == |View(b, s)|;
    }
  }

  /** No accepted sequence gets arrivals whose order could matter. */
  ghost predicate OrderFreeItems(cfg: Config, items: seq<Item>, excluded: set<int>) {
    forall s :: s !in excluded ==> OrderFree(cfg, View(items, s))
  }

  /** Reordering such deliveries in any way changes nothing that is recorded. */
  lemma OrderIndependence(cfg: Config, start: Core, a: seq<Item>, b: seq<Item>)
    requires start.accepting && start.pending == map[] && OrderFreeItems(cfg, a, start.excluded)
    requires multiset(a) == multiset(b)
    ensures FinalTally(cfg, start, a) == FinalTally(cfg, start, b)
  {
    hide TallyOf, Tally.Plus, SumTally, OrderFree, View, ProcessAll, Flush, TallyOfBook, Settled;
    FlushedTally(cfg, start, a);
    FlushedTally(cfg, start, b);
    SequencesPermute(a, b);
    forall s | s in Sequences(a) - start.excluded
      ensures TallyOfBook(Settled(cfg, View(a, s))) == TallyOfBook(Settled(cfg, View(b, s)))
    {
      ViewPermute(a, b, s);
      OrderIrrelevantIff(cfg, View(a, s));
    }
    assert Outcomes(cfg, a, start.excluded) == Outcomes(cfg, b, start.excluded);
  }

  /** The arrivals of one sequence, as items. */
  function Tagged(view: seq<Arrival>, s: int): seq<Item> {
    seq(|view|, i requires 0 <= i < |view| => Item(s, view[i]))
  }

  function Others(items: seq<Item>, s: int): seq<Item> {
    if items == [] then [] else
    var last := items[|items| - 1];
    Others(items[..|items| - 1], s) + if last.sequence == s then [] else [last]
  }

  lemma {:induction false} TaggedView(view: seq<Arrival>, others: seq<Item>, s: int, x: int)
    requires forall i :: 0 <= i < |others| ==> others[i].sequence != s
    ensures View(Tagged(view, s) + others, x) == if x == s then view else View(others, x)
  {
    if others != [] {
      var front := others[..|others| - 1];
      TaggedView(view, front, s, x);
      assert (Tagged(view, s) + others)[..|view| + |others| - 1] == Tagged(view, s) + front;
    } else {
      assert Tagged(view, s) + others == Tagged(view, s);
      TaggedAlone(view, s, x);
    }
  }

  lemma {:induction false} TaggedAlone(view: seq<Arrival>, s: int, x: int)
    ensures View(Tagged(view, s), x) == if x == s then view else []
  {
    if view != [] {
      TaggedAlone(view[..|view| - 1], s, x);
      assert Tagged(view, s)[..|view| - 1] == Tagged(view[..|view| - 1], s);
      assert view == view[..|view| - 1] + [view[|view| - 1]];
    }
  }

  lemma {:induction false} OthersView(items: seq<Item>, s: int, x: int)
    ensures forall i :: 0 <= i < |Others(items, s)| ==> Others(items, s)[i].sequence != s
    ensures x != s ==> View(Others(items, s), x) == View(items, x)
  {
    if items != [] {
      var front, last := items[..|items| - 1], items[|items| - 1];
      OthersView(front, s, x);
      assert View(front, x) + [] == View(front, x) && Others(front, s) + [] == Others(front, s);
      if last.sequence != s {
        assert (Others(front, s) + [last])[..|Others(front, s)|] == Others(front, s);
      }
    }
  }

  /** Regrouping a delivery around one sequence, whose arrivals may be reordered, keeps its items. */
  lemma RegroupedBag(items: seq<Item>, s: int, view: seq<Arrival>)
    requires multiset(view) == multiset(View(items, s))
    ensures multiset(Tagged(view, s) + Others(items, s)) == multiset(items)
  {
    hide View, Tagged, Others;
    var all := Tagged(view, s) + Others(items, s);
    forall x: Item ensures multiset(all)[x] == multiset(items)[x] {
      OthersView(items, s, x.sequence);
      TaggedView(view, Others(items, s), s, x.sequence);
      ViewCount(all, x.sequence, x.arrival);
      ViewCount(items, x.sequence, x.arrival);
      assert x == Item(x.sequence, x.arrival);
    }
  }

  lemma BagCancels(a: multiset<int>, b: multiset<int>, c: multiset<int>)
    requires a + c == b + c
    ensures a == b
  {
    assert a == a + c - c && b == b + c - c;
  }

  lemma TallyCancels(a: Tally, b: Tally, c: Tally)
    requires a.Plus(c) == b.Plus(c)
    ensures a == b
  {
    BagCancels(a.batches, b.batches, c.batches);
    BagCancels(a.events.quote, b.events.quote, c.events.quote);
    BagCancels(a.events.trade, b.events.trade, c.events.trade);
    BagCancels(a.events.tradeEth, b.events.tradeEth, c.events.tradeEth);
    BagCancels(a.events.summary, b.events.summary, c.events.summary);
  }

  /** A delivery whose order is irrelevant as a whole. */
  ghost predicate DeterminedDelivery(cfg: Config, start: Core, items: seq<Item>) {
    forall a, b :: multiset(a) == multiset(items) && multiset(b) == multiset(items) ==>
      FinalTally(cfg, start, a) == FinalTally(cfg, start, b)
  }

  /** Two orders of one sequence that differ make two orders of the delivery that differ. */
  lemma SequenceMatters(cfg: Config, start: Core, items: seq<Item>, s: int)
    requires start.accepting && start.pending == map[]
    requires s !in start.excluded && !OrderFree(cfg, View(items, s))
    ensures !DeterminedDelivery(cfg, start, items)
  {
    hide OrderFree, View, FinalTally, Tagged, Others, Settled, TallyOfBook;
    OrderIrrelevantIff(cfg, View(items, s));
    var v, w :| multiset(v) == multiset(View(items, s)) && multiset(w) == multiset(View(items, s))
                && TallyOfBook(Settled(cfg, v)) != TallyOfBook(Settled(cfg, w));
    RegroupedBag(items, s, v);
    RegroupedBag(items, s, w);
    NotEmpty(cfg, v, w);
    TalliesDiffer(cfg, start, items, s, v, w);
  }

  lemma NotEmpty(cfg: Config, v: seq<Arrival>, w: seq<Arrival>)
    requires multiset(v) == multiset(w) && TallyOfBook(Settled(cfg, v)) != TallyOfBook(Settled(cfg, w))
    ensures v != [] && w != []
  {
    hide TallyOfBook, Settled;
    assert |v| == |multiset(v)| == |multiset(w)| == |w|;
    assert v == [] ==> v == w;
  }

  lemma RegroupedTally(cfg: Config, start: Core, items: seq<Item>, s: int, v: seq<Arrival>) returns (rest: map<int, Tally>)
    requires start.accepting && start.pending == map[] && s !in start.excluded && v != []
    ensures rest == map x | x in Sequences(Others(items, s)) - start.excluded :: TallyOfBook(Settled(cfg, View(items, x)))
    ensures FinalTally(cfg, start, Tagged(v, s) + Others(items, s))
         == TallyOf(start.total).Plus(TallyOfBook(Settled(cfg, v)).Plus(SumTally(rest)))
  {
    hide View, Tagged, Others, Settled, TallyOfBook, TallyOf, Tally.Plus, SumTally, ProcessAll, Flush;
    var others := Others(items, s);
    var all := Tagged(v, s) + others;
    rest := map x | x in Sequences(others) - start.excluded :: TallyOfBook(Settled(cfg, View(items, x)));
    FlushedTally(cfg, start, all);
    var outcomes := Outcomes(cfg, all, start.excluded);
    OthersView(items, s, s);
    forall x ensures x in outcomes <==> x == s || x in rest
             ensures x in outcomes && x != s ==> outcomes[x] == rest[x]
             ensures x in outcomes && x == s ==> outcomes[x] == TallyOfBook(Settled(cfg, v))
    {
      OthersView(items, s, x);
      TaggedView(v, others, s, x);
      ViewEmpty(all, x);
      ViewEmpty(others, x);
    }
    assert s !in rest by {
      NotAmong(items, s);
    }
    SumTallyRemove(outcomes, s);
    assert outcomes - {s} == rest;
  }

  lemma NotAmong(items: seq<Item>, s: int)
    ensures s !in Sequences(Others(items, s))
  {
    OthersView(items, s, s);
  }

  lemma TalliesDiffer(cfg: Config, start: Core, items: seq<Item>, s: int, v: seq<Arrival>, w: seq<Arrival>)
    requires start.accepting && start.pending == map[] && s !in start.excluded && v != [] && w != []
    requires TallyOfBook(Settled(cfg, v)) != TallyOfBook(Settled(cfg, w))
    ensures FinalTally(cfg, start, Tagged(v, s) + Others(items, s))
         != FinalTally(cfg, start, Tagged(w, s) + Others(items, s))
  {
    hide View, Tagged, Others, Settled, TallyOfBook, TallyOf, Tally.Plus, SumTally, FinalTally;
    var rest := RegroupedTally(cfg, start, items, s, v);
    var same := RegroupedTally(cfg, start, items, s, w);
    var x, y, base, sum := TallyOfBook(Settled(cfg, v)), TallyOfBook(Settled(cfg, w)), TallyOf(start.total), SumTally(rest);
    if base.Plus(x.Plus(sum)) == base.Plus(y.Plus(sum)) {
      TallyPlus(base, x.Plus(sum), NO_TALLY);
      TallyPlus(base, y.Plus(sum), NO_TALLY);
      TallyCancels(x.Plus(sum), y.Plus(sum), base);
      TallyCancels(x, y, sum);
    }
  }

  /** The order of a delivery is irrelevant exactly when no accepted sequence gets arrivals whose order matters. */
  lemma DeliveryOrderIff(cfg: Config, start: Core, items: seq<Item>)
    requires start.accepting && start.pending == map[]
    ensures DeterminedDelivery(cfg, start, items) <==> OrderFreeItems(cfg, items, start.excluded)
  {
    hide OrderFree, View, FinalTally;
    if OrderFreeItems(cfg, items, start.excluded) {
      forall a, b | multiset(a) == multiset(items) && multiset(b) == multiset(items)
        ensures FinalTally(cfg, start, a) == FinalTally(cfg, start, b)
      {
        OrderIndependence(cfg, start, items, a);
        OrderIndependence(cfg, start, items, b);
      }
    } else {
      var s :| s !in start.excluded && !OrderFree(cfg, View(items, s));
      SequenceMatters(cfg, start, items, s);
    }
  }

  // Lossless delivery.

  /** One marker and exactly the expected composition. */
  predicate Complete(cfg: Config, view: seq<Arrival>) {
    MarkerCount(view) == 1 && AllFacts(view, 0).counts == cfg.expected
  }

  function Times(n: nat, c: Counts): Counts {
    PerKind(n * c.quote, n * c.trade, n * c.tradeEth, n * c.summary)
  }

  /** The delivery counters of n full publications, with nothing missing. */
  function AllFull(cfg: Config, n: nat): Delivery {
    NO_DELIVERY.(published := Times(n, cfg.expected), delivered := Times(n, cfg.expected), full := n)
  }

  lemma CompleteForm(cfg: Config, view: seq<Arrival>)
    requires Complete(cfg, view)
    ensures Tame(cfg, view) && view != []
    ensures ClosedForm(cfg, view).delivery == AllFull(cfg, 1) && ClosedForm(cfg, view).missing == 0
  {
    MarkerTimeMember(view);
    CountsTimeless(view, 0, MarkerTime(view).value);
    hide AllFacts, MarkerTime;
  }

  lemma AllFullPlus(cfg: Config, n: nat)
    ensures AllFull(cfg, 1).Plus(AllFull(cfg, n)) == AllFull(cfg, n + 1)
  {
    Distribute(n, 1, cfg.expected.quote);
    Distribute(n, 1, cfg.expected.trade);
    Distribute(n, 1, cfg.expected.tradeEth);
    Distribute(n, 1, cfg.expected.summary);
  }

  lemma {:induction false} SumFull(cfg: Config, m: map<int, Tally>)
    requires forall s :: s in m ==> m[s].delivery == AllFull(cfg, 1) && m[s].missing == 0
    ensures SumTally(m).delivery == AllFull(cfg, |m.Keys|) && SumTally(m).missing == 0
    decreases |m.Keys|
  {
    hide Delivery.Plus, JoinBags, AllFull;
    if m.Keys == {} {
      NothingFull(cfg);
    } else {
      var k := Least(m.Keys);
      var rest := m - {k};
      assert rest.Keys == m.Keys - {k};
      SumFull(cfg, rest);
      AllFullPlus(cfg, |rest.Keys|);
    }
  }

  lemma NothingFull(cfg: Config)
    ensures AllFull(cfg, 0) == NO_DELIVERY
  {
  }

  /**
   * Every sequence that is not excluded arrives completely, in any order and any chunking: their publications are full,
   * and nothing is short, in excess, partial, empty, uncorrelated or missing.
   */
  lemma LosslessDelivery(cfg: Config, start: Core, items: seq<Item>, published: set<int>)
    requires start.accepting && start.pending == map[]
    requires Sequences(items) - start.excluded == published
    requires forall s :: s in published ==> Complete(cfg, View(items, s))
    ensures FinalTally(cfg, start, items).delivery == start.total.delivery.Plus(AllFull(cfg, |published|))
    ensures FinalTally(cfg, start, items).missing == start.total.missing
  {
    hide FinalTally, Delivery.Plus, SumTally, Tame, ClosedForm, View, AllFull, Complete, JoinBags;
    forall s | s !in start.excluded ensures Tame(cfg, View(items, s)) {
      if s in published {
        CompleteForm(cfg, View(items, s));
      } else {
        ViewEmpty(items, s);
        EmptyTame(cfg);
      }
    }
    FinalClosedForm(cfg, start, items);
    var forms := ClosedForms(cfg, items, start.excluded);
    forall s | s in forms ensures forms[s].delivery == AllFull(cfg, 1) && forms[s].missing == 0 {
      CompleteForm(cfg, View(items, s));
    }
    assert forms.Keys == published;
    SumFull(cfg, forms);
  }

  lemma EmptyTame(cfg: Config)
    ensures Tame(cfg, [])
  {
  }

  // Whole measurements.

  function RunFrom(cfg: Config, st: State, steps: seq<Step>): State {
    if steps == [] then st else Next(cfg, RunFrom(cfg, st, steps[..|steps| - 1]), steps[|steps| - 1])
  }

  /** Notifications and window reports that expire nothing. */
  ghost predicate Calm(cfg: Config, st: State, steps: seq<Step>) {
    if steps == [] then true else
    var front, step := steps[..|steps| - 1], steps[|steps| - 1];
    Calm(cfg, st, front) && CalmStep(cfg, RunFrom(cfg, st, front), step)
  }

  ghost predicate CalmStep(cfg: Config, st: State, step: Step) {
    match step
    case Notify(_) => true
    case TakeWindow(now, expireAll) =>
      forall s :: s in st.core.pending ==>
        !Expired(st.core.pending[s], now - cfg.timeoutMs * NANOS_PER_MILLI, expireAll)
    case _ => false
  }

  /** All items delivered by a run, callback after callback. */
  function Delivered(cfg: Config, steps: seq<Step>): seq<Item> {
    if steps == [] then [] else
    var step := steps[|steps| - 1];
    Delivered(cfg, steps[..|steps| - 1])
    + if step.Notify? then ItemsOf(cfg, step.callback.events, step.callback.observed) else []
  }

  /** The same correlation state, whatever the current window holds. */
  ghost predicate SameRun(a: Core, b: Core) {
    a.accepting == b.accepting && a.excluded == b.excluded && a.pending == b.pending && a.total == b.total
  }

  lemma {:induction false} ProcessAppend(cfg: Config, core: Core, a: seq<Item>, b: seq<Item>)
    ensures ProcessAll(cfg, core, a + b) == ProcessAll(cfg, ProcessAll(cfg, core, a), b)
  {
    hide Process;
    if b == [] {
      assert a + b == a;
    } else {
      ProcessAppend(cfg, core, a, b[..|b| - 1]);
      assert (a + b)[..|a + b| - 1] == a + b[..|b| - 1];
    }
  }

  lemma {:induction false} ProcessSame(cfg: Config, a: Core, b: Core, items: seq<Item>)
    requires SameRun(a, b)
    ensures SameRun(ProcessAll(cfg, a, items), ProcessAll(cfg, b, items))
  {
    hide React, Digest, Totals.Plus;
    if items != [] {
      ProcessSame(cfg, a, b, items[..|items| - 1]);
    }
  }

  lemma {:induction false} SweepNothing(cfg: Config, core: Core, keys: seq<int>, cutoff: int, all: bool)
    requires forall s :: s in core.pending ==> !Expired(core.pending[s], cutoff, all)
    ensures Sweep(cfg, core, keys, cutoff, all) == core
    decreases |keys|
  {
    hide FinishAt, Expired;
    if keys != [] {
      SweepNothing(cfg, core, keys[1..], cutoff, all);
    }
  }

  /** Callback boundaries and window reports leave no trace in the correlation state. */
  lemma {:induction false} CalmRun(cfg: Config, st: State, steps: seq<Step>)
    requires st.measuring && Calm(cfg, st, steps)
    ensures RunFrom(cfg, st, steps).measuring
    ensures SameRun(RunFrom(cfg, st, steps).core, ProcessAll(cfg, st.core, Delivered(cfg, steps)))
  {
    hide ProcessAll, ItemsOf, ObserveTimes, ProfilesIn, Sweep, Ascending, Expired;
    if steps == [] {
      ProcessNothing(cfg, st.core);
    } else {
      var front, step := steps[..|steps| - 1], steps[|steps| - 1];
      CalmRun(cfg, st, front);
      CalmNext(cfg, st.core, RunFrom(cfg, st, front), Delivered(cfg, front), step);
    }
  }

  lemma ProcessNothing(cfg: Config, core: Core)
    ensures ProcessAll(cfg, core, []) == core
  {
  }

  lemma CalmNext(cfg: Config, start: Core, before: State, delivered: seq<Item>, step: Step)
    requires before.measuring && CalmStep(cfg, before, step)
    requires SameRun(before.core, ProcessAll(cfg, start, delivered))
    ensures
      var more := if step.Notify? then ItemsOf(cfg, step.callback.events, step.callback.observed) else [];
      Next(cfg, before, step).measuring
      && SameRun(Next(cfg, before, step).core, ProcessAll(cfg, start, delivered + more))
  {
    hide ProcessAll, ItemsOf, ObserveTimes, ProfilesIn, Sweep, Ascending, Expired;
    match step
    case Notify(c) =>
      var items := ItemsOf(cfg, c.events, c.observed);
      ProcessAppend(cfg, start, delivered, items);
      ProcessSame(cfg, before.core, ProcessAll(cfg, start, delivered), items);
    case TakeWindow(now, expireAll) =>
      SweepNothing(cfg, before.core, Ascending(before.core.pending.Keys), now - cfg.timeoutMs * NANOS_PER_MILLI,
                   expireAll);
      assert delivered + [] == delivered;
    case _ =>
  }

  /** The end of a measurement: stop accepting, then hand out the final window. */
  function Finished(cfg: Config, st: State, now: int): State {
    Next(cfg, Next(cfg, st, EndMeasurement), TakeWindow(now, true))
  }

  lemma {:induction false} SweepSame(cfg: Config, a: Core, b: Core, keys: seq<int>, c: int, d: int)
    requires a.pending == b.pending && a.total == b.total
    ensures Sweep(cfg, a, keys, c, true).total == Sweep(cfg, b, keys, d, true).total
    decreases |keys|
  {
    hide FinishBook, Digest, Totals.Plus;
    if keys != [] {
      var k := keys[0];
      if k in a.pending {
        SweepSame(cfg, FinishAt(cfg, a, k), FinishAt(cfg, b, k), keys[1..], c, d);
      } else {
        SweepSame(cfg, a, b, keys[1..], c, d);
      }
    }
  }

  /** A calm measurement records what its delivered items are worth together. */
  lemma MeasurementTally(cfg: Config, st: State, steps: seq<Step>, now: int)
    requires st.measuring && Calm(cfg, st, steps)
    ensures TallyOf(Finished(cfg, RunFrom(cfg, st, steps), now).core.total)
         == FinalTally(cfg, st.core, Delivered(cfg, steps))
  {
    hide RunFrom, ProcessAll, Sweep, Ascending, TallyOf, Calm, Delivered;
    CalmRun(cfg, st, steps);
    var last := RunFrom(cfg, st, steps);
    var core := ProcessAll(cfg, st.core, Delivered(cfg, steps));
    SweepSame(cfg, Next(cfg, last, EndMeasurement).core, core, Ascending(core.pending.Keys),
              now - cfg.timeoutMs * NANOS_PER_MILLI, 0);
  }

  /** The state in which a measurement starts: accepting, nothing pending. */
  predicate Started(st: State) {
    st.measuring && st.core.accepting && st.core.pending == map[]
  }

  /**
   * Two measurements from the same start that deliver the same items, however interleaved, split into callbacks and
   * interrupted by window reports, end with the same counters and the same multisets of latencies.
   */
  lemma MeasurementsAgree(cfg: Config, st: State, a: seq<Step>, b: seq<Step>, nowA: int, nowB: int)
    requires Started(st) && Calm(cfg, st, a) && Calm(cfg, st, b)
    requires multiset(Delivered(cfg, a)) == multiset(Delivered(cfg, b))
    requires OrderFreeItems(cfg, Delivered(cfg, a), st.core.excluded)
    ensures TallyOf(Finished(cfg, RunFrom(cfg, st, a), nowA).core.total)
         == TallyOf(Finished(cfg, RunFrom(cfg, st, b), nowB).core.total)
  {
    hide Finished, RunFrom, Calm, Delivered, OrderFreeItems, TallyOf, FinalTally;
    MeasurementTally(cfg, st, a, nowA);
    MeasurementTally(cfg, st, b, nowB);
    OrderIndependence(cfg, st.core, Delivered(cfg, a), Delivered(cfg, b));
  }

  /** Beginning a measurement from any state starts one. */
  lemma BeginStarts(cfg: Config, st: State)
    ensures Started(Next(cfg, st, BeginMeasurement))
  {
  }
}
