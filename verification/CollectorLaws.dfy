/** Conservation laws of the collector, in every state that any run of callbacks and control calls can reach. */
module CollectorLaws {
  import opened Common
  import opened Arithmetic
  import opened Events
  import opened Ordered
  import opened CollectorModel
  import opened CollectorAlgebra

  /** What every pending batch satisfies between steps. */
  ghost predicate Consistent(cfg: Config, b: Batch) {
    && b.received == SumCounts(b.byKind)
    && (b.timestamp.Some? ==> b.events == [] && b.byKind != cfg.expected)
    && (b.timestamp.None? ==> |b.events| == b.received)
    && (forall i :: 0 <= i < |b.events| ==> b.events[i].observed <= b.lastObserved)
  }

  ghost predicate AllConsistent(cfg: Config, pending: map<int, Batch>) {
    forall s :: s in pending ==> Consistent(cfg, pending[s])
  }

  function IsMarked(b: Batch): nat {
    if b.timestamp.Some? then 1 else 0
  }

  function ReceivedBy(b: Batch): nat {
    b.received
  }

  ghost function Marked(pending: map<int, Batch>): nat {
    SumMap(pending, IsMarked)
  }

  ghost function Held(pending: map<int, Batch>): nat {
    SumMap(pending, ReceivedBy)
  }

  function MarkedOne(b: Option<Batch>): nat {
    if b.Some? then IsMarked(b.value) else 0
  }

  function HeldOne(b: Option<Batch>): nat {
    if b.Some? then ReceivedBy(b.value) else 0
  }

  /** One step on one sequence: what its batch was and becomes, and what is recorded meanwhile. */
  ghost predicate Balanced(cfg: Config, k: MarketKind, before: Option<Batch>, after: Option<Batch>, d: Delivery,
                           accepted: nat) {
    && d.Settled() <= 1
    && d.delivered.At(k) + d.deficit.At(k) == (if d.Settled() == 1 then cfg.expected.At(k) else 0) + d.excess.At(k)
    && d.published.At(k) + (if MarkedOne(before) == 1 then cfg.expected.At(k) else 0)
       == (if d.Settled() == 1 then cfg.expected.At(k) else 0) + (if MarkedOne(after) == 1 then cfg.expected.At(k) else 0)
    && MarkedOne(before) <= d.Settled() + MarkedOne(after)
    && SumCounts(d.delivered) + d.uncorrelated + HeldOne(after) == HeldOne(before) + accepted
    && (after.Some? ==> Consistent(cfg, after.value))
  }

  lemma {:induction false} PricedDelivers(events: seq<PendingEvent>, publishTime: int)
    ensures PricedAll(events, publishTime).delivery == NO_DELIVERY && PricedAll(events, publishTime).missing == 0
  {
    hide Delivery.Plus;
    if events != [] {
      PricedDelivers(events[..|events| - 1], publishTime);
      DeliveryPlus(NO_DELIVERY, NO_DELIVERY, NO_DELIVERY);
    }
  }

  lemma EmissionDelivers(b: Batch)
    ensures EmitBook(b).delivery == NO_DELIVERY && EmitBook(b).missing == 0
  {
    if b.timestamp.Some? {
      PricedDelivers(b.events, b.timestamp.value);
    }
  }

  lemma SettleDelivers(cfg: Config, b: Batch)
    requires b.timestamp.Some?
    ensures SettleBook(cfg, b).delivery == Settlement(cfg, b)
    ensures SettleBook(cfg, b).missing == if b.byKind != cfg.expected && !cfg.allowConflation then 1 else 0
  {
    hide Delivery.Plus, Settlement;
    DeliveryPlus(Settlement(cfg, b), NO_DELIVERY, NO_DELIVERY);
  }

  lemma SettlementIgnoresEvents(cfg: Config, b: Batch)
    ensures Settlement(cfg, Emitted(b)) == Settlement(cfg, b)
  {
  }

  lemma FinishDelivers(cfg: Config, b: Batch)
    ensures b.timestamp.None? ==> FinishBook(cfg, b).delivery == NO_DELIVERY.(uncorrelated := b.received)
    ensures b.timestamp.Some? ==> FinishBook(cfg, b).delivery == Settlement(cfg, b)
    ensures FinishBook(cfg, b).missing ==
            if cfg.allowConflation || (b.timestamp.Some? && b.byKind == cfg.expected) then 0 else 1
  {
    hide Delivery.Plus, Settlement, EmitBook, SettleBook;
    if b.timestamp.Some? {
      EmissionDelivers(b);
      SettleDelivers(cfg, Emitted(b));
      SettlementIgnoresEvents(cfg, b);
      DeliveryPlus(Settlement(cfg, b), NO_DELIVERY, NO_DELIVERY);
    }
  }

  lemma AdvanceDelivers(cfg: Config, b: Batch)
    ensures
      var r := Advance(cfg, b);
      var complete := b.timestamp.Some? && b.byKind == cfg.expected;
      && r.pending == (if complete then None else Some(Emitted(b)))
      && r.book.delivery == (if complete then Settlement(cfg, b) else NO_DELIVERY)
      && r.book.missing == 0
  {
    hide Delivery.Plus, Settlement, EmitBook, FinishBook;
    EmissionDelivers(b);
    FinishDelivers(cfg, Emitted(b));
    SettlementIgnoresEvents(cfg, b);
    DeliveryPlus(Settlement(cfg, b), NO_DELIVERY, NO_DELIVERY);
  }

  lemma SettlementBalanced(cfg: Config, b: Batch, k: MarketKind)
    requires b.received == SumCounts(b.byKind)
    ensures
      var d := Settlement(cfg, b);
      && d.Settled() == 1 && d.published == NONE_OF_EACH && d.uncorrelated == 0 && SumCounts(d.delivered) == b.received
      && d.delivered.At(k) + d.deficit.At(k) == cfg.expected.At(k) + d.excess.At(k)
      && (d.full == 1 <==> b.byKind == cfg.expected)
  {
  }

  function Published(cfg: Config, before: Option<Batch>, b: Batch): Counts {
    if b.timestamp.Some? && MarkedOne(before) == 0 then cfg.expected else NONE_OF_EACH
  }

  lemma CompleteBalanced(cfg: Config, before: Option<Batch>, b: Batch, k: MarketKind, accepted: nat)
    requires b.received == SumCounts(b.byKind) == HeldOne(before) + accepted
    requires b.timestamp.Some?
    ensures Balanced(cfg, k, before, None, Settlement(cfg, b).(published := Published(cfg, before, b)), accepted)
  {
    hide Settlement, PerKind.At, SumCounts;
    SettlementBalanced(cfg, b, k);
    NoneAt(k);
  }

  lemma OpenBalanced(cfg: Config, before: Option<Batch>, b: Batch, k: MarketKind, accepted: nat)
    requires b.received == SumCounts(b.byKind) == HeldOne(before) + accepted
    requires b.timestamp.None? ==> |b.events| == b.received && MarkedOne(before) == 0
    requires b.timestamp.Some? ==> b.byKind != cfg.expected
    requires forall i :: 0 <= i < |b.events| ==> b.events[i].observed <= b.lastObserved
    ensures Balanced(cfg, k, before, Some(Emitted(b)), NO_DELIVERY.(published := Published(cfg, before, b)), accepted)
  {
    hide PerKind.At, SumCounts;
    NoneAt(k);
  }

  /** A batch that is complete settles; any other stays, and nothing is lost either way. */
  lemma AdvanceBalanced(cfg: Config, before: Option<Batch>, b: Batch, k: MarketKind, accepted: nat)
    requires b.received == SumCounts(b.byKind) == HeldOne(before) + accepted
    requires b.timestamp.None? ==> |b.events| == b.received && MarkedOne(before) == 0
    requires forall i :: 0 <= i < |b.events| ==> b.events[i].observed <= b.lastObserved
    ensures
      var r := Advance(cfg, b);
      Balanced(cfg, k, before, r.pending, NO_DELIVERY.(published := Published(cfg, before, b)).Plus(r.book.delivery),
               accepted)
      && r.book.missing == 0 && r.book.delivery.partial == r.book.delivery.empty == 0
  {
    hide Advance, Settlement, Delivery.Plus, SumCounts, Balanced, Published;
    AdvanceDelivers(cfg, b);
    var published := Published(cfg, before, b);
    SettlementBalanced(cfg, b, k);
    if b.timestamp.Some? && b.byKind == cfg.expected {
      CompleteBalanced(cfg, before, b, k, accepted);
      PublishedFirst(published, Settlement(cfg, b));
    } else {
      OpenBalanced(cfg, before, b, k, accepted);
      PublishedFirst(published, NO_DELIVERY);
    }
  }

  lemma EventBalanced(cfg: Config, before: Option<Batch>, e: PendingEvent, k: MarketKind)
    requires before.Some? ==> Consistent(cfg, before.value)
    ensures
      var r := React(cfg, before, Event(e));
      Balanced(cfg, k, before, r.pending, r.book.delivery, 1)
      && r.book.missing == 0 && r.book.delivery.partial == r.book.delivery.empty == 0
  {
    hide Advance, Delivery.Plus, Balanced, PerKind.At, PerKind.Put, SumCounts;
    var b := before.GetOr(NEW_BATCH);
    var c := WithEvent(b, e);
    NoneAt(k);
    OneMore(b.byKind, e.kind);
    assert forall i :: 0 <= i < |b.events| ==> c.events[i] == b.events[i];
    assert c.received == HeldOne(before) + 1;
    AdvanceBalanced(cfg, before, c, k, 1);
    DeliveryPlus(Advance(cfg, c).book.delivery, NO_DELIVERY, NO_DELIVERY);
    assert c.timestamp.Some? <==> MarkedOne(before) == 1;
  }

  lemma MarkerBalanced(cfg: Config, before: Option<Batch>, timestamp: int, observed: int, k: MarketKind)
    requires before.Some? ==> Consistent(cfg, before.value)
    ensures
      var r := React(cfg, before, Marker(timestamp, observed));
      Balanced(cfg, k, before, r.pending, r.book.delivery, 0)
      && r.book.missing == 0 && r.book.delivery.partial == r.book.delivery.empty == 0
  {
    hide Advance, Balanced;
    var c := WithMarker(before.GetOr(NEW_BATCH), timestamp, observed);
    AdvanceBalanced(cfg, before, c, k, 0);
  }

  /** One arrival keeps a sequence's accounts balanced. */
  lemma ReactBalanced(cfg: Config, before: Option<Batch>, arrival: Arrival, k: MarketKind)
    requires before.Some? ==> Consistent(cfg, before.value)
    ensures
      var r := React(cfg, before, arrival);
      Balanced(cfg, k, before, r.pending, r.book.delivery, if arrival.Event? then 1 else 0)
      && r.book.missing == 0 && r.book.delivery.partial == r.book.delivery.empty == 0
  {
    hide React, Balanced;
    match arrival
    case Event(e) => EventBalanced(cfg, before, e, k);
    case Marker(timestamp, observed) => MarkerBalanced(cfg, before, timestamp, observed, k);
  }

  lemma PublishedFirst(expected: Counts, d: Delivery)
    requires d.published == NONE_OF_EACH
    ensures NO_DELIVERY.(published := expected).Plus(d) == d.(published := expected)
  {
  }

  lemma NoneAt(k: MarketKind)
    ensures NONE_OF_EACH.At(k) == 0 && SumCounts(NONE_OF_EACH) == 0
  {
  }

  lemma OneMore(c: Counts, k: MarketKind)
    ensures SumCounts(c.Put(k, c.At(k) + 1)) == SumCounts(c) + 1
  {
  }

  lemma FinishBalanced(cfg: Config, b: Batch, k: MarketKind)
    requires Consistent(cfg, b)
    ensures Balanced(cfg, k, Some(b), None, FinishBook(cfg, b).delivery, 0)
    ensures
      var f := FinishBook(cfg, b);
      f.missing == if cfg.allowConflation then 0
                   else f.delivery.partial + f.delivery.empty + (if b.timestamp.None? then 1 else 0)
  {
    hide FinishBook, Settlement, PerKind.At, SumCounts;
    FinishDelivers(cfg, b);
    SettlementBalanced(cfg, b, k);
    NoneAt(k);
  }

  // Whole states.

  /** What a run has taken in and given up besides the published counters. */
  datatype Account = Account(accepted: nat, droppedMarked: nat, droppedEvents: nat, unmarkedFinished: nat)

  const NO_ACCOUNT := Account(0, 0, 0, 0)

  function IsUnmarked(b: Batch): nat {
    1 - IsMarked(b)
  }

  ghost function Unmarked(pending: map<int, Batch>): nat {
    SumMap(pending, IsUnmarked)
  }

  function UnmarkedOne(b: Option<Batch>): nat {
    if b.Some? then IsUnmarked(b.value) else 0
  }

  ghost predicate KindLaw(cfg: Config, core: Core, a: Account, k: MarketKind) {
    var d := core.total.delivery;
    && d.delivered.At(k) + d.deficit.At(k) == cfg.expected.At(k) * d.Settled() + d.excess.At(k)
    && d.published.At(k) == cfg.expected.At(k) * (d.Settled() + Marked(core.pending) + a.droppedMarked)
  }

  ghost predicate ReceptionLaw(core: Core, a: Account) {
    var d := core.total.delivery;
    SumCounts(d.delivered) + d.uncorrelated + Held(core.pending) + a.droppedEvents == a.accepted
  }

  ghost predicate MissingLaw(cfg: Config, core: Core, a: Account) {
    var d := core.total.delivery;
    core.total.missing == if cfg.allowConflation then 0 else d.partial + d.empty + a.unmarkedFinished
  }

  ghost predicate Lawful(cfg: Config, core: Core, a: Account) {
    && AllConsistent(cfg, core.pending)
    && (forall k: MarketKind :: KindLaw(cfg, core, a, k))
    && ReceptionLaw(core, a)
    && MissingLaw(cfg, core, a)
    && (forall s :: s in core.pending ==> s !in core.excluded)
  }

  lemma PlusAt(a: Delivery, b: Delivery, k: MarketKind)
    ensures a.Plus(b).delivered.At(k) == a.delivered.At(k) + b.delivered.At(k)
    ensures a.Plus(b).deficit.At(k) == a.deficit.At(k) + b.deficit.At(k)
    ensures a.Plus(b).excess.At(k) == a.excess.At(k) + b.excess.At(k)
    ensures a.Plus(b).published.At(k) == a.published.At(k) + b.published.At(k)
  {
  }

  lemma PlusSums(a: Delivery, b: Delivery)
    ensures a.Plus(b).Settled() == a.Settled() + b.Settled()
    ensures SumCounts(a.Plus(b).delivered) == SumCounts(a.delivered) + SumCounts(b.delivered)
    ensures a.Plus(b).uncorrelated == a.uncorrelated + b.uncorrelated
    ensures a.Plus(b).partial == a.partial + b.partial && a.Plus(b).empty == a.empty + b.empty
  {
  }

  /** How storing a batch moves the sums over the pending map. */
  lemma StoreSums(core: Core, s: int, after: Option<Batch>)
    ensures Marked(core.Store(s, after).pending) + MarkedOne(core.Lookup(s)) == Marked(core.pending) + MarkedOne(after)
    ensures Held(core.Store(s, after).pending) + HeldOne(core.Lookup(s)) == Held(core.pending) + HeldOne(after)
    ensures Unmarked(core.Store(s, after).pending) + UnmarkedOne(core.Lookup(s))
         == Unmarked(core.pending) + UnmarkedOne(after)
  {
    hide SumMap;
    var m := core.pending;
    if after.Some? {
      SumMapPut(m, IsMarked, s, after.value);
      SumMapPut(m, ReceivedBy, s, after.value);
      SumMapPut(m, IsUnmarked, s, after.value);
    } else if s in m {
      SumMapRemove(m, IsMarked, s);
      SumMapRemove(m, ReceivedBy, s);
      SumMapRemove(m, IsUnmarked, s);
    } else {
      assert m - {s} == m;
    }
  }

  lemma KindLawKept(cfg: Config, core: Core, a: Account, a': Account, s: int, after: Option<Batch>, book: Book,
                    accepted: nat, k: MarketKind)
    requires KindLaw(cfg, core, a, k) && a'.droppedMarked == a.droppedMarked
    requires Balanced(cfg, k, core.Lookup(s), after, book.delivery, accepted)
    ensures KindLaw(cfg, core.Store(s, after).Record(book), a', k)
  {
    hide PerKind.At, Delivery.Plus, SumCounts, Consistent, Digest, Marked, Held, Unmarked, Delivery.Settled, MarkedOne;
    var d, e := core.total.delivery, book.delivery;
    DigestDelivery(book);
    PlusAt(d, e, k);
    PlusSums(d, e);
    StoreSums(core, s, after);
    MarkedAtMostOne(core.Lookup(s));
    MarkedAtMostOne(after);
    OneStep(cfg.expected.At(k), d.Settled(), e.Settled(), 0, 0);
    OneStep(cfg.expected.At(k), d.Settled() + Marked(core.pending) + a.droppedMarked, e.Settled(),
            MarkedOne(after), MarkedOne(core.Lookup(s)));
    Regrouped(d.Settled(), e.Settled(), Marked(core.pending), Marked(core.Store(s, after).pending), a.droppedMarked,
              MarkedOne(core.Lookup(s)), MarkedOne(after));
  }

  lemma Regrouped(settled: nat, more: nat, marked: nat, marked': nat, dropped: nat, before: nat, after: nat)
    requires marked' + before == marked + after
    ensures settled + more + marked' + dropped == settled + marked + dropped + more + after - before
  {
  }

  lemma MarkedAtMostOne(b: Option<Batch>)
    ensures MarkedOne(b) <= 1
  {
  }

  lemma DigestDelivery(book: Book)
    ensures Digest(book).delivery == book.delivery && Digest(book).missing == book.missing
  {
  }

  lemma OneStep(x: nat, open: nat, settled: nat, after: nat, before: nat)
    requires settled <= 1 && after <= 1 && before <= 1
    ensures x * (open + settled + after - before)
         == x * open + (if settled == 1 then x else 0) + (if after == 1 then x else 0) - (if before == 1 then x else 0)
  {
    Distribute(open, settled, x);
  }

  lemma ReceptionKept(cfg: Config, core: Core, a: Account, a': Account, s: int, after: Option<Batch>, book: Book,
                      accepted: nat, k: MarketKind)
    requires ReceptionLaw(core, a) && a'.droppedEvents == a.droppedEvents && a'.accepted == a.accepted + accepted
    requires Balanced(cfg, k, core.Lookup(s), after, book.delivery, accepted)
    ensures ReceptionLaw(core.Store(s, after).Record(book), a')
  {
    hide PerKind.At, Delivery.Plus, SumCounts, Consistent, Digest, Marked, Held, Unmarked, Delivery.Settled, MarkedOne;
    DigestDelivery(book);
    PlusSums(core.total.delivery, book.delivery);
    StoreSums(core, s, after);
  }

  lemma MissingKept(cfg: Config, core: Core, a: Account, a': Account, s: int, after: Option<Batch>, book: Book)
    requires MissingLaw(cfg, core, a) && a'.unmarkedFinished >= a.unmarkedFinished
    requires book.missing == if cfg.allowConflation then 0
                             else book.delivery.partial + book.delivery.empty + a'.unmarkedFinished - a.unmarkedFinished
    ensures MissingLaw(cfg, core.Store(s, after).Record(book), a')
  {
    hide Delivery.Plus, SumCounts, Digest;
    DigestDelivery(book);
    PlusSums(core.total.delivery, book.delivery);
  }

  /** A balanced step on one sequence keeps every law. */
  lemma StepLawful(cfg: Config, core: Core, a: Account, a': Account, s: int, after: Option<Batch>, book: Book,
                   accepted: nat)
    requires Lawful(cfg, core, a) && s !in core.excluded
    requires forall k: MarketKind :: Balanced(cfg, k, core.Lookup(s), after, book.delivery, accepted)
    requires a'.unmarkedFinished >= a.unmarkedFinished
    requires a' == a.(accepted := a.accepted + accepted, unmarkedFinished := a'.unmarkedFinished)
    requires book.missing == if cfg.allowConflation then 0
                             else book.delivery.partial + book.delivery.empty + a'.unmarkedFinished - a.unmarkedFinished
    ensures Lawful(cfg, core.Store(s, after).Record(book), a')
  {
    hide KindLaw, ReceptionLaw, MissingLaw, Consistent, Digest;
    forall k: MarketKind ensures KindLaw(cfg, core.Store(s, after).Record(book), a', k) {
      KindLawKept(cfg, core, a, a', s, after, book, accepted, k);
    }
    ReceptionKept(cfg, core, a, a', s, after, book, accepted, Quote);
    MissingKept(cfg, core, a, a', s, after, book);
    assert Balanced(cfg, Quote, core.Lookup(s), after, book.delivery, accepted);
  }

  function AcceptedOne(core: Core, item: Item): nat {
    if core.Accepts(item.sequence) && item.arrival.Event? then 1 else 0
  }

  lemma ProcessLawful(cfg: Config, core: Core, a: Account, item: Item)
    requires Lawful(cfg, core, a)
    ensures Lawful(cfg, Process(cfg, core, item), a.(accepted := a.accepted + AcceptedOne(core, item)))
  {
    hide KindLaw, ReceptionLaw, MissingLaw, Consistent, Balanced, React, Core.Record;
    if core.Accepts(item.sequence) {
      var before := core.Lookup(item.sequence);
      forall k: MarketKind
        ensures Balanced(cfg, k, before, React(cfg, before, item.arrival).pending,
                         React(cfg, before, item.arrival).book.delivery, AcceptedOne(core, item))
      {
        ReactBalanced(cfg, before, item.arrival, k);
      }
      ReactBalanced(cfg, before, item.arrival, Quote);
      var r := React(cfg, before, item.arrival);
      StepLawful(cfg, core, a, a.(accepted := a.accepted + AcceptedOne(core, item)), item.sequence, r.pending, r.book,
                 AcceptedOne(core, item));
    }
  }

  lemma FinishLawful(cfg: Config, core: Core, a: Account, s: int)
    requires Lawful(cfg, core, a) && s in core.pending
    ensures Lawful(cfg, FinishAt(cfg, core, s), a.(unmarkedFinished := a.unmarkedFinished + UnmarkedOne(core.Lookup(s))))
  {
    hide KindLaw, ReceptionLaw, MissingLaw, Consistent, Balanced, FinishBook, Core.Record;
    var b := core.pending[s];
    forall k: MarketKind ensures Balanced(cfg, k, Some(b), None, FinishBook(cfg, b).delivery, 0) {
      FinishBalanced(cfg, b, k);
    }
    FinishBalanced(cfg, b, Quote);
    StepLawful(cfg, core, a, a.(unmarkedFinished := a.unmarkedFinished + UnmarkedOne(core.Lookup(s))), s, None,
               FinishBook(cfg, b), 0);
  }

  /** Events that a sequence of items delivers to open or new batches. */
  ghost function AcceptedIn(cfg: Config, core: Core, items: seq<Item>): nat {
    if items == [] then 0 else
    var front := items[..|items| - 1];
    AcceptedIn(cfg, core, front) + AcceptedOne(ProcessAll(cfg, core, front), items[|items| - 1])
  }

  lemma {:induction false} ProcessAllLawful(cfg: Config, core: Core, a: Account, items: seq<Item>)
    requires Lawful(cfg, core, a)
    ensures Lawful(cfg, ProcessAll(cfg, core, items), a.(accepted := a.accepted + AcceptedIn(cfg, core, items)))
  {
    hide Lawful, Process, AcceptedOne;
    if items != [] {
      var front := items[..|items| - 1];
      ProcessAllLawful(cfg, core, a, front);
      ProcessLawful(cfg, ProcessAll(cfg, core, front), a.(accepted := a.accepted + AcceptedIn(cfg, core, front)),
                    items[|items| - 1]);
    }
  }

  lemma FinishPending(cfg: Config, core: Core, s: int)
    requires s in core.pending
    ensures FinishAt(cfg, core, s).pending == core.pending - {s}
    ensures FinishAt(cfg, core, s).excluded == core.excluded && FinishAt(cfg, core, s).accepting == core.accepting
    ensures Unmarked(core.pending) == Unmarked(core.pending - {s}) + UnmarkedOne(core.Lookup(s))
  {
    hide FinishBook, Digest, Unmarked;
    StoreSums(core, s, None);
  }

  lemma {:induction false} SweepLawful(cfg: Config, core: Core, a: Account, keys: seq<int>, cutoff: int, all: bool)
    requires Lawful(cfg, core, a)
    ensures
      var swept := Sweep(cfg, core, keys, cutoff, all);
      Unmarked(swept.pending) <= Unmarked(core.pending) &&
      Lawful(cfg, swept,
             a.(unmarkedFinished := a.unmarkedFinished + Unmarked(core.pending) - Unmarked(swept.pending)))
    decreases |keys|
  {
    hide Lawful, FinishAt, Unmarked;
    if keys != [] {
      var k := keys[0];
      if k in core.pending && Expired(core.pending[k], cutoff, all) {
        FinishLawful(cfg, core, a, k);
        FinishPending(cfg, core, k);
        SweepLawful(cfg, FinishAt(cfg, core, k),
                    a.(unmarkedFinished := a.unmarkedFinished + UnmarkedOne(core.Lookup(k))), keys[1..], cutoff, all);
      } else {
        SweepLawful(cfg, core, a, keys[1..], cutoff, all);
      }
    }
  }

  // Runs.

  /** What a step contributes to the account: events accepted, batches dropped by a restart, batches finished unmarked. */
  ghost function AccountStep(cfg: Config, st: State, a: Account, step: Step): Account {
    match step
    case Notify(c) =>
      if st.measuring then a.(accepted := a.accepted + AcceptedIn(cfg, st.core, ItemsOf(cfg, c.events, c.observed))) else a
    case BeginMeasurement =>
      a.(droppedMarked := a.droppedMarked + Marked(st.core.pending),
         droppedEvents := a.droppedEvents + Held(st.core.pending))
    case EndMeasurement => a
    case TakeWindow(now, expireAll) =>
      var left := Unmarked(Swept(cfg, st, now, expireAll).core.pending);
      var before := Unmarked(st.core.pending);
      a.(unmarkedFinished := a.unmarkedFinished + if left <= before then before - left else 0)
  }

  ghost function AccountOf(cfg: Config, steps: seq<Step>): Account {
    if steps == [] then NO_ACCOUNT else
    var front := steps[..|steps| - 1];
    AccountStep(cfg, Run(cfg, front), AccountOf(cfg, front), steps[|steps| - 1])
  }

  ghost predicate Reachable(cfg: Config, st: State, a: Account) {
    && Lawful(cfg, st.core, a)
    && (!st.measuring ==> st.core.pending == map[] && !st.core.accepting)
  }

  lemma BeginLawful(cfg: Config, core: Core, a: Account)
    requires Lawful(cfg, core, a)
    ensures Lawful(cfg, core.(accepting := true, pending := map[], window := EMPTY_BOOK),
                   a.(droppedMarked := a.droppedMarked + Marked(core.pending),
                      droppedEvents := a.droppedEvents + Held(core.pending)))
  {
    hide Consistent, PerKind.At;
    assert Marked(map[]) == 0 && Held(map[]) == 0;
    var after := core.(accepting := true, pending := map[], window := EMPTY_BOOK);
    var a' := a.(droppedMarked := a.droppedMarked + Marked(core.pending),
                 droppedEvents := a.droppedEvents + Held(core.pending));
    forall k: MarketKind ensures KindLaw(cfg, after, a', k) {
      assert KindLaw(cfg, core, a, k);
    }
  }

  lemma WindowIrrelevant(cfg: Config, core: Core, a: Account, accepting: bool, window: Book)
    requires Lawful(cfg, core, a)
    ensures Lawful(cfg, core.(accepting := accepting, window := window), a)
  {
    hide Consistent, PerKind.At, SumCounts, Marked, Held, Unmarked;
    var after := core.(accepting := accepting, window := window);
    forall k: MarketKind ensures KindLaw(cfg, after, a, k) {
      assert KindLaw(cfg, core, a, k);
    }
  }

  lemma ExcludingIrrelevant(cfg: Config, core: Core, a: Account, excluded: set<int>)
    requires Lawful(cfg, core, a) && core.pending == map[]
    ensures Lawful(cfg, core.(excluded := excluded), a)
  {
    hide Consistent, PerKind.At, SumCounts, Marked, Held, Unmarked;
    var after := core.(excluded := excluded);
    forall k: MarketKind ensures KindLaw(cfg, after, a, k) {
      assert KindLaw(cfg, core, a, k);
    }
  }

  lemma NextReachable(cfg: Config, st: State, a: Account, step: Step)
    requires Reachable(cfg, st, a)
    ensures Reachable(cfg, Next(cfg, st, step), AccountStep(cfg, st, a, step))
  {
    hide Lawful, ProcessAll, Sweep, ItemsOf, ObserveTimes, SequencesIn, ProfilesIn, Marked, Held, Unmarked, Ascending;
    match step
    case Notify(c) =>
      if st.measuring {
        ProcessAllLawful(cfg, st.core, a, ItemsOf(cfg, c.events, c.observed));
      } else {
        ExcludingIrrelevant(cfg, st.core, a, st.core.excluded + SequencesIn(cfg, c.events));
      }
    case BeginMeasurement => BeginLawful(cfg, st.core, a);
    case EndMeasurement => WindowIrrelevant(cfg, st.core, a, false, st.core.window);
    case TakeWindow(now, expireAll) =>
      var swept := Swept(cfg, st, now, expireAll);
      var keys := Ascending(st.core.pending.Keys);
      var cutoff := now - cfg.timeoutMs * NANOS_PER_MILLI;
      SweepLawful(cfg, st.core, a, keys, cutoff, expireAll);
      var a' := AccountStep(cfg, st, a, step);
      WindowIrrelevant(cfg, swept.core, a', swept.core.accepting, EMPTY_BOOK);
      SweepKeeps(cfg, st.core, keys, cutoff, expireAll);
  }

  lemma {:induction false} SweepKeeps(cfg: Config, core: Core, keys: seq<int>, cutoff: int, all: bool)
    ensures
      var swept := Sweep(cfg, core, keys, cutoff, all);
      swept.accepting == core.accepting && swept.excluded == core.excluded && swept.pending.Keys <= core.pending.Keys
    decreases |keys|
  {
    hide FinishAt;
    if keys != [] {
      var k := keys[0];
      if k in core.pending && Expired(core.pending[k], cutoff, all) {
        FinishPending(cfg, core, k);
        SweepKeeps(cfg, FinishAt(cfg, core, k), keys[1..], cutoff, all);
      } else {
        SweepKeeps(cfg, core, keys[1..], cutoff, all);
      }
    }
  }

  lemma NothingPending()
    ensures Marked(map[]) == 0 && Held(map[]) == 0 && Unmarked(map[]) == 0
  {
  }

  lemma NothingSettled()
    ensures NO_DELIVERY.Settled() == 0
  {
  }

  lemma InitialKindLaw(cfg: Config, k: MarketKind)
    ensures KindLaw(cfg, INITIAL.core, NO_ACCOUNT, k)
  {
    hide PerKind.At, Marked, SumCounts, Delivery.Settled;
    NoneAt(k);
    NothingPending();
    NothingSettled();
    assert cfg.expected.At(k) * 0 == 0;
  }

  lemma InitialReachable(cfg: Config)
    ensures Reachable(cfg, INITIAL, NO_ACCOUNT)
  {
    hide KindLaw, ReceptionLaw, MissingLaw;
    InitialSums(cfg, INITIAL.core);
    forall k: MarketKind ensures KindLaw(cfg, INITIAL.core, NO_ACCOUNT, k) {
      InitialKindLaw(cfg, k);
    }
  }

  lemma InitialSums(cfg: Config, core: Core)
    requires core.pending == map[] && core.total == NO_TOTALS
    ensures ReceptionLaw(core, NO_ACCOUNT) && MissingLaw(cfg, core, NO_ACCOUNT)
  {
    hide Held, SumCounts;
    NoneAt(Quote);
    NothingPending();
  }

  /** Every run keeps every law. */
  lemma {:induction false} RunReachable(cfg: Config, steps: seq<Step>)
    ensures Reachable(cfg, Run(cfg, steps), AccountOf(cfg, steps))
  {
    hide Reachable, Next, AccountStep;
    if steps == [] {
      InitialReachable(cfg);
    } else {
      var front := steps[..|steps| - 1];
      RunReachable(cfg, front);
      NextReachable(cfg, Run(cfg, front), AccountOf(cfg, front), steps[|steps| - 1]);
    }
  }
}
