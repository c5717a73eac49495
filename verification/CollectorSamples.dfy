/** Every first marker ends up in a publication counter, and every delivered event in a sample or a clock anomaly. */
module CollectorSamples {
  import opened Common
  import opened Events
  import opened Ordered
  import opened CollectorModel
  import opened CollectorLaws
  import CollectorRuns

  // What is counted.

  /** Samples and clock anomalies of a window. */
  function SampleCount(b: Book): nat {
    |b.events| + |b.batches| + b.negative
  }

  /** Samples and clock anomalies of a whole run. */
  function TotalSamples(t: Totals): nat {
    |t.eventsByKind.quote| + |t.eventsByKind.trade| + |t.eventsByKind.tradeEth| + |t.eventsByKind.summary|
    + |t.batches| + t.negative
  }

  lemma {:induction false} KindsCover(samples: seq<Sample>)
    ensures |LatenciesOf(samples, Quote)| + |LatenciesOf(samples, Trade)| + |LatenciesOf(samples, TradeEth)|
            + |LatenciesOf(samples, Summary)| == |samples|
  {
    if samples != [] {
      KindsCover(samples[..|samples| - 1]);
    }
  }

  lemma DigestSamples(b: Book)
    ensures TotalSamples(Digest(b)) == SampleCount(b)
  {
    KindsCover(b.events);
    hide LatenciesOf;
  }

  lemma RecordSamples(core: Core, b: Book)
    ensures TotalSamples(core.Record(b).total) == TotalSamples(core.total) + SampleCount(b)
  {
    DigestSamples(b);
    hide Digest, Delivery.Plus;
  }

  /** Settled publications that received an event, and so have a latency as a whole. */
  function SettledWithEvents(cfg: Config, d: Delivery): nat {
    d.partial + if cfg.expected == NONE_OF_EACH then 0 else d.full
  }

  function MarkedReceived(b: Batch): nat {
    if b.timestamp.Some? then b.received else 0
  }

  /** Events received by pending batches with a marker. */
  ghost function HeldMarked(pending: map<int, Batch>): nat {
    SumMap(pending, MarkedReceived)
  }

  function MarkedReceivedOne(b: Option<Batch>): nat {
    if b.Some? then MarkedReceived(b.value) else 0
  }

  /** A marker for a batch that has none yet. */
  function FirstOne(before: Option<Batch>, a: Arrival): nat {
    if a.Marker? && MarkedOne(before) == 0 then 1 else 0
  }

  // One sequence.

  /** A marked batch was announced once and has emitted what it received; settling adds at most its own latency. */
  predicate Accounted(cfg: Config, before: Option<Batch>, after: Option<Batch>, book: Book, first: nat) {
    var d := book.delivery;
    && d.Settled() + MarkedOne(after) == MarkedOne(before) + first
    && SampleCount(book) + MarkedReceivedOne(before)
       == SumCounts(d.delivered) + SettledWithEvents(cfg, d) + MarkedReceivedOne(after)
  }

  lemma {:induction false} PricedSamples(events: seq<PendingEvent>, publishTime: int)
    ensures SampleCount(PricedAll(events, publishTime)) == |events|
  {
    hide Delivery.Plus;
    if events != [] {
      PricedSamples(events[..|events| - 1], publishTime);
    }
  }

  lemma EmissionSamples(b: Batch)
    ensures SampleCount(EmitBook(b)) == if b.timestamp.Some? then |b.events| else 0
  {
    if b.timestamp.Some? {
      PricedSamples(b.events, b.timestamp.value);
    }
  }

  lemma SettleSamples(cfg: Config, b: Batch)
    requires b.timestamp.Some?
    ensures SampleCount(SettleBook(cfg, b)) == if b.received > 0 then 1 else 0
  {
    hide Delivery.Plus, Settlement;
  }

  lemma FinishSamples(cfg: Config, b: Batch)
    ensures SampleCount(FinishBook(cfg, b))
         == if b.timestamp.Some? then |b.events| + (if b.received > 0 then 1 else 0) else 0
  {
    hide Delivery.Plus, Settlement, EmitBook, SettleBook;
    EmissionSamples(b);
    if b.timestamp.Some? {
      SettleSamples(cfg, Emitted(b));
    }
  }

  lemma SettlementSamples(cfg: Config, b: Batch)
    requires b.received == SumCounts(b.byKind)
    ensures SettledWithEvents(cfg, Settlement(cfg, b)) == (if b.received > 0 then 1 else 0)
    ensures Settlement(cfg, b).Settled() == 1 && SumCounts(Settlement(cfg, b).delivered) == b.received
  {
  }

  lemma NothingSettled(cfg: Config)
    ensures SettledWithEvents(cfg, NO_DELIVERY) == 0 && NO_DELIVERY.Settled() == 0 && SumCounts(NO_DELIVERY.delivered) == 0
  {
    hide SumCounts;
    NoneAt(Quote);
  }

  /** A batch that is complete settles; any other has emitted what it can. */
  lemma AdvanceSamples(cfg: Config, b: Batch)
    requires b.received == SumCounts(b.byKind)
    ensures
      var r := Advance(cfg, b);
      var d := r.book.delivery;
      && d.Settled() + MarkedOne(r.pending) == (if b.timestamp.Some? then 1 else 0)
      && SampleCount(r.book) + MarkedReceived(b)
         == (if b.timestamp.Some? then |b.events| else 0)
            + SumCounts(d.delivered) + SettledWithEvents(cfg, d) + MarkedReceivedOne(r.pending)
  {
    hide Delivery.Plus, Settlement, EmitBook, FinishBook, SumCounts, Delivery.Settled, SettledWithEvents;
    AdvanceDelivers(cfg, b);
    EmissionSamples(b);
    FinishSamples(cfg, Emitted(b));
    SettlementSamples(cfg, b);
    NothingSettled(cfg);
  }

  lemma PublishedOnly(cfg: Config, published: Counts, book: Book)
    ensures
      var sum := EMPTY_BOOK.(delivery := NO_DELIVERY.(published := published)).Plus(book);
      && SampleCount(sum) == SampleCount(book) && sum.delivery.Settled() == book.delivery.Settled()
      && SumCounts(sum.delivery.delivered) == SumCounts(book.delivery.delivered)
      && SettledWithEvents(cfg, sum.delivery) == SettledWithEvents(cfg, book.delivery)
  {
  }

  lemma EventAccounted(cfg: Config, before: Option<Batch>, e: PendingEvent)
    requires before.Some? ==> Consistent(cfg, before.value)
    ensures var r := React(cfg, before, Event(e)); Accounted(cfg, before, r.pending, r.book, 0)
  {
    hide Advance, SumCounts, Delivery.Settled, SettledWithEvents, PerKind.At, PerKind.Put;
    var b := before.GetOr(NEW_BATCH);
    NothingSettled(cfg);
    OneMore(b.byKind, e.kind);
    AdvanceSamples(cfg, WithEvent(b, e));
  }

  lemma MarkerAccounted(cfg: Config, before: Option<Batch>, timestamp: int, observed: int)
    requires before.Some? ==> Consistent(cfg, before.value)
    ensures
      var a := Marker(timestamp, observed);
      var r := React(cfg, before, a);
      Accounted(cfg, before, r.pending, r.book, FirstOne(before, a))
  {
    hide Advance, SumCounts, Delivery.Settled, SettledWithEvents, Delivery.Plus, Book.Plus;
    var b := before.GetOr(NEW_BATCH);
    NothingSettled(cfg);
    var c := WithMarker(b, timestamp, observed);
    AdvanceSamples(cfg, c);
    PublishedOnly(cfg, cfg.expected, Advance(cfg, c).book);
    PublishedOnly(cfg, NONE_OF_EACH, Advance(cfg, c).book);
  }

  lemma FinishAccounted(cfg: Config, b: Batch)
    requires Consistent(cfg, b)
    ensures Accounted(cfg, Some(b), None, FinishBook(cfg, b), 0)
  {
    hide FinishBook, Settlement, SumCounts, Delivery.Settled, SettledWithEvents;
    NothingSettled(cfg);
    NothingUncorrelated(cfg, b.received);
    FinishDelivers(cfg, b);
    FinishSamples(cfg, b);
    SettlementSamples(cfg, b);
  }

  lemma NothingUncorrelated(cfg: Config, n: nat)
    ensures
      var d := NO_DELIVERY.(uncorrelated := n);
      SettledWithEvents(cfg, d) == 0 && d.Settled() == 0 && SumCounts(d.delivered) == 0
  {
  }

  // Whole states.

  /** First markers taken in so far, and what restarts dropped: marked batches and the events they had received. */
  datatype Intake = Intake(markers: nat, droppedMarked: nat, droppedEvents: nat)

  ghost predicate AllAccounted(cfg: Config, core: Core, i: Intake) {
    var d := core.total.delivery;
    && d.Settled() + Marked(core.pending) + i.droppedMarked == i.markers
    && TotalSamples(core.total)
       == SumCounts(d.delivered) + SettledWithEvents(cfg, d) + HeldMarked(core.pending) + i.droppedEvents
  }

  lemma StoreHeld(core: Core, s: int, after: Option<Batch>)
    ensures HeldMarked(core.Store(s, after).pending) + MarkedReceivedOne(core.Lookup(s))
         == HeldMarked(core.pending) + MarkedReceivedOne(after)
  {
    hide SumMap;
    var m := core.pending;
    if after.Some? {
      SumMapPut(m, MarkedReceived, s, after.value);
    } else if s in m {
      SumMapRemove(m, MarkedReceived, s);
    } else {
      assert m - {s} == m;
    }
  }

  lemma PlusSettled(cfg: Config, a: Delivery, b: Delivery)
    ensures SettledWithEvents(cfg, a.Plus(b)) == SettledWithEvents(cfg, a) + SettledWithEvents(cfg, b)
  {
  }

  lemma StepAccounted(cfg: Config, core: Core, i: Intake, s: int, after: Option<Batch>, book: Book, first: nat)
    requires AllAccounted(cfg, core, i) && Accounted(cfg, core.Lookup(s), after, book, first)
    ensures AllAccounted(cfg, core.Store(s, after).Record(book), i.(markers := i.markers + first))
  {
    hide Delivery.Plus, SumCounts, Digest, Marked, HeldMarked, Delivery.Settled, SettledWithEvents, TotalSamples,
      SampleCount, MarkedOne, MarkedReceivedOne;
    DigestDelivery(book);
    PlusSums(core.total.delivery, book.delivery);
    PlusSettled(cfg, core.total.delivery, book.delivery);
    StoreSums(core, s, after);
    StoreHeld(core, s, after);
    RecordSamples(core.Store(s, after), book);
  }

  function FirstIn(core: Core, item: Item): nat {
    if core.Accepts(item.sequence) then FirstOne(core.Lookup(item.sequence), item.arrival) else 0
  }

  lemma ProcessAccounted(cfg: Config, core: Core, i: Intake, item: Item)
    requires AllAccounted(cfg, core, i) && AllConsistent(cfg, core.pending)
    ensures AllAccounted(cfg, Process(cfg, core, item), i.(markers := i.markers + FirstIn(core, item)))
  {
    hide AllAccounted, Accounted, Consistent, React, Core.Record, FirstOne;
    if core.Accepts(item.sequence) {
      var before := core.Lookup(item.sequence);
      match item.arrival {
        case Event(e) => EventAccounted(cfg, before, e);
        case Marker(timestamp, observed) => MarkerAccounted(cfg, before, timestamp, observed);
      }
      var r := React(cfg, before, item.arrival);
      assert item.arrival.Event? ==> FirstOne(before, item.arrival) == 0 by { EventNotFirst(before, item.arrival); }
      StepAccounted(cfg, core, i, item.sequence, r.pending, r.book, FirstOne(before, item.arrival));
    }
  }

  lemma EventNotFirst(before: Option<Batch>, a: Arrival)
    ensures a.Event? ==> FirstOne(before, a) == 0
  {
  }

  /** The items that are a sequence's first marker. */
  ghost function FirstMarkersIn(cfg: Config, core: Core, items: seq<Item>): nat {
    if items == [] then 0 else
    var front := items[..|items| - 1];
    FirstMarkersIn(cfg, core, front) + FirstIn(ProcessAll(cfg, core, front), items[|items| - 1])
  }

  lemma {:induction false} ProcessAllAccounted(cfg: Config, core: Core, i: Intake, a: Account, items: seq<Item>)
    requires AllAccounted(cfg, core, i) && Lawful(cfg, core, a)
    ensures AllAccounted(cfg, ProcessAll(cfg, core, items), i.(markers := i.markers + FirstMarkersIn(cfg, core, items)))
  {
    hide AllAccounted, Process, FirstIn, KindLaw, ReceptionLaw, MissingLaw, AllConsistent;
    if items != [] {
      var front := items[..|items| - 1];
      ProcessAllAccounted(cfg, core, i, a, front);
      ProcessAllLawful(cfg, core, a, front);
      ProcessAccounted(cfg, ProcessAll(cfg, core, front), i.(markers := i.markers + FirstMarkersIn(cfg, core, front)),
                       items[|items| - 1]);
    }
  }

  lemma FinishedAccounted(cfg: Config, core: Core, i: Intake, s: int)
    requires AllAccounted(cfg, core, i) && AllConsistent(cfg, core.pending) && s in core.pending
    ensures AllAccounted(cfg, FinishAt(cfg, core, s), i)
  {
    hide AllAccounted, Accounted, Consistent, FinishBook, Core.Record;
    FinishAccounted(cfg, core.pending[s]);
    StepAccounted(cfg, core, i, s, None, FinishBook(cfg, core.pending[s]), 0);
  }

  lemma {:induction false} SweepAccounted(cfg: Config, core: Core, i: Intake, keys: seq<int>, cutoff: int, all: bool)
    requires AllAccounted(cfg, core, i) && AllConsistent(cfg, core.pending)
    ensures AllAccounted(cfg, Sweep(cfg, core, keys, cutoff, all), i)
    decreases |keys|
  {
    hide AllAccounted, FinishAt, Consistent;
    if keys != [] {
      var k := keys[0];
      if k in core.pending && Expired(core.pending[k], cutoff, all) {
        FinishedAccounted(cfg, core, i, k);
        FinishPending(cfg, core, k);
        SweepAccounted(cfg, FinishAt(cfg, core, k), i, keys[1..], cutoff, all);
      } else {
        SweepAccounted(cfg, core, i, keys[1..], cutoff, all);
      }
    }
  }

  // Runs.

  ghost function IntakeStep(cfg: Config, st: State, i: Intake, step: Step): Intake {
    match step
    case Notify(c) =>
      if st.measuring then i.(markers := i.markers + FirstMarkersIn(cfg, st.core, ItemsOf(cfg, c.events, c.observed))) else i
    case BeginMeasurement =>
      i.(droppedMarked := i.droppedMarked + Marked(st.core.pending),
         droppedEvents := i.droppedEvents + HeldMarked(st.core.pending))
    case _ => i
  }

  ghost function IntakeOf(cfg: Config, steps: seq<Step>): Intake {
    if steps == [] then Intake(0, 0, 0) else
    var front := steps[..|steps| - 1];
    IntakeStep(cfg, Run(cfg, front), IntakeOf(cfg, front), steps[|steps| - 1])
  }

  lemma NothingHeld()
    ensures Marked(map[]) == 0 && HeldMarked(map[]) == 0
  {
  }

  lemma SameAccounted(cfg: Config, core: Core, after: Core, i: Intake)
    requires AllAccounted(cfg, core, i) && after.total == core.total && after.pending == core.pending
    ensures AllAccounted(cfg, after, i)
  {
  }

  lemma RestartAccounted(cfg: Config, core: Core, after: Core, i: Intake)
    requires AllAccounted(cfg, core, i) && after.total == core.total && after.pending == map[]
    ensures AllAccounted(cfg, after, i.(droppedMarked := i.droppedMarked + Marked(core.pending),
                                        droppedEvents := i.droppedEvents + HeldMarked(core.pending)))
  {
    hide Marked, HeldMarked, SumCounts, TotalSamples, SettledWithEvents, Delivery.Settled;
    NothingHeld();
  }

  lemma NextAccounted(cfg: Config, st: State, i: Intake, a: Account, step: Step)
    requires Reachable(cfg, st, a) && AllAccounted(cfg, st.core, i)
    ensures AllAccounted(cfg, Next(cfg, st, step).core, IntakeStep(cfg, st, i, step))
  {
    hide AllAccounted, ProcessAll, Sweep, ItemsOf, ObserveTimes, SequencesIn, ProfilesIn, Marked, HeldMarked, Ascending,
      KindLaw, ReceptionLaw, MissingLaw, AllConsistent;
    var after := Next(cfg, st, step).core;
    match step
    case Notify(c) =>
      if st.measuring {
        ProcessAllAccounted(cfg, st.core, i, a, ItemsOf(cfg, c.events, c.observed));
      } else {
        SameAccounted(cfg, st.core, after, i);
      }
    case BeginMeasurement => RestartAccounted(cfg, st.core, after, i);
    case EndMeasurement => SameAccounted(cfg, st.core, after, i);
    case TakeWindow(now, expireAll) =>
      SweepAccounted(cfg, st.core, i, Ascending(st.core.pending.Keys), now - cfg.timeoutMs * NANOS_PER_MILLI, expireAll);
      SameAccounted(cfg, Swept(cfg, st, now, expireAll).core, after, i);
  }

  lemma InitialAccounted(cfg: Config)
    ensures AllAccounted(cfg, INITIAL.core, Intake(0, 0, 0))
  {
    hide Marked, HeldMarked, SumCounts, SettledWithEvents, Delivery.Settled;
    NothingHeld();
    NothingSettled(cfg);
  }

  lemma {:induction false} RunAccounted(cfg: Config, steps: seq<Step>)
    ensures AllAccounted(cfg, Run(cfg, steps).core, IntakeOf(cfg, steps))
  {
    hide AllAccounted, Reachable, Next, IntakeStep;
    if steps == [] {
      InitialAccounted(cfg);
    } else {
      var front := steps[..|steps| - 1];
      RunAccounted(cfg, front);
      RunReachable(cfg, front);
      NextAccounted(cfg, Run(cfg, front), IntakeOf(cfg, front), AccountOf(cfg, front), steps[|steps| - 1]);
    }
  }

  lemma {:induction false} SameDrops(cfg: Config, steps: seq<Step>)
    ensures IntakeOf(cfg, steps).droppedMarked == AccountOf(cfg, steps).droppedMarked
  {
    hide Next, Marked, Held, HeldMarked, Unmarked, AcceptedIn, FirstMarkersIn, Swept, ItemsOf;
    if steps != [] {
      SameDrops(cfg, steps[..|steps| - 1]);
    }
  }

  /**
   * In every run each first marker is a publication that was settled as full, partial or empty, is pending, or was
   * dropped by a restart; and each of them announced the expected composition.
   */
  lemma FirstMarkersSettle(cfg: Config, steps: seq<Step>, k: MarketKind)
    ensures
      var core, markers := Run(cfg, steps).core, IntakeOf(cfg, steps).markers;
      var d := core.total.delivery;
      && d.full + d.partial + d.empty + Marked(core.pending) + AccountOf(cfg, steps).droppedMarked == markers
      && d.published.At(k) == cfg.expected.At(k) * markers
  {
    RunAccounted(cfg, steps);
    SameDrops(cfg, steps);
    CollectorRuns.Conservation(cfg, steps, k);
    hide PerKind.At, SumCounts, Marked, HeldMarked, Run, AccountOf, IntakeOf, TotalSamples, SettledWithEvents;
  }

  /**
   * In every run samples and clock anomalies are as many as the events delivered, the events that pending marked batches
   * have received or restarts dropped with such batches, and the settled publications that received any event.
   */
  lemma SamplesAddUp(cfg: Config, steps: seq<Step>)
    ensures
      var core := Run(cfg, steps).core;
      TotalSamples(core.total)
      == SumCounts(core.total.delivery.delivered) + HeldMarked(core.pending) + IntakeOf(cfg, steps).droppedEvents
         + SettledWithEvents(cfg, core.total.delivery)
  {
    RunAccounted(cfg, steps);
    hide SumCounts, Marked, HeldMarked, Run, IntakeOf, TotalSamples, SettledWithEvents;
  }
}
