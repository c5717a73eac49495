/** Server and collector together: what a lossless network makes of N publications. */
module EndToEnd {
  import opened Common
  import opened Events
  import opened Markers
  import opened TaskPattern
  import opened GeneratorModel
  import opened GeneratorRuns
  import opened GeneratorLaws
  import opened PublicationLaws
  import opened ServerStreams
  import opened WireWorth
  import Publication
  import C = CollectorModel
  import O = CollectorOrder
  import M = CollectorTheorems
  import L = CollectorLaws
  import Ordered
  import Tallies

  // One publication.

  /** The composition that the client expects of every publication of a pattern. */
  function Expected(p: Pattern): Counts {
    PerKind(p.Quantity(Quote).GetOr(0), p.Quantity(Trade).GetOr(0),
            p.Quantity(TradeEth).GetOr(0), p.Quantity(Summary).GetOr(0))
  }

  function SlotCounts(slots: seq<Slot>): Counts {
    PerKind(CountKind(slots, Quote), CountKind(slots, Trade), CountKind(slots, TradeEth), CountKind(slots, Summary))
  }

  predicate Correlates(cfg: C.Config, stamp: Stamp) {
    0 < stamp.sequence < cfg.maxSequence && 0 < stamp.nowNanos <= Markers.INT64_MAX
  }

  /** The client reads back the kind, symbol, sequence and source time that the server wrote, sequence permitting. */
  lemma DescribesPublished(kind: EventKind, symbol: string, stamp: Stamp, maxSequence: int)
    ensures
      var sourceMs := if kind.Trade? || kind.TradeEth? then Some(stamp.nowNanos / NANOS_PER_MILLI) else None;
      Describe(EventFor(kind, symbol, stamp), maxSequence)
      == if kind.TimeAndSale? || (kind.Quote? && !(0 < stamp.sequence < maxSequence)) then None
         else Some(Description(kind, symbol, stamp.sequence, sourceMs))
  {
    EncodedSequenceRoundTrip(stamp.sequence, maxSequence);
  }

  lemma EventWorth(cfg: C.Config, slot: Slot, stamp: Stamp, s: int)
    requires Correlates(cfg, stamp)
    ensures WorthOf(cfg, EventFor(slot.kind, slot.symbol, stamp), s)
         == if slot.kind.TimeAndSale? || s != stamp.sequence then NO_WORTH else Worth(NONE_OF_EACH.Put(slot.kind, 1), 0)
  {
    hide MarkerTimestamp;
    EncodedSequenceRoundTrip(stamp.sequence, cfg.maxSequence);
  }

  lemma MarkerWorth(cfg: C.Config, stamp: Stamp, s: int)
    requires Correlates(cfg, stamp)
    ensures WorthOf(cfg, MarkerOf(stamp), s) == Here(Worth(NONE_OF_EACH, 1), stamp, s)
  {
    hide MarkerTimestamp, MarkerText;
    MarkerRoundTrip(stamp.nowNanos);
  }

  lemma CountStep(slots: seq<Slot>)
    requires slots != []
    ensures
      var front, kind := slots[..|slots| - 1], slots[|slots| - 1].kind;
      SlotCounts(slots) == if kind.TimeAndSale? then SlotCounts(front)
                           else PlusCounts(SlotCounts(front), NONE_OF_EACH.Put(kind, 1))
  {
  }

  function Here(w: Worth, stamp: Stamp, s: int): Worth {
    if s == stamp.sequence then w else NO_WORTH
  }

  lemma HerePlus(a: Worth, b: Worth, stamp: Stamp, s: int)
    ensures Here(a, stamp, s).Plus(Here(b, stamp, s)) == Here(a.Plus(b), stamp, s)
    ensures a.Plus(NO_WORTH) == a
  {
    hide Worth.Plus;
    WorthPlus(a, NO_WORTH, NO_WORTH);
    WorthPlus(NO_WORTH, NO_WORTH, NO_WORTH);
  }

  lemma SlotWorth(cfg: C.Config, slot: Slot, stamp: Stamp, subscribed: set<string>, s: int)
    requires Correlates(cfg, stamp)
    ensures
      var counts := if slot.kind.TimeAndSale? then NONE_OF_EACH else NONE_OF_EACH.Put(slot.kind, 1);
      WorthAll(cfg, SlotEvents(slot, stamp, subscribed), s) == Here(Worth(counts, 0), stamp, s)
  {
    hide WorthAll, WorthOf, EventFor;
    NoEvents(cfg, s);
    WorthSingle(cfg, EventFor(slot.kind, slot.symbol, stamp), s);
    EventWorth(cfg, slot, stamp, s);
  }

  /** A publication's events are worth its slots, all at the publication's own sequence. */
  lemma {:induction false} EmittedWorth(cfg: C.Config, slots: seq<Slot>, stamp: Stamp, subscribed: set<string>, s: int)
    requires Correlates(cfg, stamp)
    ensures WorthAll(cfg, Emitted(slots, stamp, subscribed), s) == Here(Worth(SlotCounts(slots), 0), stamp, s)
  {
    hide WorthAll, WorthOf, EventFor, SlotCounts, Here, Correlates;
    if slots == [] {
      NoEvents(cfg, s);
      NoSlots();
      HereNothing(stamp, s);
    } else {
      var front, last := slots[..|slots| - 1], slots[|slots| - 1];
      EmittedWorth(cfg, front, stamp, subscribed, s);
      WorthAppend(cfg, Emitted(front, stamp, subscribed), SlotEvents(last, stamp, subscribed), s);
      SlotWorth(cfg, last, stamp, subscribed, s);
      CountStep(slots);
      var counts := if last.kind.TimeAndSale? then NONE_OF_EACH else NONE_OF_EACH.Put(last.kind, 1);
      HerePlus(Worth(SlotCounts(front), 0), Worth(counts, 0), stamp, s);
    }
  }

  lemma HereNothing(stamp: Stamp, s: int)
    ensures Here(NO_WORTH, stamp, s) == NO_WORTH
  {
  }

  lemma NoSlots()
    ensures SlotCounts([]) == NONE_OF_EACH
  {
  }

  predicate SameLimits(config: Config, cfg: C.Config) {
    config.maxSequence == cfg.maxSequence
  }

  /** One publication is worth exactly the expected composition and one marker, at its sequence and nowhere else. */
  lemma PublicationWorth(config: Config, cfg: C.Config, a: Active, subscribed: set<string>, nowNanos: nat, s: int)
    requires Correlates(cfg, NextStamp(config, a, nowNanos))
    ensures WorthAll(cfg, PublicationEvents(config, a, subscribed, nowNanos), s)
         == Here(Worth(Expected(a.task.pattern), 1), NextStamp(config, a, nowNanos), s)
  {
    hide FillSlots, PublicationSlots, Emitted, WorthAll, WorthOf, CountKind, NextStamp, Pattern.Quantity, MarkerOf,
      Worth.Plus, Correlates, Here;
    var slots, stamp := PublicationSlots(a.task, a.publications, config.random), NextStamp(config, a, nowNanos);
    FilledEvents(Draft([], a.logs, a.routes), slots, stamp, subscribed);
    assert [] + Emitted(slots, stamp, subscribed) == Emitted(slots, stamp, subscribed);
    EmittedWorth(cfg, slots, stamp, subscribed, s);
    SlotsExpected(a.task, a.publications, config.random);
    WorthAppend(cfg, Emitted(slots, stamp, subscribed), [MarkerOf(stamp)], s);
    WorthSingle(cfg, MarkerOf(stamp), s);
    MarkerWorth(cfg, stamp, s);
    HerePlus(Worth(SlotCounts(slots), 0), Worth(NONE_OF_EACH, 1), stamp, s);
    WithMarker(SlotCounts(slots));
  }

  lemma WithMarker(counts: Counts)
    ensures Worth(counts, 0).Plus(Worth(NONE_OF_EACH, 1)) == Worth(counts, 1)
  {
  }

  lemma SlotsExpected(t: Task, publications: nat, random: Publication.Random)
    ensures SlotCounts(PublicationSlots(t, publications, random)) == Expected(t.pattern)
  {
    hide PublicationSlots, CountKind, Pattern.Quantity;
    Composition(t, publications, random, Quote);
    Composition(t, publications, random, Trade);
    Composition(t, publications, random, TradeEth);
    Composition(t, publications, random, Summary);
  }

  // Other wire events.

  lemma UncorrelatedKinds(cfg: C.Config, e: WireEvent, s: int)
    requires e.TimeAndSaleEvent? || e.ProfileEvent?
    ensures WorthOf(cfg, e, s) == NO_WORTH
  {
  }

  lemma {:induction false} IrrelevantWorth(cfg: C.Config, events: seq<WireEvent>, s: int)
    requires Irrelevant(events)
    ensures WorthAll(cfg, events, s) == NO_WORTH
  {
    hide WorthOf, Worth.Plus;
    if events != [] {
      IrrelevantWorth(cfg, events[..|events| - 1], s);
      UncorrelatedKinds(cfg, events[|events| - 1], s);
      WorthPlus(NO_WORTH, NO_WORTH, NO_WORTH);
    }
  }

  // Runs.

  /** The active task is not stopped, the wall clock is sane, and publication numbers stay below the sequence limit. */
  predicate Undisturbed(config: Config, s: Server, step: Step) {
    && Unstopped(s, step)
    && (Publishes(s, step) ==>
          && 0 < step.clock.nowNanos <= Markers.INT64_MAX
          && s.active.value.publications + 1 < config.maxSequence
          && s.active.value.publications + 1 < TICK_MODULUS)
  }

  ghost predicate UndisturbedRun(config: Config, s: Server, steps: seq<Step>) {
    if steps == [] then true else
    var front := steps[..|steps| - 1];
    UndisturbedRun(config, s, front) && Undisturbed(config, Run(config, s, front), steps[|steps| - 1])
  }

  /** A task is active, none is pending, and the books are in order. */
  ghost predicate Busy(config: Config, s: Server, t: Task) {
    Serving(s, t) && Counted(s.active.value)
  }

  lemma CommandBusy(config: Config, s: Server, step: Step, t: Task)
    requires Busy(config, s, t) && Undisturbed(config, s, step) && !Publishes(s, step)
    ensures Busy(config, Next(config, s, step), t)
    ensures Next(config, s, step).active.value.publications == s.active.value.publications
    ensures Irrelevant(Appended(config, s, step))
  {
    hide Next, Counted, Appended;
    CommandServing(config, s, step, t);
  }

  lemma PublishBusy(config: Config, s: Server, step: Step, t: Task)
    requires Busy(config, s, t) && Undisturbed(config, s, step) && Publishes(s, step)
    ensures Busy(config, Next(config, s, step), t)
    ensures Next(config, s, step).active.value.publications == s.active.value.publications + 1
    ensures NextStamp(config, s.active.value, step.clock.nowNanos).sequence == s.active.value.publications + 1
    ensures NextStamp(config, s.active.value, step.clock.nowNanos).nowNanos == step.clock.nowNanos
  {
    hide Published, PublicationEvents, SkippedDeadlines, Counted, LogsRise;
    var a := s.active.value;
    PublishedFields(config, a, s.subscribed.timeAndSale, step.clock.nowNanos);
    PublishedCounted(config, a, s.subscribed.timeAndSale, step.clock.nowNanos);
    SequenceIsCount(config, a, step.clock.nowNanos);
    CountedSkipped(Published(config, a, s.subscribed.timeAndSale, step.clock.nowNanos),
      a.skipped + SkippedDeadlines(s.nextTick + PeriodNanos(a.task), PeriodNanos(a.task), step.clock.after));
  }

  lemma CountedSkipped(a: Active, skipped: nat)
    requires Counted(a)
    ensures Counted(a.(skipped := skipped))
  {
  }

  /** The publications of a run are exactly its sequences, each worth one complete publication. */
  lemma {:induction false} SentWorth(config: Config, cfg: C.Config, s: Server, t: Task, steps: seq<Step>, x: int)
    requires Busy(config, s, t) && UndisturbedRun(config, s, steps) && SameLimits(config, cfg)
    ensures
      var after := Run(config, s, steps);
      && Busy(config, after, t) && s.active.value.publications <= after.active.value.publications
      && WorthAll(cfg, Sent(config, s, steps), x)
         == if s.active.value.publications < x <= after.active.value.publications
            then Worth(Expected(t.pattern), 1) else NO_WORTH
  {
    hide Next, Undisturbed, Publishes, WorthAll, Expected, Appended, Worth.Plus, Counted;
    if steps == [] {
      NoEvents(cfg, x);
    } else {
      var front, last := steps[..|steps| - 1], steps[|steps| - 1];
      SentWorth(config, cfg, s, t, front, x);
      StepWorth(config, cfg, Run(config, s, front), t, last, x);
      WorthAppend(cfg, Sent(config, s, front), Appended(config, Run(config, s, front), last), x);
      WorthPlus(Worth(Expected(t.pattern), 1), NO_WORTH, NO_WORTH);
      WorthPlus(NO_WORTH, NO_WORTH, NO_WORTH);
    }
  }

  lemma StepWorth(config: Config, cfg: C.Config, s: Server, t: Task, step: Step, x: int)
    requires Busy(config, s, t) && Undisturbed(config, s, step) && SameLimits(config, cfg)
    ensures Busy(config, s, t) && Busy(config, Next(config, s, step), t)
    ensures
      var before, after := s.active.value.publications, Next(config, s, step).active.value.publications;
      && before <= after <= before + 1
      && WorthAll(cfg, Appended(config, s, step), x)
         == if before < x <= after then Worth(Expected(t.pattern), 1) else NO_WORTH
  {
    hide Next, WorthAll, Expected, PublicationEvents, NextStamp, Counted, PeriodNanos;
    if Publishes(s, step) {
      PublishBusy(config, s, step, t);
      PublicationWorth(config, cfg, s.active.value, s.subscribed.timeAndSale, step.clock.nowNanos, x);
    } else {
      CommandBusy(config, s, step, t);
      IrrelevantWorth(cfg, Appended(config, s, step), x);
    }
  }

  // The client's measurement.

  function Span(from: nat, to: nat): (r: set<int>)
    ensures forall x :: x in r <==> from < x <= to
    ensures from <= to ==> |r| == to - from
  {
    if to <= from then {} else Span(from, to - 1) + {to}
  }

  /** The events that take part in correlation. */
  function Correlated(events: seq<WireEvent>): seq<WireEvent> {
    if events == [] then [] else
    var last := events[|events| - 1];
    Correlated(events[..|events| - 1]) + if last.TimeAndSaleEvent? || last.ProfileEvent? then [] else [last]
  }

  lemma {:induction false} CorrelatedWorth(cfg: C.Config, events: seq<WireEvent>, s: int)
    ensures WorthAll(cfg, Correlated(events), s) == WorthAll(cfg, events, s)
  {
    hide WorthOf, Worth.Plus;
    if events != [] {
      var front, last := events[..|events| - 1], events[|events| - 1];
      CorrelatedWorth(cfg, front, s);
      if last.TimeAndSaleEvent? || last.ProfileEvent? {
        UncorrelatedKinds(cfg, last, s);
        WorthPlus(WorthAll(cfg, front, s), NO_WORTH, NO_WORTH);
        assert Correlated(front) + [] == Correlated(front);
      } else {
        assert (Correlated(front) + [last])[..|Correlated(front)|] == Correlated(front);
      }
    }
  }

  /** Every marker and market event that was sent is there once, in any order. */
  ghost predicate Lossless(heard: seq<WireEvent>, sent: seq<WireEvent>) {
    multiset(Correlated(heard)) == multiset(Correlated(sent))
  }

  function Publications(s: Server): nat {
    if s.active.Some? then s.active.value.publications else 0
  }

  /** The sequences of a run's publications. */
  function Numbers(config: Config, s: Server, steps: seq<Step>): set<int> {
    Span(Publications(s), Publications(Run(config, s, steps)))
  }

  lemma {:induction false} UnrevealedWorth(cfg: C.Config, events: seq<WireEvent>, s: int)
    requires s !in C.SequencesIn(cfg, events)
    ensures WorthAll(cfg, events, s) == NO_WORTH
  {
    hide Worth.Plus, Describe, MarkerTimestamp;
    if events != [] {
      var front, last := events[..|events| - 1], events[|events| - 1];
      assert last in events && forall e :: e in front ==> e in events;
      UnrevealedWorth(cfg, front, s);
      WorthPlus(NO_WORTH, NO_WORTH, NO_WORTH);
    }
  }

  /** What a sequence that was not revealed earlier is worth to the measurement. */
  lemma HeardWorth(config: Config, cfg: C.Config, s: Server, t: Task, steps: seq<Step>, earlier: seq<WireEvent>,
                   callbacks: seq<C.Step>, x: int)
    requires Busy(config, s, t) && UndisturbedRun(config, s, steps) && SameLimits(config, cfg)
    requires Lossless(earlier + Heard(callbacks), Sent(config, s, steps)) && x !in C.SequencesIn(cfg, earlier)
    ensures Publications(s) <= Publications(Run(config, s, steps))
    ensures ViewWorth(O.View(M.Delivered(cfg, callbacks), x))
         == if x in Numbers(config, s, steps) then Worth(Expected(t.pattern), 1) else NO_WORTH
  {
    hide Run, Sent, WorthAll, Correlated, Expected, M.Delivered, O.View, Heard, UndisturbedRun, ViewWorth, Worth.Plus,
      C.SequencesIn;
    var heard := Heard(callbacks);
    SentWorth(config, cfg, s, t, steps, x);
    WorthPermute(cfg, Correlated(earlier + heard), Correlated(Sent(config, s, steps)), x);
    CorrelatedWorth(cfg, earlier + heard, x);
    CorrelatedWorth(cfg, Sent(config, s, steps), x);
    WorthAppend(cfg, earlier, heard, x);
    UnrevealedWorth(cfg, earlier, x);
    WorthPlus(WorthAll(cfg, heard, x), NO_WORTH, NO_WORTH);
    DeliveredWorth(cfg, callbacks, x);
  }

  lemma HeardViews(config: Config, cfg: C.Config, s: Server, t: Task, steps: seq<Step>, earlier: seq<WireEvent>,
                   callbacks: seq<C.Step>, excluded: set<int>)
    requires Busy(config, s, t) && UndisturbedRun(config, s, steps) && SameLimits(config, cfg)
    requires cfg.expected == Expected(t.pattern) && C.SequencesIn(cfg, earlier) <= excluded
    requires Lossless(earlier + Heard(callbacks), Sent(config, s, steps))
    ensures AllComplete(cfg, callbacks, Numbers(config, s, steps) - excluded, excluded)
  {
    hide Run, Sent, Expected, M.Delivered, M.Complete, O.View, O.Sequences, Heard, UndisturbedRun, ViewWorth, Lossless,
      Numbers, C.SequencesIn, Busy, SameLimits;
    var items, numbers := M.Delivered(cfg, callbacks), Numbers(config, s, steps);
    forall x | x !in excluded
      ensures x in O.Sequences(items) <==> x in numbers
      ensures x in numbers - excluded ==> M.Complete(cfg, O.View(items, x))
    {
      HeardWorth(config, cfg, s, t, steps, earlier, callbacks, x);
      ViewStatus(cfg, items, x);
    }
    assert forall x :: x in O.Sequences(items) - excluded <==> x in numbers - excluded;
  }

  /** The callbacks deliver one complete publication for each of these sequences; all other arrivals are excluded. */
  ghost predicate AllComplete(cfg: C.Config, callbacks: seq<C.Step>, published: set<int>, excluded: set<int>) {
    var items := M.Delivered(cfg, callbacks);
    O.Sequences(items) - excluded == published && forall x :: x in published ==> M.Complete(cfg, O.View(items, x))
  }

  lemma CompleteMeasurement(cfg: C.Config, st: C.State, callbacks: seq<C.Step>, published: set<int>, end: int)
    requires M.Started(st) && M.Calm(cfg, st, callbacks)
    requires AllComplete(cfg, callbacks, published, st.core.excluded)
    ensures
      var tally := Tallies.TallyOf(M.Finished(cfg, M.RunFrom(cfg, st, callbacks), end).core.total);
      && tally.delivery == st.core.total.delivery.Plus(M.AllFull(cfg, |published|))
      && tally.missing == st.core.total.missing
  {
    hide M.Delivered, M.Finished, M.RunFrom, M.Calm, M.FinalTally, M.AllFull, M.Complete, O.View, O.Sequences,
      Tallies.TallyOf;
    M.MeasurementTally(cfg, st, callbacks, end);
    M.LosslessDelivery(cfg, st.core, M.Delivered(cfg, callbacks), published);
  }

  lemma ViewStatus(cfg: C.Config, items: seq<C.Item>, x: int)
    ensures ViewWorth(O.View(items, x)) == Worth(cfg.expected, 1) ==>
              M.Complete(cfg, O.View(items, x)) && x in O.Sequences(items)
    ensures ViewWorth(O.View(items, x)) == NO_WORTH ==> x !in O.Sequences(items)
  {
    WorthlessView(O.View(items, x));
    O.ViewEmpty(items, x);
    hide O.View, O.Sequences;
  }

  /** A server reached a state with an active task, and ran on from there. */
  ghost predicate ServerSide(config: Config, now: int, before: seq<Step>, s: Server, steps: seq<Step>) {
    s == Run(config, Initial(now), before) && s.active.Some? && UndisturbedRun(config, s, steps)
  }

  /**
   * A client that expects that task's composition has just begun to measure. What it hears from then on and what was
   * sent earlier make up the run; the sequences of the earlier events are excluded.
   */
  ghost predicate ClientSide(config: Config, s: Server, steps: seq<Step>, cfg: C.Config, st: C.State,
                             earlier: seq<WireEvent>, callbacks: seq<C.Step>)
  {
    && SameLimits(config, cfg) && s.active.Some? && cfg.expected == Expected(s.active.value.task.pattern)
    && M.Started(st) && M.Calm(cfg, st, callbacks)
    && C.SequencesIn(cfg, earlier) <= st.core.excluded
    && Lossless(earlier + Heard(callbacks), WireSince(s, Run(config, s, steps)))
  }

  /**
   * Any undisturbed run of an active task, heard losslessly by a client that expects its composition, is recorded as
   * exactly as many full publications as there are sequences not excluded when it began to measure: nothing short, in
   * excess, partial, empty, uncorrelated or missing.
   */
  lemma LosslessRun(config: Config, now: int, before: seq<Step>, s: Server, steps: seq<Step>,
                    cfg: C.Config, st: C.State, earlier: seq<WireEvent>, callbacks: seq<C.Step>, end: int)
    requires ServerSide(config, now, before, s, steps)
    requires ClientSide(config, s, steps, cfg, st, earlier, callbacks)
    ensures
      var n := |Numbers(config, s, steps) - st.core.excluded|;
      var tally := Tallies.TallyOf(M.Finished(cfg, M.RunFrom(cfg, st, callbacks), end).core.total);
      && tally.delivery == st.core.total.delivery.Plus(M.AllFull(cfg, n))
      && tally.missing == st.core.total.missing
  {
    hide Run, UndisturbedRun, SameLimits, Expected, M.Started, M.Calm, Lossless, Sent, WireSince, Numbers, Publications,
      Tallies.TallyOf, M.Finished, M.RunFrom, M.AllFull, Busy, AllComplete, Heard, C.SequencesIn;
    ReachableBusy(config, now, before);
    SentIsWire(config, s, steps);
    HeardViews(config, cfg, s, s.active.value.task, steps, earlier, callbacks, st.core.excluded);
    CompleteMeasurement(cfg, st, callbacks, Numbers(config, s, steps) - st.core.excluded, end);
  }

  /** In particular all of the run's publications when none was excluded. */
  lemma WholeRun(config: Config, now: int, before: seq<Step>, s: Server, steps: seq<Step>,
                 cfg: C.Config, st: C.State, callbacks: seq<C.Step>, end: int)
    requires ServerSide(config, now, before, s, steps)
    requires ClientSide(config, s, steps, cfg, st, [], callbacks) && Numbers(config, s, steps) !! st.core.excluded
    ensures
      var n := Publications(Run(config, s, steps)) - Publications(s);
      var tally := Tallies.TallyOf(M.Finished(cfg, M.RunFrom(cfg, st, callbacks), end).core.total);
      && n >= 0
      && tally.delivery == st.core.total.delivery.Plus(M.AllFull(cfg, n))
      && tally.missing == st.core.total.missing
  {
    hide Run, UndisturbedRun, SameLimits, Expected, M.Started, M.Calm, Lossless, Sent, WireSince, Numbers, Publications,
      Tallies.TallyOf, M.Finished, M.RunFrom, M.AllFull, Busy, AllComplete, Heard, C.SequencesIn, WorthAll;
    LosslessRun(config, now, before, s, steps, cfg, st, [], callbacks, end);
    ReachableBusy(config, now, before);
    PublicationsGrow(config, cfg, s, s.active.value.task, steps);
    NumbersSize(config, s, steps);
    assert Numbers(config, s, steps) - st.core.excluded == Numbers(config, s, steps);
  }

  lemma PublicationsGrow(config: Config, cfg: C.Config, s: Server, t: Task, steps: seq<Step>)
    requires Busy(config, s, t) && UndisturbedRun(config, s, steps) && SameLimits(config, cfg)
    ensures Publications(s) <= Publications(Run(config, s, steps))
  {
    hide Run, UndisturbedRun, WorthAll, Sent, Expected;
    SentWorth(config, cfg, s, t, steps, 0);
  }

  // Beginning to measure in the middle of a run.

  predicate NoBegin(steps: seq<C.Step>) {
    forall i :: 0 <= i < |steps| ==> !steps[i].BeginMeasurement?
  }

  /** Before measurement, what is heard excludes its sequences and nothing else does. */
  lemma {:induction false} EarlyExcludes(cfg: C.Config, st: C.State, early: seq<C.Step>)
    requires !st.measuring && NoBegin(early)
    ensures
      var after := M.RunFrom(cfg, st, early);
      !after.measuring && after.core.excluded == st.core.excluded + C.SequencesIn(cfg, Heard(early))
  {
    hide C.Sweep, C.SequencesIn, C.ProfilesIn;
    if early == [] {
      NothingRevealed(cfg);
    } else {
      var front, step := early[..|early| - 1], early[|early| - 1];
      EarlyExcludes(cfg, st, front);
      EarlyStep(cfg, M.RunFrom(cfg, st, front), step);
      if step.Notify? {
        RevealedAppend(cfg, Heard(front), step.callback.events);
      } else {
        assert Heard(front) + [] == Heard(front);
      }
    }
  }

  lemma EarlyStep(cfg: C.Config, st: C.State, step: C.Step)
    requires !st.measuring && !step.BeginMeasurement?
    ensures !C.Next(cfg, st, step).measuring
    ensures C.Next(cfg, st, step).core.excluded
         == st.core.excluded + if step.Notify? then C.SequencesIn(cfg, step.callback.events) else {}
  {
    hide C.Sweep, C.SequencesIn, C.ProfilesIn;
    if step.TakeWindow? {
      L.SweepKeeps(cfg, st.core, Ordered.Ascending(st.core.pending.Keys),
                   step.now - cfg.timeoutMs * NANOS_PER_MILLI, step.expireAll);
    }
  }

  lemma NothingRevealed(cfg: C.Config)
    ensures C.SequencesIn(cfg, []) == {}
  {
  }

  lemma RevealedAppend(cfg: C.Config, a: seq<WireEvent>, b: seq<WireEvent>)
    ensures C.SequencesIn(cfg, a + b) == C.SequencesIn(cfg, a) + C.SequencesIn(cfg, b)
  {
    hide C.SequenceOf;
  }

  function Measuring(cfg: C.Config, st: C.State, early: seq<C.Step>): C.State {
    C.Next(cfg, M.RunFrom(cfg, st, early), C.BeginMeasurement)
  }

  /**
   * A client hears an undisturbed run losslessly, in any order and chunking, and begins to measure at any point, also
   * within a publication: then exactly the sequences that nothing heard before had revealed are recorded, all of them as
   * full publications.
   */
  lemma MeasuredFromAnywhere(config: Config, now: int, before: seq<Step>, s: Server, steps: seq<Step>,
                             cfg: C.Config, st: C.State, early: seq<C.Step>, callbacks: seq<C.Step>, end: int)
    requires ServerSide(config, now, before, s, steps)
    requires SameLimits(config, cfg) && cfg.expected == Expected(s.active.value.task.pattern)
    requires !st.measuring && NoBegin(early) && M.Calm(cfg, Measuring(cfg, st, early), callbacks)
    requires Lossless(Heard(early) + Heard(callbacks), WireSince(s, Run(config, s, steps)))
    ensures
      var begun := Measuring(cfg, st, early);
      var recorded := Numbers(config, s, steps) - st.core.excluded - C.SequencesIn(cfg, Heard(early));
      var tally := Tallies.TallyOf(M.Finished(cfg, M.RunFrom(cfg, begun, callbacks), end).core.total);
      && tally.delivery == begun.core.total.delivery.Plus(M.AllFull(cfg, |recorded|))
      && tally.missing == begun.core.total.missing
  {
    hide Run, UndisturbedRun, SameLimits, Expected, M.Calm, Lossless, WireSince, Numbers, Tallies.TallyOf, M.Finished,
      M.RunFrom, M.AllFull, Heard, C.SequencesIn, NoBegin, M.Started;
    EarlyExcludes(cfg, st, early);
    M.BeginStarts(cfg, M.RunFrom(cfg, st, early));
    var begun := Measuring(cfg, st, early);
    LosslessRun(config, now, before, s, steps, cfg, begun, Heard(early), callbacks, end);
    assert Numbers(config, s, steps) - begun.core.excluded
        == Numbers(config, s, steps) - st.core.excluded - C.SequencesIn(cfg, Heard(early));
  }

  lemma NumbersSize(config: Config, s: Server, steps: seq<Step>)
    requires Publications(s) <= Publications(Run(config, s, steps))
    ensures |Numbers(config, s, steps)| == Publications(Run(config, s, steps)) - Publications(s)
  {
    hide Run, Publications;
  }

  lemma ReachableBusy(config: Config, now: int, before: seq<Step>)
    requires Run(config, Initial(now), before).active.Some?
    ensures Busy(config, Run(config, Initial(now), before), Run(config, Initial(now), before).active.value.task)
  {
    hide Run, Counted, LogsRise, InOrder;
    RunBooks(config, before, now);
    RunSound(config, before, now);
  }
}
