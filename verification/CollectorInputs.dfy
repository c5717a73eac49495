/** What the collector keeps of the notifications it gets, read off the run's callbacks alone. */
module CollectorInputs {
  import opened Common
  import opened Events
  import opened CollectorModel
  import opened CollectorLaws
  import opened CollectorRuns
  import Markers
  import Ordered
  import SourceTime

  // What reaches correlation.

  /** What an event delivers to a sequence: a marker's time, or an event of a market kind with its symbol. */
  ghost predicate Brings(cfg: Config, e: WireEvent, observed: int, s: int, a: Arrival) {
    match e
    case TextMessage(sequence, text) =>
      sequence == s && a.Marker? && a.observed == observed
      && exists digits :: Markers.IsMarker(text, digits, a.timestamp)
    case QuoteEvent(symbol, bidSize) =>
      0 < s < cfg.maxSequence && bidSize == Finite(s as real) && a == Event(PendingEvent(observed, None, Quote, symbol))
    case TradeEvent(symbol, sequence, timeNanos) =>
      sequence == s && a == Event(PendingEvent(observed, Some(TruncDiv(timeNanos, 1_000_000)), Trade, symbol))
    case TradeEthEvent(symbol, sequence, timeNanos) =>
      sequence == s && a == Event(PendingEvent(observed, Some(TruncDiv(timeNanos, 1_000_000)), TradeEth, symbol))
    case SummaryEvent(symbol, dayId) => dayId == s && a == Event(PendingEvent(observed, None, Summary, symbol))
    case _ => false
  }

  lemma ItemMeans(cfg: Config, e: WireEvent, observed: int, s: int, a: Arrival)
    ensures ItemOf(cfg, e, observed) == Some(Item(s, a)) <==> Brings(cfg, e, observed, s, a)
  {
    hide Markers.MarkerTimestamp, Markers.EncodedSequence, Markers.IsMarker;
    match e
    case TextMessage(_, text) =>
      var timestamp := Markers.MarkerTimestamp(text);
      if timestamp.Some? {
        Markers.MarkerMeans(text, timestamp.value);
      }
      if a.Marker? {
        Markers.MarkerMeans(text, a.timestamp);
      }
    case QuoteEvent(_, bidSize) =>
      var n := Markers.EncodedSequence(bidSize, cfg.maxSequence);
      if n.Some? {
        Markers.EncodedMeans(bidSize, cfg.maxSequence, n.value);
      }
      Markers.EncodedMeans(bidSize, cfg.maxSequence, s);
    case _ =>
  }

  function InOrder(cfg: Config, events: seq<WireEvent>, observed: int): seq<Item> {
    if events == [] then [] else
    var item := ItemOf(cfg, events[0], observed);
    (if item.Some? then [item.value] else []) + InOrder(cfg, events[1..], observed)
  }

  lemma {:induction false} InOrderLast(cfg: Config, events: seq<WireEvent>, observed: int)
    requires events != []
    ensures
      var item := ItemOf(cfg, events[|events| - 1], observed);
      InOrder(cfg, events, observed)
      == InOrder(cfg, events[..|events| - 1], observed) + if item.Some? then [item.value] else []
  {
    hide ItemOf;
    if |events| > 1 {
      InOrderLast(cfg, events[1..], observed);
      assert events[1..][..|events| - 2] == events[..|events| - 1][1..];
    } else {
      assert events[..0] == [] && events[1..] == [];
    }
  }

  /** A callback's events reach correlation in their order. */
  lemma {:induction false} ItemsInOrder(cfg: Config, events: seq<WireEvent>, observed: int)
    ensures ItemsOf(cfg, events, observed) == InOrder(cfg, events, observed)
  {
    hide ItemOf;
    if events != [] {
      ItemsInOrder(cfg, events[..|events| - 1], observed);
      InOrderLast(cfg, events, observed);
    }
  }

  // Phases of a run.

  /** Measuring starts with the first begin and lasts: an end only stops accepting new sequences. */
  predicate Measuring(steps: seq<Step>) {
    exists i :: 0 <= i < |steps| && steps[i].BeginMeasurement?
  }

  /** The last control call was a begin. */
  predicate Accepting(steps: seq<Step>) {
    if steps == [] then false else
    var last := steps[|steps| - 1];
    last.BeginMeasurement? || (!last.EndMeasurement? && Accepting(steps[..|steps| - 1]))
  }

  lemma MeasuringLast(front: seq<Step>, step: Step)
    ensures Measuring(front + [step]) <==> Measuring(front) || step.BeginMeasurement?
  {
    var steps := front + [step];
    assert steps[|front|] == step && forall i :: 0 <= i < |front| ==> steps[i] == front[i];
    if Measuring(front) {
      var i :| 0 <= i < |front| && front[i].BeginMeasurement?;
      assert steps[i].BeginMeasurement?;
    }
  }

  lemma {:induction false} Phases(cfg: Config, steps: seq<Step>)
    ensures
      var st := Run(cfg, steps);
      && (st.measuring <==> Measuring(steps))
      && (st.core.accepting <==> Accepting(steps)) && (st.sourceTimeMeasuring <==> Accepting(steps))
  {
    hide ProcessAll, Sweep, ItemsOf, ObserveTimes, SequencesIn, ProfilesIn, Measuring;
    if steps == [] {
      NotMeasuring();
    } else {
      var front, step := steps[..|steps| - 1], steps[|steps| - 1];
      assert front + [step] == steps;
      Phases(cfg, front);
      MeasuringLast(front, step);
      var st := Run(cfg, front);
      match step
      case Notify(c) => ProcessAllKeeps(cfg, st.core, ItemsOf(cfg, c.events, c.observed));
      case TakeWindow(now, expireAll) =>
        SweepKeeps(cfg, st.core, Ordered.Ascending(st.core.pending.Keys), now - cfg.timeoutMs * NANOS_PER_MILLI, expireAll);
      case _ =>
    }
  }

  lemma NotMeasuring()
    ensures !Measuring([])
  {
  }

  // Excluded sequences.

  /** A marker or market event of this sequence. */
  predicate Reveals(cfg: Config, e: WireEvent, s: int) {
    var item := ItemOf(cfg, e, 0);
    item.Some? && item.value.sequence == s
  }

  predicate RevealedAt(cfg: Config, steps: seq<Step>, i: nat, s: int)
    requires i < |steps|
  {
    steps[i].Notify? && !Measuring(steps[..i]) && exists e :: e in steps[i].callback.events && Reveals(cfg, e, s)
  }

  predicate RevealedEarly(cfg: Config, steps: seq<Step>, s: int) {
    exists i :: 0 <= i < |steps| && RevealedAt(cfg, steps, i, s)
  }

  lemma RevealedLast(cfg: Config, front: seq<Step>, step: Step, s: int)
    ensures RevealedEarly(cfg, front + [step], s) <==>
      || RevealedEarly(cfg, front, s)
      || (step.Notify? && !Measuring(front) && exists e :: e in step.callback.events && Reveals(cfg, e, s))
  {
    hide Reveals, Measuring;
    var steps := front + [step];
    assert steps[|front|] == step && steps[..|front|] == front;
    assert forall i :: 0 <= i < |front| ==> steps[i] == front[i] && steps[..i] == front[..i];
    if RevealedEarly(cfg, front, s) {
      var i :| 0 <= i < |front| && RevealedAt(cfg, front, i, s);
      assert RevealedAt(cfg, steps, i, s);
    }
    if step.Notify? && !Measuring(front) && exists e :: e in step.callback.events && Reveals(cfg, e, s) {
      assert RevealedAt(cfg, steps, |front|, s);
    }
    if RevealedEarly(cfg, steps, s) {
      var i :| 0 <= i < |steps| && RevealedAt(cfg, steps, i, s);
      assert i < |front| ==> RevealedAt(cfg, front, i, s);
    }
  }

  lemma SequencesMean(cfg: Config, events: seq<WireEvent>, s: int)
    ensures s in SequencesIn(cfg, events) <==> exists e :: e in events && Reveals(cfg, e, s)
  {
    hide SequenceOf, ItemOf;
    if s in SequencesIn(cfg, events) {
      var e :| e in events && SequenceOf(cfg, e) == Some(s);
      SequenceMatchesItem(cfg, e, 0);
      assert Reveals(cfg, e, s);
    }
    if e :| e in events && Reveals(cfg, e, s) {
      SequenceMatchesItem(cfg, e, 0);
    }
  }

  /** In every run exactly the sequences that some event revealed before measuring are excluded. */
  lemma {:induction false} ExcludedExactly(cfg: Config, steps: seq<Step>)
    ensures forall s :: s in Run(cfg, steps).core.excluded <==> RevealedEarly(cfg, steps, s)
  {
    hide ProcessAll, Sweep, ItemsOf, ObserveTimes, SequencesIn, ProfilesIn, Measuring, RevealedEarly, Reveals;
    if steps == [] {
      forall s ensures !RevealedEarly(cfg, [], s) {
        NothingRevealed(cfg, s);
      }
    } else {
      var front, step := steps[..|steps| - 1], steps[|steps| - 1];
      assert front + [step] == steps;
      ExcludedExactly(cfg, front);
      Phases(cfg, front);
      var st := Run(cfg, front);
      ExclusionStep(cfg, st, step);
      forall s ensures s in Run(cfg, steps).core.excluded <==> RevealedEarly(cfg, steps, s) {
        RevealedLast(cfg, front, step, s);
        if step.Notify? {
          SequencesMean(cfg, step.callback.events, s);
        }
      }
    }
  }

  lemma NothingRevealed(cfg: Config, s: int)
    ensures !RevealedEarly(cfg, [], s)
  {
  }

  lemma ExclusionStep(cfg: Config, st: State, step: Step)
    ensures Next(cfg, st, step).core.excluded
         == st.core.excluded + if step.Notify? && !st.measuring then SequencesIn(cfg, step.callback.events) else {}
  {
    hide ProcessAll, Sweep, ItemsOf, ObserveTimes, SequencesIn, ProfilesIn;
    match step
    case Notify(c) => ProcessAllKeeps(cfg, st.core, ItemsOf(cfg, c.events, c.observed));
    case TakeWindow(now, expireAll) =>
      SweepKeeps(cfg, st.core, Ordered.Ascending(st.core.pending.Keys), now - cfg.timeoutMs * NANOS_PER_MILLI, expireAll);
    case _ =>
  }

  // Callback statistics.

  /** The notifications received while measuring, in order. */
  function MeasuredCallbacks(steps: seq<Step>): seq<Callback> {
    if steps == [] then [] else
    var front, last := steps[..|steps| - 1], steps[|steps| - 1];
    MeasuredCallbacks(front) + if last.Notify? && Measuring(front) then [last.callback] else []
  }

  /** Those since the current window was started by a begin or a window report. */
  function WindowCallbacks(steps: seq<Step>): seq<Callback> {
    if steps == [] then [] else
    var front, last := steps[..|steps| - 1], steps[|steps| - 1];
    if last.BeginMeasurement? || last.TakeWindow? then []
    else WindowCallbacks(front) + if last.Notify? && Measuring(front) then [last.callback] else []
  }

  /** Sizes and durations are those of market callbacks only. */
  function Sizes(callbacks: seq<Callback>): seq<int> {
    if callbacks == [] then [] else
    var last := callbacks[|callbacks| - 1];
    Sizes(callbacks[..|callbacks| - 1]) + if last.market then [|last.events|] else []
  }

  function Durations(callbacks: seq<Callback>): seq<int> {
    if callbacks == [] then [] else
    var last := callbacks[|callbacks| - 1];
    Durations(callbacks[..|callbacks| - 1]) + if last.market then [last.duration] else []
  }

  predicate StatsOf(stats: CallbackStats, callbacks: seq<Callback>) {
    stats.callbacks == |callbacks| && stats.sizes == Sizes(callbacks) && stats.durations == Durations(callbacks)
  }

  lemma StatsMore(stats: CallbackStats, callbacks: seq<Callback>, c: Callback)
    requires StatsOf(stats, callbacks)
    ensures StatsOf(stats.Plus(CallbackStats(1, if c.market then [|c.events|] else [], if c.market then [c.duration] else [])),
                    callbacks + [c])
  {
    assert (callbacks + [c])[..|callbacks|] == callbacks;
  }

  /** In every run the callback statistics are those of the notifications received while measuring. */
  lemma {:induction false} CallbacksCounted(cfg: Config, steps: seq<Step>)
    ensures
      var st := Run(cfg, steps);
      && StatsOf(st.callbackTotal, MeasuredCallbacks(steps)) && StatsOf(st.callbackWindow, WindowCallbacks(steps))
      && st.activity == |MeasuredCallbacks(steps)|
  {
    hide ProcessAll, Sweep, ItemsOf, ObserveTimes, SequencesIn, ProfilesIn, Measuring, StatsOf, CallbackStats.Plus;
    NoCallbacks();
    if steps != [] {
      var front, step := steps[..|steps| - 1], steps[|steps| - 1];
      CallbacksCounted(cfg, front);
      Phases(cfg, front);
      var st := Run(cfg, front);
      if step.Notify? && Measuring(front) {
        StatsMore(st.callbackTotal, MeasuredCallbacks(front), step.callback);
        StatsMore(st.callbackWindow, WindowCallbacks(front), step.callback);
      } else {
        assert MeasuredCallbacks(front) + [] == MeasuredCallbacks(front);
        assert WindowCallbacks(front) + [] == WindowCallbacks(front);
      }
    }
  }

  lemma NoCallbacks()
    ensures StatsOf(NO_CALLBACKS, [])
  {
  }

  // Source times.

  /** The source time that an event carries: that of a Trade or TradeETH event, in whole milliseconds. */
  function TimeOf(e: WireEvent, observed: int): seq<SourceTime.Observation> {
    match e
    case TradeEvent(symbol, _, timeNanos) => [SourceTime.Observation(Trade, symbol, TruncDiv(timeNanos, 1_000_000), observed)]
    case TradeEthEvent(symbol, _, timeNanos) =>
      [SourceTime.Observation(TradeEth, symbol, TruncDiv(timeNanos, 1_000_000), observed)]
    case _ => []
  }

  function TimesOf(events: seq<WireEvent>, observed: int): seq<SourceTime.Observation> {
    if events == [] then []
    else TimesOf(events[..|events| - 1], observed) + TimeOf(events[|events| - 1], observed)
  }

  /** What is observed between the last begin and the end that follows it. */
  function TimesHeard(steps: seq<Step>): seq<SourceTime.Observation> {
    if steps == [] then [] else
    var front, last := steps[..|steps| - 1], steps[|steps| - 1];
    if last.BeginMeasurement? then []
    else TimesHeard(front) + if last.Notify? && Accepting(front) then TimesOf(last.callback.events, last.callback.observed)
                             else []
  }

  lemma TimeObserved(cfg: Config, h: seq<SourceTime.Observation>, e: WireEvent, observed: int)
    ensures ObserveTime(cfg, SourceTime.Replay(h), e, observed) == SourceTime.Replay(h + TimeOf(e, observed))
  {
    hide SourceTime.Observed;
    var more := TimeOf(e, observed);
    if more == [] {
      assert h + more == h;
    } else {
      assert (h + more)[..|h|] == h;
    }
  }

  lemma {:induction false} TimesObserved(cfg: Config, h: seq<SourceTime.Observation>, events: seq<WireEvent>, observed: int)
    ensures ObserveTimes(cfg, SourceTime.Replay(h), events, observed) == SourceTime.Replay(h + TimesOf(events, observed))
  {
    hide SourceTime.Replay, ObserveTime, TimeOf;
    if events == [] {
      assert h + [] == h;
    } else {
      var front, last := events[..|events| - 1], events[|events| - 1];
      TimesObserved(cfg, h, front, observed);
      TimeObserved(cfg, h + TimesOf(front, observed), last, observed);
      assert h + TimesOf(events, observed) == h + TimesOf(front, observed) + TimeOf(last, observed);
    }
  }

  lemma AcceptsWhileMeasuring(steps: seq<Step>)
    ensures Accepting(steps) ==> Measuring(steps)
  {
    if steps != [] {
      AcceptsWhileMeasuring(steps[..|steps| - 1]);
      assert steps[..|steps| - 1] + [steps[|steps| - 1]] == steps;
      MeasuringLast(steps[..|steps| - 1], steps[|steps| - 1]);
    }
  }

  /** In every run the source times are those of the Trade and TradeETH events heard since the last begin, until its end. */
  lemma {:induction false} SourceTimesHeard(cfg: Config, steps: seq<Step>)
    ensures Run(cfg, steps).sourceTimes == SourceTime.Replay(TimesHeard(steps))
  {
    hide ProcessAll, Sweep, ItemsOf, ObserveTimes, SequencesIn, ProfilesIn, Measuring, SourceTime.Replay, TimesOf;
    NothingReplayed();
    if steps != [] {
      var front, step := steps[..|steps| - 1], steps[|steps| - 1];
      SourceTimesHeard(cfg, front);
      Phases(cfg, front);
      AcceptsWhileMeasuring(front);
      if step.Notify? && Accepting(front) {
        TimesObserved(cfg, TimesHeard(front), step.callback.events, step.callback.observed);
      }
      assert TimesHeard(front) + [] == TimesHeard(front);
    }
  }

  lemma NothingReplayed()
    ensures SourceTime.Replay([]) == SourceTime.EMPTY
  {
  }
}
