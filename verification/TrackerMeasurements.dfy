/** What the time-series tracker reports, read off the events of a run and their flags alone. */
module TrackerMeasurements {
  import opened Events
  import opened TrackerModel
  import opened TrackerLaws

  // What the tracker reads.

  /** Every TimeAndSale event is read, with its symbol, flags and time; its index is its millisecond and its sequence. */
  lemma TickMeans(e: WireEvent, f: WireEvent)
    ensures TickOf(e).Some? <==> e.TimeAndSaleEvent?
    ensures e.TimeAndSaleEvent? ==>
      var t := TickOf(e).value; t.symbol == e.symbol && t.flags == e.flags && t.timeNanos == e.timeNanos
    ensures e.TimeAndSaleEvent? && f.TimeAndSaleEvent? ==>
      (TickOf(e).value.index == TickOf(f).value.index <==>
         e.timeNanos / 1_000_000 == f.timeNanos / 1_000_000 && e.sequence == f.sequence)
  {
  }

  function InOrder(events: seq<WireEvent>): seq<Tick> {
    if events == [] then []
    else (if events[0].TimeAndSaleEvent? then [TickOf(events[0]).value] else []) + InOrder(events[1..])
  }

  lemma {:induction false} InOrderLast(events: seq<WireEvent>)
    requires events != []
    ensures
      var last := events[|events| - 1];
      InOrder(events) == InOrder(events[..|events| - 1]) + if last.TimeAndSaleEvent? then [TickOf(last).value] else []
  {
    hide TickOf;
    if |events| > 1 {
      InOrderLast(events[1..]);
      assert events[1..][..|events| - 2] == events[..|events| - 1][1..];
    } else {
      assert events[..0] == [] && events[1..] == [];
    }
  }

  /** They are read in the order in which the callback brings them. */
  lemma {:induction false} TicksInOrder(events: seq<WireEvent>)
    ensures TicksOf(events) == InOrder(events)
  {
    if events != [] {
      TicksInOrder(events[..|events| - 1]);
      InOrderLast(events);
    }
  }

  // What an event means, by the events before it.

  predicate Opens(t: Tick, symbol: string) {
    t.symbol == symbol && t.flags.begin
  }

  predicate Closes(t: Tick, symbol: string) {
    t.symbol == symbol && (t.flags.end || t.flags.snip)
  }

  predicate Opened(ticks: seq<Tick>, symbol: string) {
    exists j :: 0 <= j < |ticks| && Opens(ticks[j], symbol)
  }

  predicate Closed(ticks: seq<Tick>, symbol: string) {
    exists j :: 0 <= j < |ticks| && Closes(ticks[j], symbol)
  }

  /** Flagged as part of a snapshot, or after its beginning and before its end. */
  predicate Inside(before: seq<Tick>, t: Tick) {
    || t.flags.begin || t.flags.end || t.flags.snip
    || (Opened(before, t.symbol) && !Closed(before, t.symbol))
  }

  predicate Live(before: seq<Tick>, t: Tick) {
    !Inside(before, t) && Closed(before, t.symbol)
  }

  /** Inside a snapshot an earlier event, not a removal, had this index. */
  predicate Recorded(ticks: seq<Tick>, symbol: string, index: Index) {
    exists j :: 0 <= j < |ticks| && RecordsAt(ticks, j, symbol, index)
  }

  predicate RecordsAt(ticks: seq<Tick>, j: nat, symbol: string, index: Index)
    requires j < |ticks|
  {
    ticks[j].symbol == symbol && ticks[j].index == index && !ticks[j].flags.remove && Inside(ticks[..j], ticks[j])
  }

  lemma OpenedLast(front: seq<Tick>, t: Tick, symbol: string)
    ensures Opened(front + [t], symbol) <==> Opened(front, symbol) || Opens(t, symbol)
    ensures Closed(front + [t], symbol) <==> Closed(front, symbol) || Closes(t, symbol)
  {
    var ticks := front + [t];
    assert forall j :: 0 <= j < |front| ==> ticks[j] == front[j];
    assert ticks[|front|] == t;
    if Opened(front, symbol) {
      var j :| 0 <= j < |front| && Opens(front[j], symbol);
      assert Opens(ticks[j], symbol);
    }
    if Closed(front, symbol) {
      var j :| 0 <= j < |front| && Closes(front[j], symbol);
      assert Closes(ticks[j], symbol);
    }
  }

  lemma RecordedLast(front: seq<Tick>, t: Tick, symbol: string, index: Index)
    ensures Recorded(front + [t], symbol, index) <==>
      || Recorded(front, symbol, index)
      || (t.symbol == symbol && t.index == index && !t.flags.remove && Inside(front, t))
  {
    hide Inside;
    var ticks := front + [t];
    assert forall j :: 0 <= j < |front| ==> ticks[j] == front[j] && ticks[..j] == front[..j];
    assert ticks[|front|] == t && ticks[..|front|] == front;
    if Recorded(front, symbol, index) {
      var j :| 0 <= j < |front| && RecordsAt(front, j, symbol, index);
      assert RecordsAt(ticks, j, symbol, index);
    }
    if t.symbol == symbol && t.index == index && !t.flags.remove && Inside(front, t) {
      assert RecordsAt(ticks, |front|, symbol, index);
    }
    if Recorded(ticks, symbol, index) {
      var j :| 0 <= j < |ticks| && RecordsAt(ticks, j, symbol, index);
      assert j < |front| ==> RecordsAt(front, j, symbol, index);
    }
  }

  /** The state kept for a symbol is what its events so far say. */
  lemma {:induction false} StateMeans(ticks: seq<Tick>, symbol: string)
    ensures
      var s := FollowAll(NO_TRACK, ticks).Lookup(symbol);
      && (s.started <==> Opened(ticks, symbol)) && (s.complete <==> Closed(ticks, symbol))
      && forall index :: index in s.indices <==> Recorded(ticks, symbol, index)
  {
    hide Opened, Closed, Recorded;
    if ticks == [] {
      NothingMeant(symbol);
    } else {
      var front, last := ticks[..|ticks| - 1], ticks[|ticks| - 1];
      assert front + [last] == ticks;
      StateMeans(front, symbol);
      OpenedLast(front, last, symbol);
      forall index
        ensures index in FollowAll(NO_TRACK, ticks).Lookup(symbol).indices <==> Recorded(ticks, symbol, index)
      {
        RecordedLast(front, last, symbol, index);
      }
    }
  }

  lemma NothingMeant(symbol: string)
    ensures !Opened([], symbol) && !Closed([], symbol) && forall index :: !Recorded([], symbol, index)
  {
  }

  lemma InsideMeans(before: seq<Tick>, t: Tick)
    ensures
      var s := FollowAll(NO_TRACK, before).Lookup(t.symbol);
      && (InSnapshot(s, t.flags) <==> Inside(before, t))
      && (!InSnapshot(s, t.flags) && s.complete <==> Live(before, t))
      && (Completes(s, t.flags) <==> (t.flags.end || t.flags.snip) && !Closed(before, t.symbol))
      && (t.index in s.indices <==> Recorded(before, t.symbol, t.index))
  {
    hide Opened, Closed, Recorded, FollowAll, Track.Lookup;
    StateMeans(before, t.symbol);
  }

  // Counters.

  datatype Role = Beginning | SnapshotEvent | Repeated | Removal | Completion | EndCompletion | SnipCompletion | LiveEvent
                | Premature

  predicate Plays(before: seq<Tick>, t: Tick, role: Role) {
    var completes := (t.flags.end || t.flags.snip) && !Closed(before, t.symbol);
    match role
    case Beginning => t.flags.begin
    case SnapshotEvent => Inside(before, t) && !t.flags.remove
    case Repeated => Inside(before, t) && !t.flags.remove && Recorded(before, t.symbol, t.index)
    case Removal => Inside(before, t) && t.flags.remove
    case Completion => completes
    case EndCompletion => completes && t.flags.end
    case SnipCompletion => completes && t.flags.snip
    case LiveEvent => Live(before, t)
    case Premature => !Inside(before, t) && !Live(before, t)
  }

  function Times(ticks: seq<Tick>, role: Role): nat {
    if ticks == [] then 0 else
    var front, last := ticks[..|ticks| - 1], ticks[|ticks| - 1];
    Times(front, role) + if Plays(front, last, role) then 1 else 0
  }

  function PlaysAll(before: seq<Tick>, t: Tick): Counters {
    Counters(One(Plays(before, t, Completion)), One(Plays(before, t, SnapshotEvent)), One(Plays(before, t, Beginning)),
             One(Plays(before, t, EndCompletion)), One(Plays(before, t, SnipCompletion)),
             One(Plays(before, t, Removal)), One(Plays(before, t, LiveEvent)), One(Plays(before, t, Premature)),
             One(Plays(before, t, Repeated)))
  }

  lemma CountedMeans(before: seq<Tick>, t: Tick)
    ensures Counted(FollowAll(NO_TRACK, before).Lookup(t.symbol), t) == PlaysAll(before, t)
  {
    hide Inside, Closed, Recorded, Live, InSnapshot, Completes, Track.Lookup, FollowAll;
    InsideMeans(before, t);
    LiveMeans(before, t);
  }

  lemma TimesLast(ticks: seq<Tick>, role: Role)
    requires ticks != []
    ensures
      var front, last := ticks[..|ticks| - 1], ticks[|ticks| - 1];
      Times(ticks, role) == Times(front, role) + One(Plays(front, last, role))
  {
    hide Plays;
  }

  function TimesAll(ticks: seq<Tick>): Counters {
    Counters(Times(ticks, Completion), Times(ticks, SnapshotEvent), Times(ticks, Beginning), Times(ticks, EndCompletion),
             Times(ticks, SnipCompletion), Times(ticks, Removal), Times(ticks, LiveEvent), Times(ticks, Premature),
             Times(ticks, Repeated))
  }

  lemma TimesAllLast(ticks: seq<Tick>)
    requires ticks != []
    ensures TimesAll(ticks) == TimesAll(ticks[..|ticks| - 1]).Plus(PlaysAll(ticks[..|ticks| - 1], ticks[|ticks| - 1]))
  {
    hide Plays, Times;
    TimesLast(ticks, Completion);
    TimesLast(ticks, SnapshotEvent);
    TimesLast(ticks, Beginning);
    TimesLast(ticks, EndCompletion);
    TimesLast(ticks, SnipCompletion);
    TimesLast(ticks, Removal);
    TimesLast(ticks, LiveEvent);
    TimesLast(ticks, Premature);
    TimesLast(ticks, Repeated);
  }

  /** Every counter is the number of events that play its role. */
  lemma {:induction false} CountersMean(ticks: seq<Tick>)
    ensures FollowAll(NO_TRACK, ticks).counters == TimesAll(ticks)
  {
    hide TimesAll, PlaysAll, Counted, Track.Lookup, Touched, Counters.Plus;
    if ticks == [] {
      NothingCounted();
    } else {
      CountersMean(ticks[..|ticks| - 1]);
      CountedMeans(ticks[..|ticks| - 1], ticks[|ticks| - 1]);
      TimesAllLast(ticks);
    }
  }

  lemma NothingCounted()
    ensures TimesAll([]) == NO_COUNTERS
  {
  }

  lemma LiveMeans(before: seq<Tick>, t: Tick)
    ensures Live(before, t) <==> !Inside(before, t) && Closed(before, t.symbol)
  {
  }

  // Latencies and times.

  /** An event with the time at which its callback was observed. */
  datatype Sighting = Sighting(tick: Tick, observed: int)

  function Sightings(ticks: seq<Tick>, observed: int): seq<Sighting> {
    seq(|ticks|, i requires 0 <= i < |ticks| => Sighting(ticks[i], observed))
  }

  /** The live events of a callback, given the events before it. */
  function LiveSightings(before: seq<Tick>, ticks: seq<Tick>, observed: int): seq<Sighting> {
    if ticks == [] then [] else
    var front, last := ticks[..|ticks| - 1], ticks[|ticks| - 1];
    LiveSightings(before, front, observed) + if Live(before + front, last) then [Sighting(last, observed)] else []
  }

  function StepTicks(step: Step): seq<Tick> {
    if step.Callback? then TicksOf(step.events) else []
  }

  function StepTime(step: Step): int {
    if step.Callback? then step.observed else 0
  }

  function AllSightings(steps: seq<Step>): seq<Sighting> {
    if steps == [] then [] else
    var last := steps[|steps| - 1];
    AllSightings(steps[..|steps| - 1]) + Sightings(StepTicks(last), StepTime(last))
  }

  function AllLive(steps: seq<Step>): seq<Sighting> {
    if steps == [] then [] else
    var front, last := steps[..|steps| - 1], steps[|steps| - 1];
    AllLive(front) + LiveSightings(RunTicks(front), StepTicks(last), StepTime(last))
  }

  predicate Measuring(steps: seq<Step>) {
    if steps == [] then false else
    var last := steps[|steps| - 1];
    last.StartMeasuring? || (!last.StopMeasuring? && Measuring(steps[..|steps| - 1]))
  }

  /** The live events received while measuring, in the whole run. */
  function Measured(steps: seq<Step>): seq<Sighting> {
    if steps == [] then [] else
    var front, last := steps[..|steps| - 1], steps[|steps| - 1];
    Measured(front) + if Measuring(front) then LiveSightings(RunTicks(front), StepTicks(last), StepTime(last)) else []
  }

  /** Those received since measuring last began. */
  function MeasuredLately(steps: seq<Step>): seq<Sighting> {
    if steps == [] then [] else
    var front, last := steps[..|steps| - 1], steps[|steps| - 1];
    if last.StartMeasuring? then []
    else MeasuredLately(front)
         + if Measuring(front) then LiveSightings(RunTicks(front), StepTicks(last), StepTime(last)) else []
  }

  /** How long after their own time the events were observed, of those that were not observed before it. */
  function Delays(sightings: seq<Sighting>): seq<int> {
    if sightings == [] then [] else
    var last := sightings[|sightings| - 1];
    Delays(sightings[..|sightings| - 1])
    + if last.observed >= last.tick.timeNanos then [last.observed - last.tick.timeNanos] else []
  }

  /** Events observed before their own time. */
  function Early(sightings: seq<Sighting>): nat {
    if sightings == [] then 0 else
    var last := sightings[|sightings| - 1];
    Early(sightings[..|sightings| - 1]) + if last.observed < last.tick.timeNanos then 1 else 0
  }

  /** The first non-zero observation time: zero means that there is none yet. */
  function FirstTime(sightings: seq<Sighting>): int {
    if sightings == [] then 0
    else if sightings[0].observed != 0 then sightings[0].observed
    else FirstTime(sightings[1..])
  }

  lemma {:induction false} DelaysAppend(a: seq<Sighting>, b: seq<Sighting>)
    ensures Delays(a + b) == Delays(a) + Delays(b) && Early(a + b) == Early(a) + Early(b)
  {
    if b == [] {
      assert a + b == a;
    } else {
      DelaysAppend(a, b[..|b| - 1]);
      assert (a + b)[..|a + b| - 1] == a + b[..|b| - 1];
    }
  }

  lemma {:induction false} FirstTimeAppend(a: seq<Sighting>, b: seq<Sighting>)
    ensures FirstTime(a + b) == if FirstTime(a) != 0 then FirstTime(a) else FirstTime(b)
  {
    if a == [] {
      assert a + b == b;
    } else {
      FirstTimeAppend(a[1..], b);
      assert (a + b)[1..] == a[1..] + b;
    }
  }

  lemma OneSighting(x: Sighting)
    ensures Delays([x]) == (if x.observed >= x.tick.timeNanos then [x.observed - x.tick.timeNanos] else [])
    ensures Early([x]) == (if x.observed < x.tick.timeNanos then 1 else 0)
    ensures FirstTime([x]) == x.observed
    ensures Delays([]) == [] && Early([]) == 0 && FirstTime([]) == 0
  {
    assert [x][..0] == [] && [x][1..] == [];
  }

  lemma GoesLiveMeans(st: State, before: seq<Tick>, t: Tick)
    requires st.track == FollowAll(NO_TRACK, before)
    ensures GoesLive(st, t) <==> Live(before, t)
  {
    hide Live, Inside, InSnapshot, Track.Lookup, FollowAll;
    InsideMeans(before, t);
  }

  /** One callback's events. */
  lemma {:induction false} CallbackMeans(st: State, before: seq<Tick>, ticks: seq<Tick>, observed: int)
    requires st.track == FollowAll(NO_TRACK, before)
    ensures
      var after, live := TickedAll(st, ticks, observed), LiveSightings(before, ticks, observed);
      var measured := if st.measuring then live else [];
      && after.track == FollowAll(NO_TRACK, before + ticks) && after.measuring == st.measuring
      && after.liveLatencies == st.liveLatencies + Delays(measured)
      && after.clockAnomalies == st.clockAnomalies + Early(measured)
      && after.firstLive == (if st.firstLive != 0 then st.firstLive else FirstTime(live))
      && after.firstObserved
         == (if st.firstObserved != 0 then st.firstObserved else FirstTime(Sightings(ticks, observed)))
  {
    hide Live, Follow, Ticked, Delays, Early, FirstTime;
    OneSighting(Sighting(Tick("", (0, 0), NO_FLAGS, 0), 0));
    if ticks == [] {
      assert before + [] == before;
      assert st.liveLatencies + [] == st.liveLatencies;
    } else {
      var front, last := ticks[..|ticks| - 1], ticks[|ticks| - 1];
      CallbackMeans(st, before, front, observed);
      assert (before + ticks)[..|before + ticks| - 1] == before + front;
      LastTickMeans(TickedAll(st, front, observed), before + front, last, observed);
      var x := Sighting(last, observed);
      OneSighting(x);
      DelaysAppend(LiveSightings(before, front, observed), [x]);
      FirstTimeAppend(LiveSightings(before, front, observed), [x]);
      FirstTimeAppend(Sightings(front, observed), [x]);
      assert Sightings(ticks, observed) == Sightings(front, observed) + [x];
      assert LiveSightings(before, front, observed) + [] == LiveSightings(before, front, observed);
    }
  }

  lemma LastTickMeans(st: State, before: seq<Tick>, t: Tick, observed: int)
    requires st.track == FollowAll(NO_TRACK, before)
    ensures
      var after, live := Ticked(st, t, observed), Live(before, t);
      var x := [Sighting(t, observed)];
      && after.track == Follow(st.track, t) && after.measuring == st.measuring
      && after.liveLatencies == st.liveLatencies + (if live && st.measuring then Delays(x) else [])
      && after.clockAnomalies == st.clockAnomalies + (if live && st.measuring then Early(x) else 0)
      && after.firstLive == (if live && st.firstLive == 0 then observed else st.firstLive)
      && after.firstObserved == (if st.firstObserved == 0 then observed else st.firstObserved)
  {
    hide Live, Follow, GoesLive, Delays, Early, Completes, FollowAll, Track.Lookup, FirstTime;
    GoesLiveMeans(st, before, t);
    OneSighting(Sighting(t, observed));
  }

  /** The callbacks with an event inside a snapshot. */
  predicate HasInside(before: seq<Tick>, ticks: seq<Tick>) {
    exists i :: 0 <= i < |ticks| && Inside(before + ticks[..i], ticks[i])
  }

  function SnapshotCallbacks(steps: seq<Step>): nat {
    if steps == [] then 0 else
    var front, last := steps[..|steps| - 1], steps[|steps| - 1];
    SnapshotCallbacks(front) + if last.Callback? && HasInside(RunTicks(front), StepTicks(last)) then 1 else 0
  }

  function Callbacks(steps: seq<Step>): nat {
    if steps == [] then 0 else Callbacks(steps[..|steps| - 1]) + if steps[|steps| - 1].Callback? then 1 else 0
  }

  lemma HasInsideLast(before: seq<Tick>, ticks: seq<Tick>)
    requires ticks != []
    ensures
      var front, last := ticks[..|ticks| - 1], ticks[|ticks| - 1];
      HasInside(before, ticks) <==> HasInside(before, front) || Inside(before + front, last)
  {
    hide Inside;
    var front := ticks[..|ticks| - 1];
    assert forall i :: 0 <= i < |front| ==> ticks[i] == front[i] && ticks[..i] == front[..i];
    if HasInside(before, front) {
      var i :| 0 <= i < |front| && Inside(before + front[..i], front[i]);
      assert Inside(before + ticks[..i], ticks[i]);
    }
  }

  lemma {:induction false} AnyInside(before: seq<Tick>, ticks: seq<Tick>)
    ensures AnySnapshot(FollowAll(NO_TRACK, before), ticks) <==> HasInside(before, ticks)
  {
    hide Inside, InSnapshot, FollowAll, Track.Lookup, HasInside;
    if ticks == [] {
      NoneInside(before);
    } else {
      var front, last := ticks[..|ticks| - 1], ticks[|ticks| - 1];
      AnyInside(before, front);
      HasInsideLast(before, ticks);
      FollowAppend(NO_TRACK, before, front);
      InsideMeans(before + front, last);
    }
  }

  lemma NoneInside(before: seq<Tick>)
    ensures !HasInside(before, [])
  {
  }

  /** The expected number of symbols and the time of the last subscription. */
  function LastSubscription(steps: seq<Step>): (nat, int) {
    if steps == [] then (0, 0) else
    var last := steps[|steps| - 1];
    if last.Snapshot? then (last.expected, last.subscribedAt) else LastSubscription(steps[..|steps| - 1])
  }

  // Runs.

  ghost predicate Meant(st: State, steps: seq<Step>) {
    && st.track == FollowAll(NO_TRACK, RunTicks(steps))
    && (st.measuring <==> Measuring(steps))
    && st.liveLatencies == Delays(MeasuredLately(steps))
    && st.clockAnomalies == Early(Measured(steps))
    && st.firstLive == FirstTime(AllLive(steps))
    && st.firstObserved == FirstTime(AllSightings(steps))
    && (st.expected, st.subscribedAt) == LastSubscription(steps)
    && st.callbacks == Callbacks(steps) && st.snapshotCallbacks == SnapshotCallbacks(steps)
  }

  lemma NothingReported()
    ensures Meant(INITIAL, [])
  {
  }

  lemma {:induction false} SubscriptionUntouched(st: State, ticks: seq<Tick>, observed: int)
    ensures TickedAll(st, ticks, observed).expected == st.expected
    ensures TickedAll(st, ticks, observed).subscribedAt == st.subscribedAt
  {
    hide Follow, GoesLive, Completes;
    if ticks != [] {
      SubscriptionUntouched(st, ticks[..|ticks| - 1], observed);
    }
  }

  /** How what a run shows grows with a callback. */
  lemma CallbackShows(steps: seq<Step>, events: seq<WireEvent>, observed: int)
    ensures
      var more, before, ticks := steps + [Callback(events, observed)], RunTicks(steps), TicksOf(events);
      var live := LiveSightings(before, ticks, observed);
      var measured := if Measuring(steps) then live else [];
      && RunTicks(more) == before + ticks && (Measuring(more) <==> Measuring(steps))
      && AllLive(more) == AllLive(steps) + live && AllSightings(more) == AllSightings(steps) + Sightings(ticks, observed)
      && Measured(more) == Measured(steps) + measured && MeasuredLately(more) == MeasuredLately(steps) + measured
      && LastSubscription(more) == LastSubscription(steps) && Callbacks(more) == Callbacks(steps) + 1
      && SnapshotCallbacks(more) == SnapshotCallbacks(steps) + One(HasInside(before, ticks))
  {
    hide LiveSightings, HasInside, TicksOf, Sightings;
    assert (steps + [Callback(events, observed)])[..|steps|] == steps;
  }

  /** How it changes otherwise. */
  lemma ControlShows(steps: seq<Step>, step: Step)
    requires !step.Callback?
    ensures
      var more := steps + [step];
      && RunTicks(more) == RunTicks(steps)
      && (Measuring(more) <==> step.StartMeasuring? || (!step.StopMeasuring? && Measuring(steps)))
      && AllLive(more) == AllLive(steps) && AllSightings(more) == AllSightings(steps)
      && Measured(more) == Measured(steps)
      && MeasuredLately(more) == (if step.StartMeasuring? then [] else MeasuredLately(steps))
      && Callbacks(more) == Callbacks(steps) && SnapshotCallbacks(more) == SnapshotCallbacks(steps)
      && LastSubscription(more)
         == (if step.Snapshot? then (step.expected, step.subscribedAt) else LastSubscription(steps))
  {
    hide LiveSightings, HasInside, Sightings;
    var more := steps + [step];
    assert more[..|steps|] == steps;
    NoSightings(RunTicks(steps));
    assert RunTicks(steps) + [] == RunTicks(steps);
    assert AllLive(steps) + [] == AllLive(steps) && AllSightings(steps) + [] == AllSightings(steps);
    assert Measured(steps) + [] == Measured(steps) && MeasuredLately(steps) + [] == MeasuredLately(steps);
  }

  lemma CallbackMeant(st: State, steps: seq<Step>, events: seq<WireEvent>, observed: int)
    requires Meant(st, steps)
    ensures Meant(Handle(st, events, observed), steps + [Callback(events, observed)])
  {
    hide LiveSightings, TickedAll, FollowAll, Delays, Early, FirstTime, AnySnapshot, HasInside, TicksOf, Sightings, RunTicks,
      Measuring, AllLive, AllSightings, Measured, MeasuredLately, Callbacks, SnapshotCallbacks, LastSubscription;
    var before, ticks := RunTicks(steps), TicksOf(events);
    CallbackShows(steps, events, observed);
    CallbackMeans(st, before, ticks, observed);
    AnyInside(before, ticks);
    CountersUntouched(st, ticks, observed);
    SubscriptionUntouched(st, ticks, observed);
    var live := LiveSightings(before, ticks, observed);
    var measured := if Measuring(steps) then live else [];
    DelaysAppend(MeasuredLately(steps), measured);
    DelaysAppend(Measured(steps), measured);
    FirstTimeAppend(AllLive(steps), live);
    FirstTimeAppend(AllSightings(steps), Sightings(ticks, observed));
  }

  lemma {:induction false} CountersUntouched(st: State, ticks: seq<Tick>, observed: int)
    ensures TickedAll(st, ticks, observed).callbacks == st.callbacks
    ensures TickedAll(st, ticks, observed).snapshotCallbacks == st.snapshotCallbacks
  {
    hide Follow, GoesLive, Completes;
    if ticks != [] {
      CountersUntouched(st, ticks[..|ticks| - 1], observed);
    }
  }

  lemma ControlMeant(st: State, steps: seq<Step>, step: Step)
    requires Meant(st, steps) && !step.Callback?
    ensures Meant(Next(st, step), steps + [step])
  {
    hide FollowAll, Delays, Early, FirstTime, RunTicks, Measuring, AllLive, AllSightings, Measured, MeasuredLately,
      Callbacks, SnapshotCallbacks, Handle, LastSubscription;
    ControlShows(steps, step);
    NoDelays();
  }

  lemma NoDelays()
    ensures Delays([]) == [] && Early([]) == 0 && FirstTime([]) == 0
  {
  }

  lemma NoSightings(before: seq<Tick>)
    ensures LiveSightings(before, [], 0) == [] && Sightings([], 0) == []
  {
  }

  /**
   * In every run: live latencies are the delays of the live events received since measuring last began, in order;
   * anomalies are the live events, ever received while measuring, that were observed before their own time; and the first
   * times are those of the first event and the first live event.
   */
  lemma {:induction false} RunMeans(steps: seq<Step>)
    ensures Meant(Run(INITIAL, steps), steps)
  {
    hide *;
    if steps == [] {
      NothingReported();
      RunNothing();
    } else {
      var front, last := steps[..|steps| - 1], steps[|steps| - 1];
      assert front + [last] == steps;
      RunMeans(front);
      RunLast(steps);
      if last.Callback? {
        CallbackMeant(Run(INITIAL, front), front, last.events, last.observed);
        NextCallback(Run(INITIAL, front), last);
      } else {
        ControlMeant(Run(INITIAL, front), front, last);
      }
    }
  }

  lemma RunNothing()
    ensures Run(INITIAL, []) == INITIAL
  {
  }

  lemma RunLast(steps: seq<Step>)
    requires steps != []
    ensures Run(INITIAL, steps) == Next(Run(INITIAL, steps[..|steps| - 1]), steps[|steps| - 1])
  {
    hide Next;
  }

  lemma NextCallback(st: State, step: Step)
    requires step.Callback?
    ensures step == Callback(step.events, step.observed)
    ensures Next(st, step) == Handle(st, step.events, step.observed)
  {
    hide Handle;
  }

  function ClosedSymbols(ticks: seq<Tick>): set<string> {
    set j | 0 <= j < |ticks| && Closes(ticks[j], ticks[j].symbol) :: ticks[j].symbol
  }

  lemma ClosedAre(ticks: seq<Tick>)
    ensures CompleteSymbols(FollowAll(NO_TRACK, ticks).symbols) == ClosedSymbols(ticks)
  {
    hide FollowAll, Closes;
    forall x ensures x in CompleteSymbols(FollowAll(NO_TRACK, ticks).symbols) <==> x in ClosedSymbols(ticks) {
      StateMeans(ticks, x);
      if Closed(ticks, x) {
        var j :| 0 <= j < |ticks| && Closes(ticks[j], x);
        ClosesOwn(ticks[j], x);
      }
    }
  }

  lemma ClosesOwn(t: Tick, x: string)
    ensures Closes(t, x) ==> t.symbol == x
  {
  }

  /** The snapshot is complete when symbols are expected, and at least that many have had an END or SNIP. */
  lemma CompleteMeans(steps: seq<Step>)
    ensures SnapshotComplete(Run(INITIAL, steps)) <==>
      0 < LastSubscription(steps).0 <= |ClosedSymbols(RunTicks(steps))|
  {
    hide FollowAll, ClosedSymbols, RunTicks, LastSubscription, CompleteSymbols, Run, Delays, Early, FirstTime, SeenIndices;
    RunMeans(steps);
    RunAccounted(steps);
    ClosedAre(RunTicks(steps));
  }
}
