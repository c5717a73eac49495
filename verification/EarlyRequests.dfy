/** What becomes of a time-series request that is handled before a task is active. */
module EarlyRequests {
  import opened Common
  import opened Events
  import opened History
  import opened Publication
  import opened GeneratorModel
  import opened PublicationLaws
  import opened ServerStreams
  import opened SnapshotOrder
  import opened SnapshotProtocol
  import opened SymbolUniverse
  import opened TaskPattern
  import D = Decimal
  import RoundTrip = TaskRoundTrip
  import T = TrackerModel
  import L = TrackerLaws

  // It is never made good by anything but a later request.

  /** Handling this command answers a request for the symbol. */
  predicate Answers(s: Server, step: Step, symbol: string) {
    Subscribes(s, step) && s.active.Some? && Asks(s.commands[0].requests, symbol)
  }

  ghost predicate NeverAnswered(config: Config, s: Server, steps: seq<Step>, symbol: string) {
    if steps == [] then true else
    var front := steps[..|steps| - 1];
    NeverAnswered(config, s, front, symbol) && !Answers(Run(config, s, front), steps[|steps| - 1], symbol)
  }

  lemma UnansweredStep(config: Config, s: Server, step: Step, symbol: string) returns (live: seq<Record>)
    requires !Answers(s, step, symbol)
    ensures TsEvents(Appended(config, s, step), symbol) == LiveEvents(symbol, live)
    ensures Updates(config, s, step, symbol) ==> live != []
  {
    hide Appended, TsEvents, SnapshotEvents, LiveEvents, Ticks, PublicationSlots;
    live := AppendedTs(config, s, step, symbol);
    if Subscribes(s, step) && s.active.Some? {
      SnapshotsBegin(s.active.value.logs, config.historyLimit, s.commands[0].requests, symbol);
      SubscribesNotUpdates(config, s, step, symbol);
      live := [];
      LiveNeverBegins(symbol, live);
    }
  }

  /** Without an answer a symbol only ever gets live events. */
  lemma {:induction false} UnansweredLive(config: Config, s: Server, steps: seq<Step>, symbol: string)
    returns (live: seq<Record>)
    requires TsEvents(s.wire, symbol) == [] && NeverAnswered(config, s, steps, symbol)
    ensures TsEvents(Run(config, s, steps).wire, symbol) == LiveEvents(symbol, live)
  {
    hide Next, TsEvents, Appended, Answers;
    if steps == [] {
      live := [];
      assert LiveEvents(symbol, []) == [];
    } else {
      var front, last := steps[..|steps| - 1], steps[|steps| - 1];
      var before := UnansweredLive(config, s, front, symbol);
      var more := UnansweredStep(config, Run(config, s, front), last, symbol);
      WireGrows(config, Run(config, s, front), last);
      TsAppend(Run(config, s, front).wire, Appended(config, Run(config, s, front), last), symbol);
      live := before + more;
      assert LiveEvents(symbol, before) + LiveEvents(symbol, more) == LiveEvents(symbol, live);
    }
  }

  // The tracker's view.

  predicate Flagless(v: seq<T.Tick>) {
    forall i :: 0 <= i < |v| ==> !v[i].flags.begin && !v[i].flags.end && !v[i].flags.snip
  }

  lemma FollowedPremature(k: T.Track, t: T.Tick, symbol: string)
    requires !k.Lookup(symbol).started && !k.Lookup(symbol).complete
    requires t.symbol == symbol ==> !t.flags.begin && !t.flags.end && !t.flags.snip
    ensures
      var after := T.Follow(k, t);
      && !after.Lookup(symbol).started && !after.Lookup(symbol).complete
      && after.counters.premature >= k.counters.premature + (if t.symbol == symbol then 1 else 0)
  {
  }

  /** Whatever else is received, a symbol without snapshot flags never completes and all its events are premature. */
  lemma {:induction false} FlaglessPremature(ticks: seq<T.Tick>, symbol: string)
    requires Flagless(View(ticks, symbol))
    ensures
      var k := T.FollowAll(T.NO_TRACK, ticks);
      && k.counters.premature >= |View(ticks, symbol)|
      && !k.Lookup(symbol).started && !k.Lookup(symbol).complete
  {
    hide T.Follow, T.Track.Lookup;
    if ticks == [] {
      UnseenSymbol(symbol);
    } else {
      var front, last := ticks[..|ticks| - 1], ticks[|ticks| - 1];
      assert front + [last] == ticks;
      ViewLast(front, last, symbol);
      FlaglessFront(View(front, symbol), View(ticks, symbol));
      FlaglessPremature(front, symbol);
      if last.symbol == symbol {
        assert View(ticks, symbol)[|View(front, symbol)|] == last;
      }
      FollowedPremature(T.FollowAll(T.NO_TRACK, front), last, symbol);
    }
  }

  lemma UnseenSymbol(symbol: string)
    ensures !T.NO_TRACK.Lookup(symbol).started && !T.NO_TRACK.Lookup(symbol).complete
  {
  }

  lemma FlaglessFront(a: seq<T.Tick>, b: seq<T.Tick>)
    requires Flagless(b) && |a| <= |b| && b[..|a|] == a
    ensures Flagless(a)
  {
    assert forall i :: 0 <= i < |a| ==> a[i] == b[i];
  }

  lemma LiveFlagless(symbol: string, live: seq<Record>)
    ensures Flagless(Ticking(LiveEvents(symbol, live)))
  {
  }

  /**
   * In every continuation that answers no request for the symbol, it gets live events only; every client that receives
   * them in order counts each as premature, and rejects the run if there is one.
   */
  lemma UnansweredIsPremature(config: Config, s: Server, steps: seq<Step>, symbol: string, callbacks: seq<L.Step>,
                              unsubscribed: bool)
    requires TsEvents(s.wire, symbol) == [] && NeverAnswered(config, s, steps, symbol)
    requires View(L.RunTicks(callbacks), symbol) == Ticking(TsEvents(Run(config, s, steps).wire, symbol))
    ensures
      var stream, st := TsEvents(Run(config, s, steps).wire, symbol), L.Run(T.INITIAL, callbacks);
      && (forall i :: 0 <= i < |stream| ==> !stream[i].flags.begin)
      && !st.track.Lookup(symbol).complete
      && st.track.counters.premature >= |stream|
      && (stream != [] ==> !IntegrityOk(st, unsubscribed))
  {
    hide Run, NeverAnswered, TsEvents, View, L.Run, L.RunTicks, T.FollowAll, T.Track.Lookup;
    var live := UnansweredLive(config, s, steps, symbol);
    LiveNeverBegins(symbol, live);
    LiveFlagless(symbol, live);
    L.RunTrack(T.INITIAL, callbacks);
    FlaglessPremature(L.RunTicks(callbacks), symbol);
  }

  /** A request handled while no task is active subscribes the symbol but is not answered. */
  lemma EarlyRequestUnanswered(config: Config, s: Server, clock: Clock, symbol: string)
    requires Subscribes(s, Work(clock)) && s.active.None? && symbol in s.commands[0].symbols
    requires TsEvents(s.wire, symbol) == []
    ensures
      var after := Pass(config, s, clock);
      symbol in after.subscribed.timeAndSale && TsEvents(after.wire, symbol) == []
  {
    hide TsEvents, Pass;
    AddedSubscribed(config, s, Work(clock), symbol);
    UnansweredEmpty(config, s, Work(clock), symbol);
  }

  /** From there, unless the symbol is requested again while a task is active, all its events are premature. */
  lemma EarlyIsPremature(config: Config, s: Server, clock: Clock, steps: seq<Step>, symbol: string,
                         callbacks: seq<L.Step>, unsubscribed: bool)
    requires Subscribes(s, Work(clock)) && s.active.None? && symbol in s.commands[0].symbols
    requires TsEvents(s.wire, symbol) == [] && NeverAnswered(config, Pass(config, s, clock), steps, symbol)
    requires View(L.RunTicks(callbacks), symbol)
          == Ticking(TsEvents(Run(config, Pass(config, s, clock), steps).wire, symbol))
    ensures
      var stream, st := TsEvents(Run(config, Pass(config, s, clock), steps).wire, symbol), L.Run(T.INITIAL, callbacks);
      && (forall i :: 0 <= i < |stream| ==> !stream[i].flags.begin)
      && st.track.counters.premature >= |stream|
      && (stream != [] ==> !IntegrityOk(st, unsubscribed))
  {
    hide Run, NeverAnswered, TsEvents, View, L.Run, L.RunTicks, Subscribes, Pass, IntegrityOk, T.Track.Lookup;
    EarlyRequestUnanswered(config, s, clock, symbol);
    UnansweredIsPremature(config, Pass(config, s, clock), steps, symbol, callbacks, unsubscribed);
  }

  // A run in which it happens.

  /** One TimeAndSale symbol, published every second. */
  const ONE_TICK := Pattern([Item(TimeAndSale, 1)], DEFAULT_PERIOD_MS, None, 0, None)

  function OnlySymbol(): string {
    Name(0, 2)
  }

  lemma OneTickFacts()
    ensures ONE_TICK.Valid() && ONE_TICK.SymbolCount() == 1 && Symbols(ONE_TICK) == [OnlySymbol()]
    ensures Suitable(ONE_TICK, 1)
  {
    var items := [Item(TimeAndSale, 1)];
    assert items[..0] == [];
    assert Total(items) == 1 && Largest(items) == 1;
    assert |D.ToString(0)| == 1;
  }

  function OneTickTask(): Task {
    OneTickFacts();
    Task(ToText(ONE_TICK), ONE_TICK, 1)
  }

  lemma OneTickRequested(config: Config)
    requires config.activeSymbols == None
    ensures Requested(config, ToText(ONE_TICK)) == Some(OneTickTask())
  {
    hide ToText, Suitable, Pattern.Valid;
    OneTickFacts();
    RoundTrip.ParseToText(ONE_TICK);
  }

  /** Subscribe, ask for the task, subscribe its profile, publish. */
  function EarlyRun(clock: Clock): seq<Step> {
    var x := OnlySymbol();
    [Enqueue(Added(TIME_SERIES, [x], [(x, 0)])), Work(clock),
     Enqueue(Start(ToText(ONE_TICK))), Work(clock),
     Enqueue(Added(Profiles, [x], [])), Work(clock),
     Work(clock)]
  }

  lemma RunPush(config: Config, s: Server, steps: seq<Step>, step: Step)
    ensures Run(config, s, steps + [step]) == Next(config, Run(config, s, steps), step)
  {
    assert (steps + [step])[..|steps|] == steps;
  }

  function OneTickSubscription(): Subscriptions {
    NO_SUBSCRIPTIONS.(timeAndSale := {OnlySymbol()})
  }

  lemma AfterRequest(config: Config, s: Server, clock: Clock)
    requires s == Initial(clock.now).(commands := [Added(TIME_SERIES, [OnlySymbol()], [(OnlySymbol(), 0)])])
    ensures Pass(config, s, clock) == Initial(clock.now).(subscribed := OneTickSubscription())
  {
    hide SnapshotEvents, Name, ToText;
    assert {} + (set x | x in [OnlySymbol()]) == {OnlySymbol()};
  }

  lemma AfterStart(config: Config, s: Server, clock: Clock)
    requires config.activeSymbols == None
    requires s == Initial(clock.now).(subscribed := OneTickSubscription(), commands := [Start(ToText(ONE_TICK))])
    ensures Pass(config, s, clock) == s.(commands := [], pending := Some(OneTickTask()))
  {
    hide SnapshotEvents, Name, ToText, Requested, Names;
    OneTickRequested(config);
    OneTickFacts();
    assert Symbols(ONE_TICK)[0] !in s.subscribed.profiles;
  }

  lemma AfterProfile(config: Config, s: Server, clock: Clock)
    requires s == Initial(clock.now).(subscribed := OneTickSubscription(), pending := Some(OneTickTask()),
                                      commands := [Added(Profiles, [OnlySymbol()], [])])
    ensures
      var after := Pass(config, s, clock);
      && after.commands == [] && after.active == Some(NewActive(OneTickTask(), clock.now))
      && after.nextTick == clock.now && after.subscribed.timeAndSale == {OnlySymbol()}
      && after.wire == ProfileEvents(Symbols(ONE_TICK))
  {
    hide SnapshotEvents, Name, ToText, Names, NewActive, ProfileEvents;
    OneTickFacts();
    assert {} + (set x | x in [OnlySymbol()]) == {OnlySymbol()};
    assert [] + ProfileEvents(Symbols(ONE_TICK)) == ProfileEvents(Symbols(ONE_TICK));
  }

  lemma OneTickTicks(random: Random)
    ensures Ticks(PublicationSlots(OneTickTask(), 0, random), OnlySymbol())
  {
    hide PoolOrder, Name, ToText, SlotAt;
    OneTickFacts();
    var t := OneTickTask();
    var order := OrderOf(t, 0, random);
    SlotRoundRobin(t, 0, 0, 0, random);
    assert order[..0] == [] && order[0] == 0;
    var slots := PublicationSlots(t, 0, random);
    assert SlotsInOrder(t, 0, order[..0], random) == [];
    assert [] + BlockSlots(t, 0, 0, random) == BlockSlots(t, 0, 0, random);
    assert slots == BlockSlots(t, 0, 0, random);
    assert slots[0].kind.TimeAndSale? && slots[0].symbol == OnlySymbol();
  }

  /** From any start, that run publishes a first TimeAndSale event that does not begin a snapshot. */
  lemma EarlyRunPremature(config: Config, clock: Clock)
    requires config.activeSymbols == None
    ensures
      var wire := Run(config, Initial(clock.now), EarlyRun(clock)).wire;
      TsEvents(wire, OnlySymbol()) != [] && !Begins(wire, OnlySymbol())
  {
    hide Run, Pass, TsEvents, Name, ToText, Ticks, PublicationSlots, Updates, Appended;
    var x := OnlySymbol();
    var ready := EarlyRunReady(config, clock);
    var step := Work(clock);
    OneTickTicks(config.random);
    assert Updates(config, ready, step, x) by { ReadyUpdates(config, ready, clock); }
    var live := UnansweredStep(config, ready, step, x);
    WireGrows(config, ready, step);
    ProfilesTs(Symbols(ONE_TICK), x);
    AppendBegins(ready.wire, Appended(config, ready, step), x);
    LiveNeverBegins(x, live);
    EarlyRunSplit(config, clock);
  }

  lemma ReadyUpdates(config: Config, s: Server, clock: Clock)
    requires s.commands == [] && s.active == Some(NewActive(OneTickTask(), clock.now))
    requires s.nextTick == clock.now && s.subscribed.timeAndSale == {OnlySymbol()}
    ensures Updates(config, s, Work(clock), OnlySymbol())
  {
    hide Ticks, PublicationSlots, Name, ToText;
    OneTickTicks(config.random);
  }

  lemma EarlyRunSplit(config: Config, clock: Clock)
    ensures Run(config, Initial(clock.now), EarlyRun(clock))
         == Next(config, Run(config, Initial(clock.now), EarlyRun(clock)[..6]), Work(clock))
  {
    hide Next, Name, ToText;
    var steps := EarlyRun(clock);
    assert steps == steps[..6] + [steps[6]];
    RunPush(config, Initial(clock.now), steps[..6], steps[6]);
  }

  lemma EarlyRunReady(config: Config, clock: Clock) returns (s: Server)
    requires config.activeSymbols == None
    ensures s == Run(config, Initial(clock.now), EarlyRun(clock)[..6])
    ensures s.commands == [] && s.active == Some(NewActive(OneTickTask(), clock.now))
    ensures s.nextTick == clock.now && s.subscribed.timeAndSale == {OnlySymbol()}
    ensures s.wire == ProfileEvents(Symbols(ONE_TICK))
  {
    hide Run, Pass, Name, ToText, NewActive, Names, ProfileEvents;
    var steps, start := EarlyRun(clock), Initial(clock.now);
    assert steps[..1] == [] + [steps[0]] && steps[..2] == steps[..1] + [steps[1]];
    assert steps[..3] == steps[..2] + [steps[2]] && steps[..4] == steps[..3] + [steps[3]];
    assert steps[..5] == steps[..4] + [steps[4]] && steps[..6] == steps[..5] + [steps[5]];
    RunNothing(config, start);
    RunPush(config, start, [], steps[0]);
    RunPush(config, start, steps[..1], steps[1]);
    AfterRequest(config, Run(config, start, steps[..1]), clock);
    RunPush(config, start, steps[..2], steps[2]);
    RunPush(config, start, steps[..3], steps[3]);
    AfterStart(config, Run(config, start, steps[..3]), clock);
    RunPush(config, start, steps[..4], steps[4]);
    RunPush(config, start, steps[..5], steps[5]);
    AfterProfile(config, Run(config, start, steps[..5]), clock);
    s := Run(config, start, steps[..6]);
  }

  lemma RunNothing(config: Config, s: Server)
    ensures Run(config, s, []) == s
  {
  }
}
