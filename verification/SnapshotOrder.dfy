/** When the first TimeAndSale event of every symbol begins a snapshot, and what follows when it does not. */
module SnapshotOrder {
  import opened Events
  import opened History
  import opened GeneratorModel
  import opened PublicationLaws
  import opened ServerStreams
  import opened SnapshotProtocol

  predicate Begins(wire: seq<WireEvent>, symbol: string) {
    TsEvents(wire, symbol) != [] && TsEvents(wire, symbol)[0].flags.begin
  }

  lemma AppendBegins(a: seq<WireEvent>, b: seq<WireEvent>, symbol: string)
    ensures TsEvents(a, symbol) != [] ==> TsEvents(a + b, symbol) != [] && (Begins(a + b, symbol) <==> Begins(a, symbol))
    ensures TsEvents(a, symbol) == [] ==> TsEvents(a + b, symbol) == TsEvents(b, symbol)
    ensures TsEvents(b, symbol) == [] ==> TsEvents(a + b, symbol) == TsEvents(a, symbol)
  {
    hide TsEvents;
    TsAppend(a, b, symbol);
  }

  lemma LiveNeverBegins(symbol: string, live: seq<Record>)
    ensures forall i :: 0 <= i < |LiveEvents(symbol, live)| ==> !LiveEvents(symbol, live)[i].flags.begin
    ensures LiveEvents(symbol, live) == [] <==> live == []
  {
  }

  // Exactly when every first event begins a snapshot.

  /** The first TimeAndSale event of every symbol carries SNAPSHOT_BEGIN. */
  ghost predicate FirstBegins(s: Server) {
    forall symbol :: TsEvents(s.wire, symbol) == [] || Begins(s.wire, symbol)
  }

  /** A publication that updates a subscribed symbol for which nothing has been published. */
  ghost predicate UpdatesUnbegun(config: Config, s: Server, step: Step) {
    exists symbol :: TsEvents(s.wire, symbol) == [] && Updates(config, s, step, symbol)
  }

  lemma SymbolFirstBegins(config: Config, s: Server, step: Step, symbol: string)
    requires TsEvents(s.wire, symbol) == [] || Begins(s.wire, symbol)
    ensures
      var wire := Next(config, s, step).wire;
      (TsEvents(wire, symbol) == [] || Begins(wire, symbol))
      <==> !(TsEvents(s.wire, symbol) == [] && Updates(config, s, step, symbol))
  {
    hide Next, TsEvents, Appended, SnapshotEvents, Updates, LiveEvents;
    WireGrows(config, s, step);
    var live := AppendedTs(config, s, step, symbol);
    AppendBegins(s.wire, Appended(config, s, step), symbol);
    LiveNeverBegins(symbol, live);
    if Subscribes(s, step) && s.active.Some? {
      SnapshotsBegin(s.active.value.logs, config.historyLimit, s.commands[0].requests, symbol);
      SubscribesNotUpdates(config, s, step, symbol);
    }
  }

  lemma SubscribesNotUpdates(config: Config, s: Server, step: Step, symbol: string)
    requires Subscribes(s, step)
    ensures !Updates(config, s, step, symbol)
  {
  }

  lemma NextFirstBegins(config: Config, s: Server, step: Step)
    requires FirstBegins(s)
    ensures FirstBegins(Next(config, s, step)) <==> !UpdatesUnbegun(config, s, step)
  {
    hide Next, TsEvents, Begins, Updates;
    forall symbol
      ensures TsEvents(Next(config, s, step).wire, symbol) == [] || Begins(Next(config, s, step).wire, symbol)
              <==> !(TsEvents(s.wire, symbol) == [] && Updates(config, s, step, symbol))
    {
      SymbolFirstBegins(config, s, step, symbol);
    }
  }

  /** A symbol that began otherwise never recovers. */
  lemma NextKeepsFirst(config: Config, s: Server, step: Step)
    requires !FirstBegins(s)
    ensures !FirstBegins(Next(config, s, step))
  {
    hide Next, TsEvents, Begins, Appended;
    var symbol :| TsEvents(s.wire, symbol) != [] && !Begins(s.wire, symbol);
    WireGrows(config, s, step);
    AppendBegins(s.wire, Appended(config, s, step), symbol);
  }

  /** No step of a run updates a symbol that is subscribed but has not begun. */
  ghost predicate NeverUpdatesUnbegun(config: Config, s: Server, steps: seq<Step>) {
    if steps == [] then true else
    var front := steps[..|steps| - 1];
    NeverUpdatesUnbegun(config, s, front) && !UpdatesUnbegun(config, Run(config, s, front), steps[|steps| - 1])
  }

  /**
   * For every run: the first TimeAndSale event of every symbol carries SNAPSHOT_BEGIN exactly when no publication
   * updates a symbol that is subscribed although nothing has been published for it.
   */
  lemma {:induction false} FirstEventIff(config: Config, now: int, steps: seq<Step>)
    ensures FirstBegins(Run(config, Initial(now), steps)) <==> NeverUpdatesUnbegun(config, Initial(now), steps)
  {
    hide Next, FirstBegins, UpdatesUnbegun;
    if steps == [] {
      NothingBegun(now);
    } else {
      var front, last := steps[..|steps| - 1], steps[|steps| - 1];
      FirstEventIff(config, now, front);
      if FirstBegins(Run(config, Initial(now), front)) {
        NextFirstBegins(config, Run(config, Initial(now), front), last);
      } else {
        NextKeepsFirst(config, Run(config, Initial(now), front), last);
      }
    }
  }

  lemma NothingBegun(now: int)
    ensures FirstBegins(Initial(now)) && BeginFirst(Initial(now))
  {
  }

  // Exactly when subscribing is safe.

  /** Every symbol that a command subscribes has begun already, or is requested by it while a task is active. */
  predicate LateRequest(s: Server, step: Step) {
    Subscribes(s, step) ==>
      forall i :: 0 <= i < |s.commands[0].symbols| ==>
        || Begins(s.wire, s.commands[0].symbols[i])
        || (s.active.Some? && Asks(s.commands[0].requests, s.commands[0].symbols[i]))
  }

  ghost predicate LateRequests(config: Config, s: Server, steps: seq<Step>) {
    if steps == [] then true else
    var front := steps[..|steps| - 1];
    LateRequests(config, s, front) && LateRequest(Run(config, s, front), steps[|steps| - 1])
  }

  /** First events begin snapshots, and every subscribed symbol has begun: no publication can go wrong. */
  ghost predicate BeginFirst(s: Server) {
    FirstBegins(s) && forall symbol :: symbol in s.subscribed.timeAndSale ==> Begins(s.wire, symbol)
  }

  lemma BegunNotUnbegun(config: Config, s: Server, step: Step)
    requires BeginFirst(s)
    ensures !UpdatesUnbegun(config, s, step)
  {
    hide TsEvents, PublicationSlots, Ticks;
  }

  lemma SubscribedBegins(config: Config, s: Server, step: Step, symbol: string)
    requires BeginFirst(s) && LateRequest(s, step) && symbol in Next(config, s, step).subscribed.timeAndSale
    ensures Begins(Next(config, s, step).wire, symbol)
  {
    hide Next, TsEvents, Appended, SnapshotEvents, Updates, LiveEvents;
    WireGrows(config, s, step);
    SubscribedGrows(config, s, step, symbol);
    AppendBegins(s.wire, Appended(config, s, step), symbol);
    var live := AppendedTs(config, s, step, symbol);
    if Subscribes(s, step) && s.active.Some? {
      SnapshotsBegin(s.active.value.logs, config.historyLimit, s.commands[0].requests, symbol);
    }
  }

  /** A symbol subscribed otherwise is left without a begun snapshot. */
  lemma SubscribedUnbegun(config: Config, s: Server, step: Step, i: nat)
    requires BeginFirst(s) && Subscribes(s, step) && i < |s.commands[0].symbols|
    requires !Begins(s.wire, s.commands[0].symbols[i])
    requires !(s.active.Some? && Asks(s.commands[0].requests, s.commands[0].symbols[i]))
    ensures s.commands[0].symbols[i] in Next(config, s, step).subscribed.timeAndSale
    ensures TsEvents(Next(config, s, step).wire, s.commands[0].symbols[i]) == []
  {
    var symbol := s.commands[0].symbols[i];
    AddedSubscribed(config, s, step, symbol);
    UnansweredEmpty(config, s, step, symbol);
  }

  lemma AddedSubscribed(config: Config, s: Server, step: Step, symbol: string)
    requires Subscribes(s, step) && symbol in s.commands[0].symbols
    ensures symbol in Next(config, s, step).subscribed.timeAndSale
  {
    hide Ready, NewActive, ProfileEvents, PerTopic.Put, PerTopic.At, Answered;
    TopicTs(s.subscribed, TIME_SERIES, s.subscribed.At(TIME_SERIES) + (set x | x in s.commands[0].symbols));
  }

  lemma UnansweredEmpty(config: Config, s: Server, step: Step, symbol: string)
    requires Subscribes(s, step) && TsEvents(s.wire, symbol) == []
    requires !(s.active.Some? && Asks(s.commands[0].requests, symbol))
    ensures TsEvents(Next(config, s, step).wire, symbol) == []
  {
    hide Next, TsEvents, Appended, SnapshotEvents, Updates, LiveEvents;
    WireGrows(config, s, step);
    AppendBegins(s.wire, Appended(config, s, step), symbol);
    var live := AppendedTs(config, s, step, symbol);
    LiveNeverBegins(symbol, live);
    SubscribesNotUpdates(config, s, step, symbol);
    if s.active.Some? {
      SnapshotsBegin(s.active.value.logs, config.historyLimit, s.commands[0].requests, symbol);
    }
  }

  /** Subscribing keeps all begun exactly when every added symbol has begun or is answered. */
  lemma NextBeginFirst(config: Config, s: Server, step: Step)
    requires BeginFirst(s)
    ensures BeginFirst(Next(config, s, step)) <==> LateRequest(s, step)
  {
    hide Next, TsEvents, FirstBegins, UpdatesUnbegun;
    BegunNotUnbegun(config, s, step);
    NextFirstBegins(config, s, step);
    var after := Next(config, s, step);
    if LateRequest(s, step) {
      forall symbol | symbol in after.subscribed.timeAndSale ensures Begins(after.wire, symbol) {
        SubscribedBegins(config, s, step, symbol);
      }
    } else {
      var i :| 0 <= i < |s.commands[0].symbols| && !Begins(s.wire, s.commands[0].symbols[i])
               && !(s.active.Some? && Asks(s.commands[0].requests, s.commands[0].symbols[i]));
      SubscribedUnbegun(config, s, step, i);
    }
  }

  /** All states of a run. */
  ghost predicate AlwaysBeginFirst(config: Config, s: Server, steps: seq<Step>) {
    forall n :: 0 <= n <= |steps| ==> BeginFirst(Run(config, s, steps[..n]))
  }

  /**
   * For every run: at every point all first events begin snapshots and all subscribed symbols have begun, exactly when
   * every symbol added to the TimeAndSale subscription had begun or was requested while a task was active.
   */
  lemma {:induction false} FirstEventBegins(config: Config, now: int, steps: seq<Step>)
    ensures AlwaysBeginFirst(config, Initial(now), steps) <==> LateRequests(config, Initial(now), steps)
  {
    hide Next, LateRequest, BeginFirst;
    if steps == [] {
      NothingBegun(now);
    } else {
      var front, last := steps[..|steps| - 1], steps[|steps| - 1];
      FirstEventBegins(config, now, front);
      AlwaysFront(config, Initial(now), steps);
      if AlwaysBeginFirst(config, Initial(now), front) {
        assert front[..|front|] == front;
        NextBeginFirst(config, Run(config, Initial(now), front), last);
      }
    }
  }

  lemma AlwaysFront(config: Config, s: Server, steps: seq<Step>)
    requires steps != []
    ensures AlwaysBeginFirst(config, s, steps) <==>
      AlwaysBeginFirst(config, s, steps[..|steps| - 1]) && BeginFirst(Run(config, s, steps))
  {
    hide BeginFirst, Run;
    var front := steps[..|steps| - 1];
    assert forall n :: 0 <= n <= |front| ==> front[..n] == steps[..n];
    assert steps[..|steps|] == steps;
    forall n | 0 <= n <= |steps| ensures n == |steps| || steps[..n] == front[..n] {
    }
  }
}
