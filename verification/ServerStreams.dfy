/** What each pass of the server puts on the wire, and the TimeAndSale stream of each symbol. */
module ServerStreams {
  import opened Events
  import opened History
  import opened GeneratorModel
  import opened PublicationLaws
  import opened SnapshotProtocol
  import SymbolUniverse

  /** The TimeAndSale events of one symbol, in wire order. */
  function TsEvents(wire: seq<WireEvent>, symbol: string): (r: seq<WireEvent>)
    ensures forall i :: 0 <= i < |r| ==> r[i].TimeAndSaleEvent?
  {
    if wire == [] then [] else
    var last := wire[|wire| - 1];
    TsEvents(wire[..|wire| - 1], symbol) + if last.TimeAndSaleEvent? && last.symbol == symbol then [last] else []
  }

  lemma {:induction false} TsAppend(a: seq<WireEvent>, b: seq<WireEvent>, symbol: string)
    ensures TsEvents(a + b, symbol) == TsEvents(a, symbol) + TsEvents(b, symbol)
  {
    if b == [] {
      assert a + b == a;
    } else {
      TsAppend(a, b[..|b| - 1], symbol);
      assert (a + b)[..|a + b| - 1] == a + b[..|b| - 1];
    }
  }

  lemma {:induction false} NoTs(events: seq<WireEvent>, symbol: string)
    requires forall i :: 0 <= i < |events| ==> !(events[i].TimeAndSaleEvent? && events[i].symbol == symbol)
    ensures TsEvents(events, symbol) == []
  {
    if events != [] {
      NoTs(events[..|events| - 1], symbol);
    }
  }

  lemma {:induction false} AllTs(events: seq<WireEvent>, symbol: string)
    requires forall i :: 0 <= i < |events| ==> events[i].TimeAndSaleEvent? && events[i].symbol == symbol
    ensures TsEvents(events, symbol) == events
  {
    if events != [] {
      AllTs(events[..|events| - 1], symbol);
      assert events == events[..|events| - 1] + [events[|events| - 1]];
    }
  }

  // Publications.

  /** The event of one slot, unless it is a TimeAndSale event of an unsubscribed symbol. */
  function SlotEvents(slot: Slot, stamp: Stamp, subscribed: set<string>): seq<WireEvent> {
    if slot.kind.TimeAndSale? && slot.symbol !in subscribed then [] else [EventFor(slot.kind, slot.symbol, stamp)]
  }

  lemma SlotTs(slot: Slot, stamp: Stamp, subscribed: set<string>, symbol: string)
    ensures
      var mine := slot.kind.TimeAndSale? && slot.symbol == symbol && symbol in subscribed;
      TsEvents(SlotEvents(slot, stamp, subscribed), symbol) == LiveEvents(symbol, if mine then [RecordOf(stamp)] else [])
  {
    var events := SlotEvents(slot, stamp, subscribed);
    if slot.kind.TimeAndSale? && slot.symbol == symbol && symbol in subscribed {
      AllTs(events, symbol);
    } else {
      NoTs(events, symbol);
    }
  }

  /** What a publication brings live to a symbol: its record, if the symbol is subscribed and updated. */
  function LiveRecords(slots: seq<Slot>, stamp: Stamp, subscribed: set<string>, symbol: string): seq<Record> {
    if symbol in subscribed && Ticks(slots, symbol) then [RecordOf(stamp)] else []
  }

  lemma {:induction false} EmittedTs(slots: seq<Slot>, stamp: Stamp, subscribed: set<string>, symbol: string)
    requires DistinctSlots(slots)
    ensures TsEvents(Emitted(slots, stamp, subscribed), symbol)
         == LiveEvents(symbol, LiveRecords(slots, stamp, subscribed, symbol))
  {
    hide EventFor, TsEvents, EventOf;
    if slots == [] {
      EmptyTs(symbol);
    } else {
      var front, last := slots[..|slots| - 1], slots[|slots| - 1];
      EmittedTs(front, stamp, subscribed, symbol);
      TsAppend(Emitted(front, stamp, subscribed), SlotEvents(last, stamp, subscribed), symbol);
      SlotTs(last, stamp, subscribed, symbol);
      LastTicks(slots, symbol);
      var mine := last.kind.TimeAndSale? && last.symbol == symbol && symbol in subscribed;
      var before, more := LiveRecords(front, stamp, subscribed, symbol), if mine then [RecordOf(stamp)] else [];
      assert LiveEvents(symbol, before) + LiveEvents(symbol, more) == LiveEvents(symbol, before + more);
    }
  }

  lemma PublicationTs(config: Config, a: Active, subscribed: set<string>, nowNanos: nat, symbol: string)
    ensures
      var slots, stamp := PublicationSlots(a.task, a.publications, config.random), NextStamp(config, a, nowNanos);
      TsEvents(PublicationEvents(config, a, subscribed, nowNanos), symbol)
      == LiveEvents(symbol, LiveRecords(slots, stamp, subscribed, symbol))
  {
    hide FillSlots, PublicationSlots, Emitted, EventFor, Ticks, LiveRecords;
    var slots, stamp := PublicationSlots(a.task, a.publications, config.random), NextStamp(config, a, nowNanos);
    FilledEvents(Draft([], a.logs, a.routes), slots, stamp, subscribed);
    PublicationDistinct(a.task, a.publications, config.random);
    EmittedTs(slots, stamp, subscribed, symbol);
    NoTs([MarkerOf(stamp)], symbol);
    TsAppend(DraftOf(config, a, subscribed, nowNanos).events, [MarkerOf(stamp)], symbol);
    assert [] + Emitted(slots, stamp, subscribed) == Emitted(slots, stamp, subscribed);
  }

  // Snapshots.

  predicate Asks(requests: Requests, symbol: string) {
    exists i :: 0 <= i < |requests| && requests[i].0 == symbol
  }

  ghost predicate DistinctRequests(requests: Requests) {
    forall i, j :: 0 <= i < j < |requests| ==> requests[i].0 != requests[j].0
  }

  lemma BlockTs(owner: string, h: History, fromTime: int, symbol: string)
    ensures TsEvents(SnapshotBlock(owner, h, fromTime), symbol)
         == if owner == symbol then SnapshotBlock(owner, h, fromTime) else []
  {
    hide SnapshotBlock, InFrame;
    var block := SnapshotBlock(owner, h, fromTime);
    forall i | 0 <= i < |block| ensures block[i].TimeAndSaleEvent? && block[i].symbol == owner {
      BlockShape(owner, h, fromTime, i);
    }
    if owner == symbol {
      AllTs(block, symbol);
    } else {
      NoTs(block, symbol);
    }
  }

  /** The first answered request of a symbol starts its answer, so the answer starts with BEGIN. */
  lemma {:induction false} SnapshotsBegin(logs: Logs, limit: nat, requests: Requests, symbol: string)
    ensures
      var ts := TsEvents(SnapshotEvents(logs, limit, requests), symbol);
      (ts != [] <==> Asks(requests, symbol)) && (ts != [] ==> ts[0].flags.begin)
  {
    hide SnapshotBlock, InFrame, RetainedAll;
    if requests != [] {
      var front, last := requests[..|requests| - 1], requests[|requests| - 1];
      SnapshotsBegin(logs, limit, front, symbol);
      AsksLast(requests, symbol);
      var h := RetainedAll(LogOf(logs, last.0), limit);
      TsAppend(SnapshotEvents(logs, limit, front), SnapshotBlock(last.0, h, last.1), symbol);
      BlockTs(last.0, h, last.1, symbol);
      BlockBegins(last.0, h, last.1);
    }
  }

  lemma BlockBegins(symbol: string, h: History, fromTime: int)
    ensures
      var block := SnapshotBlock(symbol, h, fromTime);
      block != [] && block[0].TimeAndSaleEvent? && block[0].flags.begin
  {
    hide SnapshotBlock;
    BlockNonEmpty(symbol, h, fromTime);
    BlockShape(symbol, h, fromTime, 0);
  }

  lemma AsksLast(requests: Requests, symbol: string)
    requires requests != []
    ensures Asks(requests, symbol) <==> Asks(requests[..|requests| - 1], symbol) || requests[|requests| - 1].0 == symbol
  {
    var front := requests[..|requests| - 1];
    if Asks(front, symbol) {
      var i :| 0 <= i < |front| && front[i].0 == symbol;
      assert requests[i].0 == symbol;
    }
    if Asks(requests, symbol) && requests[|requests| - 1].0 != symbol {
      var i :| 0 <= i < |requests| && requests[i].0 == symbol;
      assert front[i].0 == symbol;
    }
    assert requests[|requests| - 1].0 == symbol ==> Asks(requests, symbol);
  }

  /** With one request per symbol, the answer is that symbol's block. */
  lemma {:induction false} SnapshotsTs(logs: Logs, limit: nat, requests: Requests, symbol: string) returns (fromTime: int)
    requires DistinctRequests(requests)
    ensures Asks(requests, symbol) ==> (symbol, fromTime) in requests
    ensures TsEvents(SnapshotEvents(logs, limit, requests), symbol)
         == if Asks(requests, symbol) then SnapshotBlock(symbol, RetainedAll(LogOf(logs, symbol), limit), fromTime) else []
  {
    hide SnapshotBlock, RetainedAll, TsEvents, Asks, LogOf, DistinctRequests;
    fromTime := 0;
    if requests == [] {
      EmptyTs(symbol);
      NothingAsked(symbol);
    } else {
      var front, last := requests[..|requests| - 1], requests[|requests| - 1];
      FrontRequests(requests);
      fromTime := SnapshotsTs(logs, limit, front, symbol);
      AsksLast(requests, symbol);
      var h := RetainedAll(LogOf(logs, last.0), limit);
      TsAppend(SnapshotEvents(logs, limit, front), SnapshotBlock(last.0, h, last.1), symbol);
      BlockTs(last.0, h, last.1, symbol);
      if last.0 == symbol {
        NotAskedBefore(requests, symbol);
        fromTime := last.1;
      }
    }
  }

  lemma NothingAsked(symbol: string)
    ensures !Asks([], symbol)
  {
  }

  lemma FrontRequests(requests: Requests)
    requires requests != [] && DistinctRequests(requests)
    ensures DistinctRequests(requests[..|requests| - 1]) && requests[|requests| - 1] in requests
    ensures forall x :: x in requests[..|requests| - 1] ==> x in requests
  {
    var front := requests[..|requests| - 1];
    assert forall i :: 0 <= i < |front| ==> front[i] == requests[i];
  }

  lemma NotAskedBefore(requests: Requests, symbol: string)
    requires requests != [] && DistinctRequests(requests) && requests[|requests| - 1].0 == symbol
    ensures !Asks(requests[..|requests| - 1], symbol)
  {
    var front := requests[..|requests| - 1];
    assert forall i :: 0 <= i < |front| ==> front[i] == requests[i];
  }

  lemma ProfilesTs(symbols: seq<string>, symbol: string)
    ensures TsEvents(ProfileEvents(symbols), symbol) == []
  {
    NoTs(ProfileEvents(symbols), symbol);
  }

  // Passes.

  /** Handling this command would subscribe TimeAndSale symbols. */
  predicate Subscribes(s: Server, step: Step) {
    step.Work? && s.commands != [] && s.commands[0].Added? && s.commands[0].topic == TIME_SERIES
  }

  /** A pass that publishes. */
  predicate Publishes(s: Server, step: Step) {
    step.Work? && s.commands == [] && s.active.Some? && step.clock.now >= s.nextTick
  }

  /** What a pass appends to the wire, and how it changes the TimeAndSale subscriptions. */
  function Appended(config: Config, s: Server, step: Step): seq<WireEvent> {
    if !step.Work? then [] else
    if s.commands != [] then
      var popped := s.(commands := s.commands[1..]);
      var after := Apply(config, popped, s.commands[0]);
      (if s.commands[0].Start? || s.commands[0].Stop? then [] else Answered(config, popped, s.commands[0]))
      + (if after.pending.Some? && after.active.None? && Ready(after.subscribed, after.pending.value)
         then ProfileEvents(SymbolsOf(after.pending.value)) else [])
    else if s.active.Some? && step.clock.now >= s.nextTick then
      PublicationEvents(config, s.active.value, s.subscribed.timeAndSale, step.clock.nowNanos)
    else []
  }

  function SymbolsOf(t: Task): seq<string> {
    SymbolUniverse.Symbols(t.pattern)
  }

  lemma WireGrows(config: Config, s: Server, step: Step)
    ensures Next(config, s, step).wire == s.wire + Appended(config, s, step)
  {
    hide Ready, Requested, Answered, Subscribed, PublicationEvents, Published, NewActive, ProfileEvents, SkippedDeadlines;
    assert s.wire + [] == s.wire;
  }

  lemma TopicTs(subscribed: Subscriptions, topic: Topic, value: set<string>)
    ensures subscribed.Put(topic, value).timeAndSale == if topic == TIME_SERIES then value else subscribed.timeAndSale
    ensures subscribed.At(TIME_SERIES) == subscribed.timeAndSale
  {
  }

  /** Only handling such a command subscribes further TimeAndSale symbols. */
  lemma SubscribedGrows(config: Config, s: Server, step: Step, symbol: string)
    requires symbol in Next(config, s, step).subscribed.timeAndSale
    ensures symbol in s.subscribed.timeAndSale || (Subscribes(s, step) && symbol in s.commands[0].symbols)
  {
    hide Ready, Requested, Answered, PublicationEvents, Published, NewActive, ProfileEvents, SkippedDeadlines,
      PerTopic.Put, PerTopic.At;
    if step.Work? && s.commands != [] {
      var c := s.commands[0];
      match c
      case Added(topic, symbols, _) => TopicTs(s.subscribed, topic, s.subscribed.At(topic) + (set x | x in symbols));
      case Removed(topic, symbols, _) => TopicTs(s.subscribed, topic, s.subscribed.At(topic) - (set x | x in symbols));
      case Closed(topic) => TopicTs(s.subscribed, topic, {});
      case _ =>
    }
  }

  /** A publication that updates a subscribed TimeAndSale symbol. */
  predicate Updates(config: Config, s: Server, step: Step, symbol: string) {
    && Publishes(s, step) && symbol in s.subscribed.timeAndSale
    && Ticks(PublicationSlots(s.active.value.task, s.active.value.publications, config.random), symbol)
  }

  /** A pass gives a symbol the answers to requests for it, or its new record live when it updates it, or nothing. */
  lemma AppendedTs(config: Config, s: Server, step: Step, symbol: string) returns (live: seq<Record>)
    ensures Subscribes(s, step) && s.active.Some? ==>
      TsEvents(Appended(config, s, step), symbol)
      == TsEvents(SnapshotEvents(s.active.value.logs, config.historyLimit, s.commands[0].requests), symbol)
    ensures !(Subscribes(s, step) && s.active.Some?) ==>
      TsEvents(Appended(config, s, step), symbol) == LiveEvents(symbol, live)
    ensures live == if Updates(config, s, step, symbol)
                    then [RecordOf(NextStamp(config, s.active.value, step.clock.nowNanos))] else []
  {
    hide Ready, Requested, SnapshotEvents, Subscribed, PublicationEvents, NewActive, ProfileEvents, TsEvents, SymbolsOf,
      Ticks, PublicationSlots, RecordOf, NextStamp;
    live := [];
    assert LiveEvents(symbol, []) == [];
    EmptyTs(symbol);
    if step.Work? && s.commands != [] {
      CommandTs(config, s, step, symbol);
    } else if Publishes(s, step) {
      var a := s.active.value;
      live := LiveRecords(PublicationSlots(a.task, a.publications, config.random),
                          NextStamp(config, a, step.clock.nowNanos), s.subscribed.timeAndSale, symbol);
      PublicationTs(config, a, s.subscribed.timeAndSale, step.clock.nowNanos, symbol);
    }
  }

  lemma EmptyTs(symbol: string)
    ensures TsEvents([], symbol) == []
  {
  }

  lemma CommandTs(config: Config, s: Server, step: Step, symbol: string)
    requires step.Work? && s.commands != []
    ensures
      var answer := if Subscribes(s, step) && s.active.Some?
                    then SnapshotEvents(s.active.value.logs, config.historyLimit, s.commands[0].requests) else [];
      TsEvents(Appended(config, s, step), symbol) == TsEvents(answer, symbol)
  {
    hide Ready, Requested, SnapshotEvents, Subscribed, NewActive, ProfileEvents, TsEvents, SymbolsOf;
    var popped := s.(commands := s.commands[1..]);
    var after := Apply(config, popped, s.commands[0]);
    var answer := if s.commands[0].Start? || s.commands[0].Stop? then [] else Answered(config, popped, s.commands[0]);
    var profiles := if after.pending.Some? && after.active.None? && Ready(after.subscribed, after.pending.value)
                    then ProfileEvents(SymbolsOf(after.pending.value)) else [];
    TsAppend(answer, profiles, symbol);
    if profiles != [] {
      ProfilesTs(SymbolsOf(after.pending.value), symbol);
    } else {
      EmptyTs(symbol);
    }
  }

  // Runs.

  /** Not a stop command that ends the active task. */
  predicate Unstopped(s: Server, step: Step) {
    step.Work? && s.commands != [] && s.commands[0].Stop? && s.active.Some? ==>
      !Stops(s.commands[0].text, s.active.value.task.command)
  }

  /** A task is active and none is pending. */
  predicate Serving(s: Server, t: Task) {
    s.active.Some? && s.pending.None? && s.active.value.task == t
  }

  /** What a run puts on the wire. */
  function Sent(config: Config, s: Server, steps: seq<Step>): seq<WireEvent> {
    if steps == [] then [] else
    var front := steps[..|steps| - 1];
    Sent(config, s, front) + Appended(config, Run(config, s, front), steps[|steps| - 1])
  }

  /** What the wire has gained between two states of a run. */
  function WireSince(before: Server, after: Server): seq<WireEvent> {
    if |before.wire| <= |after.wire| then after.wire[|before.wire|..] else []
  }

  /** The wire only grows, by what is sent. */
  lemma {:induction false} SentIsWire(config: Config, s: Server, steps: seq<Step>)
    ensures Run(config, s, steps).wire == s.wire + Sent(config, s, steps)
    ensures WireSince(s, Run(config, s, steps)) == Sent(config, s, steps)
  {
    hide Next, Appended;
    if steps == [] {
      assert s.wire + [] == s.wire;
    } else {
      SentIsWire(config, s, steps[..|steps| - 1]);
      WireGrows(config, Run(config, s, steps[..|steps| - 1]), steps[|steps| - 1]);
    }
  }

  /** Events that take no part in correlation. */
  predicate Irrelevant(events: seq<WireEvent>) {
    forall i :: 0 <= i < |events| ==> events[i].TimeAndSaleEvent? || events[i].ProfileEvent?
  }

  lemma IrrelevantAppend(a: seq<WireEvent>, b: seq<WireEvent>)
    requires Irrelevant(a) && Irrelevant(b)
    ensures Irrelevant(a + b)
  {
  }

  lemma {:induction false} SnapshotsIrrelevant(logs: Logs, limit: nat, requests: Requests)
    ensures Irrelevant(SnapshotEvents(logs, limit, requests))
  {
    hide SnapshotBlock, RetainedAll, InFrame;
    if requests != [] {
      var front, last := requests[..|requests| - 1], requests[|requests| - 1];
      SnapshotsIrrelevant(logs, limit, front);
      var h := RetainedAll(LogOf(logs, last.0), limit);
      var block := SnapshotBlock(last.0, h, last.1);
      forall i | 0 <= i < |block| ensures block[i].TimeAndSaleEvent? {
        BlockShape(last.0, h, last.1, i);
      }
      IrrelevantAppend(SnapshotEvents(logs, limit, front), block);
    }
  }

  /** Between publications the active task stays as it is, and only snapshots are sent. */
  lemma CommandServing(config: Config, s: Server, step: Step, t: Task)
    requires Serving(s, t) && Unstopped(s, step) && !Publishes(s, step)
    ensures Serving(Next(config, s, step), t) && Next(config, s, step).active == s.active
    ensures Irrelevant(Appended(config, s, step))
  {
    hide Ready, Requested, SnapshotEvents, Subscribed, PublicationEvents, Published, NewActive, ProfileEvents, SymbolsOf;
    if step.Work? && s.commands != [] {
      var c := s.commands[0];
      if c.Added? {
        SnapshotsIrrelevant(s.active.value.logs, config.historyLimit, c.requests);
      }
      var answer := if c.Start? || c.Stop? then [] else Answered(config, s.(commands := s.commands[1..]), c);
      assert Appended(config, s, step) == answer + [] == answer;
    }
  }
}
