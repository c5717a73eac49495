/** The generator as it runs: a worker that handles commands and publishes, updating its state (src/server.cpp). */
module GeneratorObject {
  import opened Common
  import opened Events
  import opened History
  import opened Publication
  import opened SymbolUniverse
  import opened TaskPattern
  import opened GeneratorModel
  import Markers
  import TaskParser

  /** Each bounded history holds what its symbol's full log leaves under the limit. */
  ghost predicate Bounded(history: map<string, History>, logs: Logs, limit: nat) {
    history.Keys == logs.Keys && forall s :: s in logs ==> history[s] == RetainedAll(logs[s], limit)
  }

  lemma RetainedStep(log: seq<Record>, r: Record, limit: nat)
    ensures RetainedAll(log + [r], limit) == Retained(RetainedAll(log, limit), r, limit)
  {
    assert (log + [r])[..|log|] == log;
  }

  lemma {:induction false} FillAppend(d: Draft, a: seq<Slot>, b: seq<Slot>, stamp: Stamp, subscribed: set<string>)
    ensures FillSlots(d, a + b, stamp, subscribed) == FillSlots(FillSlots(d, a, stamp, subscribed), b, stamp, subscribed)
  {
    hide Fill;
    if b == [] {
      assert a + b == a;
    } else {
      FillAppend(d, a, b[..|b| - 1], stamp, subscribed);
      assert (a + b)[..|a + b| - 1] == a + b[..|b| - 1];
    }
  }

  class ActiveTask {
    const config: Config
    const task: Task
    const pools: seq<Pool>
    const poolOrder: array<nat>
    ghost const firstTick: int
    var history: map<string, History>
    ghost var logs: Logs
    var tick: nat
    var publications: nat
    var skipped: nat
    var routes: Routes
    var lastBlocks: PerTopic<nat>

    ghost predicate Valid()
      reads this`history, this`logs
    {
      && pools == Pools(task.pattern, task.active)
      && poolOrder.Length == |pools|
      && Bounded(history, logs, config.historyLimit)
    }

    ghost function Contents(): Active
      reads this
    {
      Active(task, logs, tick, publications, skipped, routes, lastBlocks, firstTick)
    }

    constructor (config: Config, task: Task, ghost firstTick: int)
      ensures Valid() && this.config == config && fresh(poolOrder)
      ensures Contents() == NewActive(task, firstTick)
    {
      this.config, this.task, this.firstTick := config, task, firstTick;
      var made := MakeEventPools(task.pattern, task.active);
      pools := made;
      poolOrder := new nat[|made|];
      history, logs := map[], map[];
      tick, publications, skipped := 0, 0, 0;
      routes, lastBlocks := Routes(0, 0), PerTopic(NONE_OF_EACH, 0, 0);
    }

    /** Appends one record to the bounded history of a symbol. */
    method Retain(symbol: string, record: Record)
      requires Valid()
      modifies this`history, this`logs
      ensures Valid()
      ensures logs == old(logs)[symbol := LogOf(old(logs), symbol) + [record]]
    {
      var h := if symbol in history then history[symbol] else NO_HISTORY;
      RetainedStep(LogOf(logs, symbol), record, config.historyLimit);
      var records := h.records + [record];
      if |records| > config.historyLimit {
        h := History(records[1..], true);
      } else {
        h := History(records, h.truncated);
      }
      history := history[symbol := h];
      logs := logs[symbol := LogOf(logs, symbol) + [record]];
    }

    /** Reconstructs HISTORY snapshots for newly requested symbols. */
    method AnswerRequests(requests: Requests) returns (snapshot: seq<WireEvent>)
      requires Valid()
      ensures snapshot == SnapshotEvents(logs, config.historyLimit, requests)
    {
      hide RetainedAll, SnapshotBlock;
      snapshot := [];
      for i := 0 to |requests|
        invariant snapshot == SnapshotEvents(logs, config.historyLimit, requests[..i])
      {
        var (symbol, fromTime) := requests[i];
        var found := if symbol in history then Some(history[symbol]) else None;
        assert found.GetOr(NO_HISTORY) == RetainedAll(LogOf(logs, symbol), config.historyLimit) by {
          NothingRetained(config.historyLimit);
        }
        var block := BuildBlock(symbol, found, fromTime);
        assert requests[..i + 1][..i] == requests[..i];
        snapshot := snapshot + block;
      }
      assert requests[..|requests|] == requests;
    }

    /** Picks the pooled event of slot i of a block. */
    method PickSlot(pool: nat, first: nat, i: nat) returns (slot: Slot)
      requires Valid() && pool < |task.pattern.items| && i < task.pattern.items[pool].quantity && task.active > 0
      requires first == publications * task.pattern.items[pool].quantity % task.active
      ensures slot == SlotAt(task, publications, pool, i, config.random)
    {
      hide Keys, Names, Pools, RetainedAll, Bounded, Key;
      PoolAt(task, pool);
      var kind := pools[pool].kind;
      var baseIndex := (first + i) % task.active;
      assert baseIndex == BaseAt(task, publications, pool, i);
      var seed := task.pattern.seed.GetOr(DEFAULT_REGION_SEED);
      var source := 0;
      if !kind.TimeAndSale? && task.pattern.regions > 0 {
        source := config.random.region(seed, publications, pool, i) % (task.pattern.regions + 1);
      }
      assert source == SourceAt(task, publications, pool, i, config.random);
      SlotInPool(task.pattern.items[pool], task.pattern, task.active, source, baseIndex);
      slot := Slot(kind, pools[pool].symbols[source * task.active + baseIndex], source > 0);
    }

    /** Updates the event of one slot and adds it to the publication. */
    method PublishSlot(slot: Slot, stamp: Stamp, subscribed: set<string>, publication: seq<WireEvent>)
      returns (next: seq<WireEvent>)
      requires Valid()
      modifies this`history, this`logs, this`routes
      ensures Valid()
      ensures Draft(next, logs, routes)
           == Fill(old(Draft(publication, logs, routes)), slot, stamp, subscribed)
    {
      hide Pools, RetainedAll, Bounded, EventFor, LogOf;
      if slot.regional {
        routes := routes.(regional := routes.regional + 1);
      } else {
        routes := routes.(composite := routes.composite + 1);
      }
      if slot.kind.TimeAndSale? {
        Retain(slot.symbol, RecordOf(stamp));
        if slot.symbol !in subscribed {
          return publication;
        }
      }
      next := publication + [EventFor(slot.kind, slot.symbol, stamp)];
    }

    /** Publishes one pool's block, starting where the previous publication left off. */
    method PublishBlock(pool: nat, stamp: Stamp, subscribed: set<string>, publication: seq<WireEvent>)
      returns (next: seq<WireEvent>)
      requires Valid() && pool < |task.pattern.items|
      modifies this`history, this`logs, this`routes
      ensures Valid()
      ensures Draft(next, logs, routes)
           == FillSlots(old(Draft(publication, logs, routes)), BlockSlots(task, publications, pool, config.random),
                        stamp, subscribed)
    {
      hide Fill, SlotAt, Bounded, Pools;
      ghost var start := Draft(publication, logs, routes);
      ghost var slots := BlockSlots(task, publications, pool, config.random);
      var quantity := task.pattern.items[pool].quantity;
      EnoughSymbols(task, pool);
      var first := publications * quantity % task.active;
      next := publication;
      for i := 0 to quantity
        invariant Valid()
        invariant Draft(next, logs, routes) == FillSlots(start, slots[..i], stamp, subscribed)
      {
        var slot := PickSlot(pool, first, i);
        next := PublishSlot(slot, stamp, subscribed, next);
        assert slots[..i + 1][..i] == slots[..i];
      }
      assert slots[..quantity] == slots;
    }

    /** Publishes all blocks in the arranged order. */
    method PublishBlocks(stamp: Stamp, subscribed: set<string>) returns (publication: seq<WireEvent>)
      requires Valid() && poolOrder[..] == OrderOf(task, publications, config.random)
      modifies this`history, this`logs, this`routes
      ensures Valid()
      ensures Draft(publication, logs, routes)
           == FillSlots(old(Draft([], logs, routes)), PublicationSlots(task, publications, config.random),
                        stamp, subscribed)
    {
      hide Fill, FillSlots, BlockSlots, Bounded, Pools, OrderOf;
      ghost var start := Draft([], logs, routes);
      ghost var order := OrderOf(task, publications, config.random);
      publication := [];
      NothingFilled(start, stamp, subscribed);
      for k := 0 to poolOrder.Length
        invariant Valid() && poolOrder[..] == order
        invariant Draft(publication, logs, routes)
               == FillSlots(start, SlotsInOrder(task, publications, order[..k], config.random), stamp, subscribed)
      {
        var pool := poolOrder[k];
        assert pool == order[k] && order[..k + 1][..k] == order[..k];
        FillAppend(start, SlotsInOrder(task, publications, order[..k], config.random),
                   BlockSlots(task, publications, pool, config.random), stamp, subscribed);
        publication := PublishBlock(pool, stamp, subscribed, publication);
      }
      assert order[..poolOrder.Length] == order;
    }

    /** Assembles and counts the next publication. */
    method Publish(subscribed: set<string>, nowNanos: nat) returns (publication: seq<WireEvent>)
      requires Valid()
      modifies this, poolOrder
      ensures Valid()
      ensures publication == PublicationEvents(config, old(Contents()), subscribed, nowNanos)
      ensures Contents() == Published(config, old(Contents()), subscribed, nowNanos)
    {
      hide FillSlots, PublicationSlots, Bounded, Pools, PoolOrder;
      PoolCount(task);
      tick := (tick + 1) % TICK_MODULUS;
      var stamp := Stamp(tick % config.maxSequence, nowNanos, 100.0 + (tick % 100) as real);
      ArrangePools(poolOrder, task.pattern.seed, publications, config.random);
      assert poolOrder[..] == OrderOf(task, publications, config.random);
      var last := Market(task.pattern.items[poolOrder[poolOrder.Length - 1]].kind);
      lastBlocks := lastBlocks.Put(last, lastBlocks.At(last) + 1);
      publication := PublishBlocks(stamp, subscribed);
      publication := publication + [TextMessage(stamp.sequence, Markers.MarkerText(nowNanos))];
      publications := publications + 1;
    }
  }

  lemma PoolCount(t: Task)
    ensures |Pools(t.pattern, t.active)| == |t.pattern.items| > 0
  {
    hide Keys, Names;
  }

  lemma EnoughSymbols(t: Task, pool: nat)
    requires pool < |t.pattern.items|
    ensures t.active > 0
  {
    assert t.pattern.items[pool].quantity > 0;
  }

  lemma NothingFilled(d: Draft, stamp: Stamp, subscribed: set<string>)
    ensures FillSlots(d, [], stamp, subscribed) == d
  {
  }

  lemma PoolAt(t: Task, pool: nat)
    requires pool < |t.pattern.items|
    ensures |Pools(t.pattern, t.active)| == |t.pattern.items|
    ensures Pools(t.pattern, t.active)[pool] == PoolOf(t.pattern.items[pool], t.pattern, t.active)
  {
    hide Keys, Names;
  }

  lemma NothingRetained(limit: nat)
    ensures RetainedAll([], limit) == NO_HISTORY
  {
  }

  // Subscription callbacks.

  /** A symbol as a subscription observer gets it: plain, with a time-series lower bound, or of another sort. */
  datatype Wrapper = StringSymbol(name: string) | TimeSeriesSymbol(name: string, fromTime: int) | OtherSymbol

  function NamesIn(wrappers: seq<Wrapper>): seq<string> {
    if wrappers == [] then [] else
    var last := wrappers[|wrappers| - 1];
    NamesIn(wrappers[..|wrappers| - 1]) + if last.OtherSymbol? then [] else [last.name]
  }

  function RequestsIn(wrappers: seq<Wrapper>): Requests {
    if wrappers == [] then [] else
    var last := wrappers[|wrappers| - 1];
    RequestsIn(wrappers[..|wrappers| - 1]) + if last.TimeSeriesSymbol? then [(last.name, last.fromTime)] else []
  }

  /** Every request names a subscribed symbol; if all are time-series symbols, every symbol is requested in turn. */
  lemma {:induction false} RequestsAreNamed(wrappers: seq<Wrapper>)
    ensures forall i :: 0 <= i < |RequestsIn(wrappers)| ==> RequestsIn(wrappers)[i].0 in NamesIn(wrappers)
    ensures (forall i :: 0 <= i < |wrappers| ==> wrappers[i].TimeSeriesSymbol?) ==>
              |RequestsIn(wrappers)| == |NamesIn(wrappers)| == |wrappers|
              && forall i :: 0 <= i < |wrappers| ==> NamesIn(wrappers)[i] == RequestsIn(wrappers)[i].0
  {
    if wrappers != [] {
      RequestsAreNamed(wrappers[..|wrappers| - 1]);
    }
  }

  /** Requests are taken over one by one: every bound as often as it is given, and no others. */
  lemma {:induction false} RequestsTakenOver(wrappers: seq<Wrapper>, name: string, fromTime: int)
    ensures multiset(RequestsIn(wrappers))[(name, fromTime)] == multiset(wrappers)[TimeSeriesSymbol(name, fromTime)]
  {
    if wrappers != [] {
      var front, last := wrappers[..|wrappers| - 1], wrappers[|wrappers| - 1];
      RequestsTakenOver(front, name, fromTime);
      assert wrappers == front + [last];
      var more: Requests := if last.TimeSeriesSymbol? then [(last.name, last.fromTime)] else [];
      assert RequestsIn(wrappers) == RequestsIn(front) + more;
    }
  }

  predicate Carries(w: Wrapper, name: string) {
    !w.OtherSymbol? && w.name == name
  }

  /** The names subscribed are those of the plain and the time-series symbols. */
  lemma {:induction false} NamesTakenOver(wrappers: seq<Wrapper>, name: string)
    ensures name in NamesIn(wrappers) <==> exists i :: 0 <= i < |wrappers| && Carries(wrappers[i], name)
  {
    if wrappers != [] {
      var front, last := wrappers[..|wrappers| - 1], wrappers[|wrappers| - 1];
      NamesTakenOver(front, name);
      assert forall i :: 0 <= i < |front| ==> front[i] == wrappers[i];
      if i :| 0 <= i < |front| && Carries(front[i], name) {
        assert Carries(wrappers[i], name);
      }
      if i :| 0 <= i < |wrappers| && Carries(wrappers[i], name) {
        assert i < |front| ==> Carries(front[i], name);
      }
    }
  }

  class Generator {
    const config: Config
    var commands: seq<Command>
    var subscribed: Subscriptions
    var pending: Option<Task>
    var active: ActiveTask?
    var nextTick: int
    var wire: seq<WireEvent>

    ghost predicate Valid()
      reads this, active
    {
      active != null ==> active.Valid() && active.config == config
    }

    ghost function Contents(): Server
      reads this, active
    {
      Server(commands, subscribed, pending, if active == null then None else Some(active.Contents()), nextTick, wire)
    }

    constructor (config: Config, now: int)
      ensures Valid() && this.config == config && active == null
      ensures Contents() == Initial(now)
    {
      this.config := config;
      commands, subscribed, pending, active, nextTick, wire := [], NO_SUBSCRIPTIONS, None, null, now, [];
    }

    method EnqueueControl(start: bool, text: string)
      modifies this`commands
      ensures commands == old(commands) + [if start then Start(text) else Stop(text)]
    {
      commands := commands + [if start then Start(text) else Stop(text)];
    }

    /** Queues symbols added to or removed from a subscription. */
    method EnqueueSymbols(added: bool, topic: Topic, symbols: seq<Wrapper>)
      modifies this`commands
      ensures
        var names, requests := NamesIn(symbols), RequestsIn(symbols);
        commands == old(commands) + [if added then Added(topic, names, requests) else Removed(topic, names, requests)]
    {
      var names: seq<string>, requests: Requests := [], [];
      for i := 0 to |symbols|
        invariant names == NamesIn(symbols[..i]) && requests == RequestsIn(symbols[..i])
      {
        assert symbols[..i + 1][..i] == symbols[..i];
        match symbols[i] {
          case StringSymbol(name) =>
            names := names + [name];
          case TimeSeriesSymbol(name, fromTime) =>
            names, requests := names + [name], requests + [(name, fromTime)];
          case OtherSymbol =>
        }
      }
      assert symbols[..|symbols|] == symbols;
      commands := commands + [if added then Added(topic, names, requests) else Removed(topic, names, requests)];
    }

    method EnqueueClosed(topic: Topic)
      modifies this`commands
      ensures commands == old(commands) + [Closed(topic)]
    {
      commands := commands + [Closed(topic)];
    }

    static method AllContained(symbols: seq<string>, subscribed: set<string>) returns (all: bool)
      ensures all <==> ContainsAll(subscribed, symbols)
    {
      for i := 0 to |symbols|
        invariant forall j :: 0 <= j < i ==> symbols[j] in subscribed
      {
        if symbols[i] !in subscribed {
          return false;
        }
      }
      all := true;
    }

    method SubscriptionsReady(t: Task) returns (ready: bool)
      ensures ready <==> Ready(subscribed, t)
    {
      hide Keys, Names, ContainsAll, PerTopic.At;
      var profileSymbols := GenerateSymbols(t.pattern);
      ready := AllContained(profileSymbols, subscribed.profiles);
      if !ready {
        return;
      }
      var marketSymbols := GenerateMarketSymbols(t.pattern);
      for i := 0 to |t.pattern.items|
        invariant forall j :: 0 <= j < i && !t.pattern.items[j].kind.TimeAndSale? ==>
          ContainsAll(subscribed.At(Market(t.pattern.items[j].kind)), marketSymbols)
      {
        var kind := t.pattern.items[i].kind;
        if !kind.TimeAndSale? {
          ready := AllContained(marketSymbols, subscribed.At(Market(kind)));
          if !ready {
            return;
          }
        }
      }
      ready := true;
    }

    /** Starts the pending task once every required subscription is in place. */
    method StartPending(now: int)
      requires Valid()
      modifies this`active, this`pending, this`nextTick, this`wire
      ensures Valid() && (active == old(active) || (fresh(active) && fresh(active.poolOrder)))
      ensures Contents() == StartWhenReady(old(Contents()), now)
    {
      hide Ready, Pools, Bounded, Keys, Names, NewActive;
      if pending.None? || active != null {
        return;
      }
      var t := pending.value;
      var ready := SubscriptionsReady(t);
      if !ready {
        return;
      }
      var profiles := MakeInitialEvents(t.pattern);
      wire := wire + profiles;
      active := new ActiveTask(config, t, now);
      nextTick := now;
      pending := None;
    }

    static method MakeInitialEvents(p: Pattern) returns (events: seq<WireEvent>)
      ensures events == ProfileEvents(Symbols(p))
    {
      hide Names;
      var symbols := GenerateSymbols(p);
      events := [];
      for i := 0 to |symbols|
        invariant events == ProfileEvents(symbols)[..i]
      {
        events := events + [ProfileEvent(symbols[i])];
      }
    }

    method HandleStart(text: string)
      requires Valid()
      modifies this`pending
      ensures Valid()
      ensures Contents() == Apply(config, old(Contents()), Start(text))
    {
      hide Bounded, Pools, Total, Largest;
      var parsed := TaskParser.ParseTaskText(text);
      if parsed.Ok? && active == null && pending.None? {
        ParsedValid(text);
        var count := ResolveActiveSymbolCount(config.activeSymbols, parsed.value);
        if count.Some? {
          pending := Some(Task(text, parsed.value, count.value));
        }
      }
    }

    method HandleStop(text: string)
      requires Valid()
      modifies this`pending, this`active
      ensures Valid() && (active == old(active) || active == null)
      ensures Contents() == Apply(config, old(Contents()), Stop(text))
    {
      hide Bounded, Pools;
      if pending.Some? && (text == "" || pending.value.command == text) {
        pending := None;
      }
      if active != null && (text == "" || active.task.command == text) {
        active := null;
      }
    }

    method HandleSubscription(c: Command)
      requires Valid() && (c.Added? || c.Removed? || c.Closed?)
      modifies this`subscribed, this`wire
      ensures Valid()
      ensures Contents() == Apply(config, old(Contents()), c)
    {
      hide Bounded, Pools, PerTopic.At, PerTopic.Put, SnapshotEvents;
      var symbols := subscribed.At(c.topic);
      match c {
        case Added(_, names, _) => symbols := symbols + (set s | s in names);
        case Removed(_, names, _) => symbols := symbols - (set s | s in names);
        case Closed(_) => symbols := {};
      }
      subscribed := subscribed.Put(c.topic, symbols);
      assert wire + [] == wire;
      if active != null && c.Added? && c.topic == TIME_SERIES && c.requests != [] {
        var snapshot := active.AnswerRequests(c.requests);
        wire := wire + snapshot;
      } else {
        NothingAsked(config.historyLimit);
      }
    }

    /** Handles the oldest command, then starts the pending task if it has become ready. */
    method HandleCommand(now: int)
      requires Valid() && commands != []
      modifies this
      ensures Valid() && (active == old(active) || active == null || (fresh(active) && fresh(active.poolOrder)))
      ensures Contents() == GeneratorModel.Pass(config, old(Contents()), Clock(now, 0, 0))
    {
      hide Bounded, Pools, Apply, GeneratorModel.StartWhenReady;
      var c := commands[0];
      commands := commands[1..];
      match c {
        case Start(text) => HandleStart(text);
        case Stop(text) => HandleStop(text);
        case _ => HandleSubscription(c);
      }
      StartPending(now);
    }

    /** Publishes a due deadline and schedules the next one, skipping those already past. */
    method PublishDeadline(nowNanos: nat, after: int)
      requires Valid() && active != null
      modifies this`nextTick, this`wire, active, active.poolOrder
      ensures Valid()
      ensures Contents() == PublishDue(config, old(Contents()), old(active.Contents()), nowNanos, after)
    {
      hide Bounded, Pools, PublicationEvents, DraftOf, LastKind, PeriodNanos;
      var publication := active.Publish(subscribed.timeAndSale, nowNanos);
      wire := wire + publication;
      var period := PeriodNanos(active.task);
      nextTick := nextTick + period;
      if nextTick < after {
        var overdue := after - nextTick;
        var skipped := overdue / period + 1;
        active.skipped := active.skipped + skipped;
        nextTick := nextTick + period * skipped;
      }
    }

    /** One pass of the worker loop. */
    method Pass(clock: Clock)
      requires Valid()
      modifies this, active, if active == null then {} else {active.poolOrder}
      ensures Valid() && (active == old(active) || active == null || (fresh(active) && fresh(active.poolOrder)))
      ensures Contents() == GeneratorModel.Pass(config, old(Contents()), clock)
    {
      hide Bounded, Pools, Apply, GeneratorModel.StartWhenReady, PublishDue;
      if commands != [] {
        HandleCommand(clock.now);
      } else if active != null && clock.now >= nextTick {
        PublishDeadline(clock.nowNanos, clock.after);
      }
    }
  }

  lemma NothingAsked(limit: nat)
    ensures forall logs :: SnapshotEvents(logs, limit, []) == []
  {
  }
}
