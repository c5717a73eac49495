/** What each command does to the generator, in every run. */
module CommandLaws {
  import opened Common
  import opened Events
  import opened GeneratorLaws
  import opened GeneratorModel
  import opened SymbolUniverse
  import opened TaskPattern
  import TaskParser

  // Subscriptions.

  predicate Adds(c: Command, topic: Topic, x: string) {
    c.Added? && c.topic == topic && x in c.symbols
  }

  predicate Drops(c: Command, topic: Topic, x: string) {
    (c.Removed? && c.topic == topic && x in c.symbols) || (c.Closed? && c.topic == topic)
  }

  /** The command added the symbol, and no later one removed it or closed its subscription. */
  predicate AddedLast(commands: seq<Command>, topic: Topic, x: string, i: nat)
    requires i < |commands|
  {
    Adds(commands[i], topic, x) && forall j :: i < j < |commands| ==> !Drops(commands[j], topic, x)
  }

  predicate StillAdded(commands: seq<Command>, topic: Topic, x: string) {
    exists i :: 0 <= i < |commands| && AddedLast(commands, topic, x, i)
  }

  lemma StillAddedLast(front: seq<Command>, c: Command, topic: Topic, x: string)
    ensures StillAdded(front + [c], topic, x) <==>
      Adds(c, topic, x) || (StillAdded(front, topic, x) && !Drops(c, topic, x))
  {
    hide Adds, Drops;
    var commands := front + [c];
    assert commands[|front|] == c && forall i :: 0 <= i < |front| ==> commands[i] == front[i];
    if Adds(c, topic, x) {
      assert AddedLast(commands, topic, x, |front|);
    }
    if StillAdded(front, topic, x) && !Drops(c, topic, x) {
      var i :| 0 <= i < |front| && AddedLast(front, topic, x, i);
      assert AddedLast(commands, topic, x, i);
    }
    if StillAdded(commands, topic, x) {
      var i :| 0 <= i < |commands| && AddedLast(commands, topic, x, i);
      if i < |front| {
        assert AddedLast(front, topic, x, i);
      }
    }
  }

  lemma OneCommand(subscribed: Subscriptions, c: Command, topic: Topic, x: string)
    ensures x in Subscribed(subscribed, c).At(topic) <==>
      Adds(c, topic, x) || (x in subscribed.At(topic) && !Drops(c, topic, x))
  {
  }

  lemma NothingSubscribed(topic: Topic, x: string)
    ensures x !in NO_SUBSCRIPTIONS.At(topic) && !StillAdded([], topic, x)
  {
  }

  /** A symbol is subscribed exactly when some command added it that no later command undid. */
  lemma {:induction false} SubscribedMeans(commands: seq<Command>, topic: Topic, x: string)
    ensures x in Folded(commands).At(topic) <==> StillAdded(commands, topic, x)
  {
    hide Subscribed, StillAdded, Adds, Drops, PerTopic.At;
    if commands == [] {
      NothingSubscribed(topic, x);
    } else {
      var front, last := commands[..|commands| - 1], commands[|commands| - 1];
      assert front + [last] == commands;
      SubscribedMeans(front, topic, x);
      OneCommand(Folded(front), last, topic, x);
      StillAddedLast(front, last, topic, x);
    }
  }

  // Readiness.

  /** A record key that a pattern can publish for a market kind. */
  predicate IsMarketKey(p: Pattern, key: string) {
    exists source, i :: 0 <= source <= p.regions <= MAX_REGIONS && 0 <= i < |Symbols(p)| && IsKeyAt(p, key, source, i)
  }

  predicate IsKeyAt(p: Pattern, key: string, source: nat, i: nat)
    requires source <= MAX_REGIONS && i < |Symbols(p)|
  {
    key == Key(Symbols(p)[i], source)
  }

  lemma {:induction false} KeysAre(names: seq<string>, regions: nat, j: nat) returns (source: nat, i: nat)
    requires regions <= MAX_REGIONS && j < |Keys(names, regions)|
    ensures source <= regions && i < |names| && Keys(names, regions)[j] == Key(names[i], source)
  {
    hide Key;
    if regions == 0 {
      source, i := 0, j;
    } else if j < |Keys(names, regions - 1)| {
      source, i := KeysAre(names, regions - 1, j);
    } else {
      source, i := regions, j - |Keys(names, regions - 1)|;
    }
  }

  /** The market symbols are exactly the record keys of all symbols at all sources. */
  lemma MarketSymbolsMean(p: Pattern, key: string)
    requires p.regions <= MAX_REGIONS
    ensures key in MarketSymbols(p) <==> IsMarketKey(p, key)
  {
    hide Key, Keys, Symbols;
    if key in MarketSymbols(p) {
      var j :| 0 <= j < |MarketSymbols(p)| && MarketSymbols(p)[j] == key;
      var source, i := KeysAre(Symbols(p), p.regions, j);
      assert IsKeyAt(p, key, source, i);
    }
    if IsMarketKey(p, key) {
      var source, i :| 0 <= source <= p.regions <= MAX_REGIONS && 0 <= i < |Symbols(p)| && IsKeyAt(p, key, source, i);
      KeysAt(Symbols(p), p.regions, source, i);
    }
  }

  /** All profile symbols, and for every kind in the pattern but TimeAndSale all its record keys. */
  ghost predicate Covered(subscribed: Subscriptions, t: Task) {
    && (forall i :: 0 <= i < |Symbols(t.pattern)| ==> Symbols(t.pattern)[i] in subscribed.profiles)
    && forall i :: 0 <= i < |t.pattern.items| && !t.pattern.items[i].kind.TimeAndSale? ==>
         KindCovered(subscribed, t.pattern, t.pattern.items[i].kind)
  }

  ghost predicate KindCovered(subscribed: Subscriptions, p: Pattern, kind: MarketKind) {
    forall key :: IsMarketKey(p, key) ==> key in subscribed.market.At(kind)
  }

  lemma KindReady(subscribed: Subscriptions, p: Pattern, kind: MarketKind)
    requires p.regions <= MAX_REGIONS
    ensures KindCovered(subscribed, p, kind) <==> ContainsAll(subscribed.market.At(kind), MarketSymbols(p))
  {
    hide IsMarketKey, MarketSymbols;
    var symbols := MarketSymbols(p);
    if KindCovered(subscribed, p, kind) {
      forall i | 0 <= i < |symbols| ensures symbols[i] in subscribed.market.At(kind) {
        MarketSymbolsMean(p, symbols[i]);
      }
    }
    if ContainsAll(subscribed.market.At(kind), symbols) {
      forall key | IsMarketKey(p, key) ensures key in subscribed.market.At(kind) {
        MarketSymbolsMean(p, key);
      }
    }
  }

  lemma ReadyMeans(subscribed: Subscriptions, t: Task)
    ensures Ready(subscribed, t) <==> Covered(subscribed, t)
  {
    hide KindCovered, MarketSymbols, Symbols;
    forall i | 0 <= i < |t.pattern.items| && !t.pattern.items[i].kind.TimeAndSale?
      ensures KindCovered(subscribed, t.pattern, t.pattern.items[i].kind)
          <==> ContainsAll(subscribed.At(Market(t.pattern.items[i].kind)), MarketSymbols(t.pattern))
    {
      KindReady(subscribed, t.pattern, t.pattern.items[i].kind);
    }
  }

  // Control commands.

  /** The state of a run from the start, before it handles its next command. */
  ghost predicate Waiting(config: Config, now: int, steps: seq<Step>, s: Server, c: Command) {
    s == Run(config, Initial(now), steps) && s.commands != [] && s.commands[0] == c
  }

  lemma Quiet(config: Config, now: int, steps: seq<Step>)
    ensures
      var s := Run(config, Initial(now), steps);
      && !(s.pending.Some? && s.active.Some?) && (s.pending.Some? ==> !Ready(s.subscribed, s.pending.value))
  {
    hide Run, InOrder, Ready;
    RunSound(config, steps, now);
  }

  predicate Hits(text: string, command: string) {
    text == "" || text == command
  }

  /** A stop clears the tasks with its text, or all of them when it has none, and touches nothing else. */
  lemma StopHandled(config: Config, now: int, steps: seq<Step>, s: Server, text: string, clock: Clock)
    requires Waiting(config, now, steps, s, Stop(text))
    ensures
      var after := Pass(config, s, clock);
      && (after.active == if s.active.Some? && Hits(text, s.active.value.task.command) then None else s.active)
      && (after.pending == if s.pending.Some? && Hits(text, s.pending.value.command) then None else s.pending)
      && after.wire == s.wire && after.subscribed == s.subscribed && after.commands == s.commands[1..]
  {
    hide Run, Ready;
    Quiet(config, now, steps);
  }

  /** The task that a text asks for: it parses, and the configured or default number of symbols suits it. */
  predicate Asked(config: Config, text: string, t: Task) {
    && TaskParser.ParseTask(text) == Ok(t.pattern) && t.command == text
    && t.active == (if config.activeSymbols.Some? then config.activeSymbols.value else t.pattern.SymbolCount())
  }

  predicate Possible(config: Config, text: string) {
    TaskParser.ParseTask(text).Ok?
    && var p := TaskParser.ParseTask(text).value;
       var count := if config.activeSymbols.Some? then config.activeSymbols.value else p.SymbolCount();
       count <= p.SymbolCount() && forall i :: 0 <= i < |p.items| ==> p.items[i].quantity <= count
  }

  lemma RequestedMeans(config: Config, text: string)
    ensures Requested(config, text).Some? <==> Possible(config, text)
    ensures Requested(config, text).Some? ==> Asked(config, text, Requested(config, text).value)
  {
    hide TaskParser.ParseTask;
  }

  /** The task became active at once if it was covered, and pending if not. */
  ghost predicate Begun(s: Server, after: Server, t: Task, now: int) {
    if Covered(s.subscribed, t) then after.pending.None? && Fresh(after, t, now)
    else after.active.None? && after.pending == Some(t) && after.wire == s.wire
  }

  /**
   * A start makes the task that it asks for pending, or active at once when it is covered; it does nothing when a task is
   * pending or active already, or when there is no such task.
   */
  lemma StartHandled(config: Config, now: int, steps: seq<Step>, s: Server, text: string, clock: Clock)
    requires Waiting(config, now, steps, s, Start(text))
    ensures
      var after := Pass(config, s, clock);
      var accepted := s.active.None? && s.pending.None? && Possible(config, text);
      && after.subscribed == s.subscribed && after.commands == s.commands[1..]
      && (!accepted ==> after.active == s.active && after.pending == s.pending && after.wire == s.wire)
      && (accepted ==> exists t :: Asked(config, text, t) && Begun(s, after, t, clock.now))
  {
    hide Run, Ready, Covered, Requested, Asked, Possible, Symbols;
    Quiet(config, now, steps);
    RequestedMeans(config, text);
    if Requested(config, text).Some? {
      ReadyMeans(s.subscribed, Requested(config, text).value);
    }
  }

  /** A task that has just started: nothing published, retained or skipped, and the first publication due at once. */
  predicate Fresh(s: Server, t: Task, now: int) {
    && s.active.Some? && s.active.value.task == t
    && s.nextTick == now && s.active.value.firstTick == now
    && s.active.value.publications == 0 && s.active.value.tick == 0 && s.active.value.skipped == 0
    && s.active.value.logs == map[] && s.active.value.routes == Routes(0, 0)
    && s.active.value.lastBlocks == PerTopic(PerKind(0, 0, 0, 0), 0, 0)
  }

  /** A subscription change starts the pending task exactly when it is then covered; an active task goes on. */
  lemma ChangeHandled(config: Config, now: int, steps: seq<Step>, s: Server, c: Command, clock: Clock)
    requires Waiting(config, now, steps, s, c) && !c.Start? && !c.Stop?
    ensures
      var after := Pass(config, s, clock);
      && (s.active.Some? ==> after.active == s.active && after.nextTick == s.nextTick)
      && (s.pending.Some? ==>
            if Covered(after.subscribed, s.pending.value)
            then after.pending.None? && Fresh(after, s.pending.value, clock.now)
            else after.pending == s.pending && after.active.None?)
      && (s.pending.None? ==> after.pending.None? && after.active == s.active)
  {
    hide Run, Ready, Covered, Symbols, Answered, Subscribed;
    Quiet(config, now, steps);
    if s.pending.Some? {
      ReadyMeans(Pass(config, s, clock).subscribed, s.pending.value);
    }
  }
}
