/** A snapshot and the live events after it: together, without a gap, what the server retains for a symbol. */
module SnapshotContinuity {
  import opened Events
  import opened EarlyRequests
  import opened GeneratorModel
  import opened GeneratorLaws
  import opened GeneratorRuns
  import opened History
  import opened PublicationLaws
  import opened ServerStreams
  import opened SnapshotProtocol

  function LogAt(s: Server, symbol: string): seq<Record> {
    if s.active.Some? then LogOf(s.active.value.logs, symbol) else []
  }

  /** What was appended to a log between two states of a run. */
  function Since(before: seq<Record>, after: seq<Record>): seq<Record> {
    if |before| <= |after| then after[|before|..] else []
  }

  // Live events.

  /** The symbol is subscribed, the task goes on, and no further request for the symbol is answered. */
  predicate Follows(s: Server, step: Step, symbol: string) {
    symbol in s.subscribed.timeAndSale && Unstopped(s, step) && !Answers(s, step, symbol)
  }

  ghost predicate Following(config: Config, s: Server, steps: seq<Step>, symbol: string) {
    if steps == [] then true else
    var front := steps[..|steps| - 1];
    Following(config, s, front, symbol) && Follows(Run(config, s, front), steps[|steps| - 1], symbol)
  }

  lemma PublishedLive(config: Config, s: Server, step: Step, t: Task, symbol: string)
    requires Serving(s, t) && Publishes(s, step) && symbol in s.subscribed.timeAndSale
    ensures
      var after := Next(config, s, step);
      && Serving(after, t)
      && LogAt(s, symbol) <= LogAt(after, symbol)
      && TsEvents(Appended(config, s, step), symbol)
         == LiveEvents(symbol, Since(LogAt(s, symbol), LogAt(after, symbol)))
  {
    hide TsEvents, Published, PublicationEvents, SkippedDeadlines, LogOf, Ticks, PublicationSlots, NextStamp, RecordOf;
    var a := s.active.value;
    PublishedFields(config, a, s.subscribed.timeAndSale, step.clock.nowNanos);
    PublishedLogs(config, a, s.subscribed.timeAndSale, step.clock.nowNanos, symbol);
    PublicationTs(config, a, s.subscribed.timeAndSale, step.clock.nowNanos, symbol);
    assert LogAt(s, symbol) + [] == LogAt(s, symbol);
  }

  /** A step sends live exactly the records that it appends to a subscribed symbol's log. */
  lemma StepLive(config: Config, s: Server, step: Step, t: Task, symbol: string)
    requires Serving(s, t) && Follows(s, step, symbol)
    ensures
      var after := Next(config, s, step);
      && Serving(after, t)
      && LogAt(s, symbol) <= LogAt(after, symbol)
      && TsEvents(Appended(config, s, step), symbol)
         == LiveEvents(symbol, Since(LogAt(s, symbol), LogAt(after, symbol)))
  {
    hide Next, TsEvents, Appended, SnapshotEvents, PublicationSlots, Ticks;
    if Publishes(s, step) {
      PublishedLive(config, s, step, t, symbol);
    } else {
      CommandServing(config, s, step, t);
      var live := AppendedTs(config, s, step, symbol);
      if Subscribes(s, step) {
        SnapshotsBegin(s.active.value.logs, config.historyLimit, s.commands[0].requests, symbol);
      }
      assert LiveEvents(symbol, []) == [];
    }
  }

  lemma SinceStep(symbol: string, a: seq<Record>, b: seq<Record>, c: seq<Record>)
    requires a <= b <= c
    ensures LiveEvents(symbol, Since(a, b)) + LiveEvents(symbol, Since(b, c)) == LiveEvents(symbol, Since(a, c))
  {
    SinceAppend(a, b, c);
    LiveAppend(symbol, Since(a, b), Since(b, c));
  }

  lemma SinceAppend(a: seq<Record>, b: seq<Record>, c: seq<Record>)
    requires a <= b <= c
    ensures Since(a, b) + Since(b, c) == Since(a, c)
  {
    assert b == c[..|b|];
    assert c[..|b|][|a|..] + c[|b|..] == c[|a|..];
  }

  lemma LiveAppend(symbol: string, x: seq<Record>, y: seq<Record>)
    ensures LiveEvents(symbol, x) + LiveEvents(symbol, y) == LiveEvents(symbol, x + y)
  {
    hide EventOf;
  }

  /** While a symbol stays subscribed, it gets live exactly the records that are appended to its log, in order. */
  lemma {:induction false} LiveIsLogged(config: Config, s: Server, t: Task, steps: seq<Step>, symbol: string)
    requires Serving(s, t) && Following(config, s, steps, symbol)
    ensures
      var after := Run(config, s, steps);
      && Serving(after, t)
      && LogAt(s, symbol) <= LogAt(after, symbol)
      && TsEvents(Sent(config, s, steps), symbol) == LiveEvents(symbol, Since(LogAt(s, symbol), LogAt(after, symbol)))
  {
    hide Next, TsEvents, Appended, Follows, LogAt;
    if steps == [] {
      EmptyTs(symbol);
      assert LiveEvents(symbol, Since(LogAt(s, symbol), LogAt(s, symbol))) == [];
    } else {
      var front, last := steps[..|steps| - 1], steps[|steps| - 1];
      LiveIsLogged(config, s, t, front, symbol);
      var before := Run(config, s, front);
      StepLive(config, before, last, t, symbol);
      TsAppend(Sent(config, s, front), Appended(config, before, last), symbol);
      SinceStep(symbol, LogAt(s, symbol), LogAt(before, symbol), LogAt(Next(config, before, last), symbol));
    }
  }

  // From an answered request on.

  /** A pass that answers a request for the symbol, and no two requests for the same symbol. */
  ghost predicate AnswersOnce(s: Server, step: Step, symbol: string) {
    Answers(s, step, symbol) && DistinctRequests(s.commands[0].requests)
  }

  lemma AnswerServing(config: Config, s: Server, step: Step, t: Task, symbol: string)
    requires Serving(s, t) && Answers(s, step, symbol)
    ensures Serving(Next(config, s, step), t) && LogAt(Next(config, s, step), symbol) == LogAt(s, symbol)
  {
    hide Next, Asks;
    CommandServing(config, s, step, t);
  }

  /**
   * From an answered request on, for as long as the symbol stays subscribed, its stream is the snapshot of what its log
   * held then, followed by exactly the records appended to the log since.
   */
  lemma AnsweredStream(config: Config, s: Server, step: Step, t: Task, steps: seq<Step>, symbol: string)
    returns (fromTime: int)
    requires Serving(s, t) && AnswersOnce(s, step, symbol)
    requires Following(config, Next(config, s, step), steps, symbol)
    ensures (symbol, fromTime) in s.commands[0].requests
    ensures
      var after := Run(config, Next(config, s, step), steps);
      var log, log' := LogAt(s, symbol), LogAt(after, symbol);
      && log <= log'
      && TsEvents(WireSince(s, after), symbol)
         == Feed(symbol, Request(RetainedAll(log, config.historyLimit), fromTime, log'[|log|..]))
  {
    hide Run, Next, TsEvents, Appended, Following, Sent, RetainedAll, SnapshotBlock, Asks, SnapshotEvents;
    var next := Next(config, s, step);
    AnswerServing(config, s, step, t, symbol);
    LiveIsLogged(config, next, t, steps, symbol);
    var answer := AppendedTs(config, s, step, symbol);
    fromTime := SnapshotsTs(s.active.value.logs, config.historyLimit, s.commands[0].requests, symbol);
    WireGrows(config, s, step);
    SentIsWire(config, next, steps);
    var after := Run(config, next, steps);
    assert WireSince(s, after) == Appended(config, s, step) + Sent(config, next, steps);
    TsAppend(Appended(config, s, step), Sent(config, next, steps), symbol);
  }

  // No gap.

  /** A record is among the events of a stream, not merely announced as removed. */
  ghost predicate Carried(stream: seq<WireEvent>, symbol: string, r: Record) {
    exists i :: 0 <= i < |stream| && stream[i].TimeAndSaleEvent? && !stream[i].flags.remove
                && stream[i] == EventOf(symbol, r, stream[i].flags)
  }

  lemma SameRecord(symbol: string, a: Record, b: Record, f: Flags, g: Flags)
    requires EventOf(symbol, a, f) == EventOf(symbol, b, g)
    ensures a == b && f == g
  {
  }

  lemma BlockEvent(symbol: string, h: History, fromTime: int, i: nat)
    requires i < |SnapshotBlock(symbol, h, fromTime)|
    ensures
      var e, walked := SnapshotBlock(symbol, h, fromTime)[i], Walked(h.records, fromTime);
      && e.TimeAndSaleEvent? && (e.flags.remove <==> i >= |walked|) && |walked| <= |SnapshotBlock(symbol, h, fromTime)|
      && (i < |walked| ==> e == EventOf(symbol, walked[i], e.flags))
  {
    hide Walked;
  }

  /** A feed carries exactly the records that its snapshot walked and the live ones. */
  lemma FeedCarries(symbol: string, r: Request, x: Record)
    ensures Carried(Feed(symbol, r), symbol, x) <==> x in Walked(r.history.records, r.fromTime) || x in r.live
  {
    hide Walked, SnapshotBlock, EventOf;
    var feed, block := Feed(symbol, r), SnapshotBlock(symbol, r.history, r.fromTime);
    var walked := Walked(r.history.records, r.fromTime);
    BlockNonEmpty(symbol, r.history, r.fromTime);
    BlockEvent(symbol, r.history, r.fromTime, 0);
    if x in walked {
      var i :| 0 <= i < |walked| && walked[i] == x;
      BlockEvent(symbol, r.history, r.fromTime, i);
      assert feed[i] == block[i];
    }
    if x in r.live {
      var i :| 0 <= i < |r.live| && r.live[i] == x;
      LiveEvent(symbol, x);
      assert feed[|block| + i] == EventOf(symbol, x, NO_FLAGS);
    }
    if Carried(feed, symbol, x) {
      var i :| 0 <= i < |feed| && feed[i].TimeAndSaleEvent? && !feed[i].flags.remove
               && feed[i] == EventOf(symbol, x, feed[i].flags);
      if i < |block| {
        BlockEvent(symbol, r.history, r.fromTime, i);
        SameRecord(symbol, x, walked[i], feed[i].flags, feed[i].flags);
      } else {
        SameRecord(symbol, x, r.live[i - |block|], feed[i].flags, NO_FLAGS);
      }
    }
  }

  lemma LiveEvent(symbol: string, r: Record)
    ensures
      var e := EventOf(symbol, r, NO_FLAGS);
      e.TimeAndSaleEvent? && !e.flags.remove && e == EventOf(symbol, r, e.flags)
  {
  }

  lemma {:induction false} WalkedKept(records: seq<Record>, fromTime: int, r: Record)
    requires r in Walked(records, fromTime)
    ensures r in records
  {
    WalkedMembers(records, fromTime, r);
  }

  lemma KeptLogged(log: seq<Record>, limit: nat, r: Record)
    requires r in RetainedAll(log, limit).records
    ensures r in log
  {
    HistoryIsSuffix(log, limit);
  }

  /** If the snapshot misses nothing, snapshot and live events carry exactly the later records of the whole log. */
  lemma NoGap(symbol: string, log: seq<Record>, log': seq<Record>, limit: nat, fromTime: int, r: Record)
    requires log <= log' && MissesNothing(log, limit, fromTime) && r.Millis() > fromTime
    ensures Carried(Feed(symbol, Request(RetainedAll(log, limit), fromTime, log'[|log|..])), symbol, r) <==> r in log'
  {
    hide Walked, RetainedAll, Feed;
    var live := log'[|log|..];
    assert log' == log + live;
    FeedCarries(symbol, Request(RetainedAll(log, limit), fromTime, live), r);
    if r in Walked(RetainedAll(log, limit).records, fromTime) {
      WalkedKept(RetainedAll(log, limit).records, fromTime, r);
      KeptLogged(log, limit, r);
    }
    if r in log {
      var i :| 0 <= i < |log| && log[i] == r;
      assert log[i] in Walked(RetainedAll(log, limit).records, fromTime);
    }
  }

  /**
   * In every run with a wall clock that was steady until the request, and a positive history limit: from an answered
   * request whose snapshot ends in END on, for as long as the symbol stays subscribed, the client gets exactly the records
   * ever retained for it after the requested millisecond, before and since.
   */
  lemma EndThenLive(config: Config, now: int, before: seq<Step>, s: Server, step: Step, steps: seq<Step>, symbol: string)
    returns (fromTime: int)
    requires s == Run(config, Initial(now), before) && Steady(before) && config.historyLimit > 0
    requires s.active.Some? && AnswersOnce(s, step, symbol)
    requires Following(config, Next(config, s, step), steps, symbol)
    ensures (symbol, fromTime) in s.commands[0].requests
    ensures
      var after := Run(config, Next(config, s, step), steps);
      !Snipped(RetainedAll(LogAt(s, symbol), config.historyLimit), fromTime) ==>
        forall r: Record :: r.Millis() > fromTime ==>
          (Carried(TsEvents(WireSince(s, after), symbol), symbol, r) <==> r in LogAt(after, symbol))
  {
    hide Run, Next, TsEvents, Following, RetainedAll, Feed, Carried, MissesNothing, Snipped, Steady, WireSince, Asks;
    ReachableServing(config, now, before);
    fromTime := AnsweredStream(config, s, step, s.active.value.task, steps, symbol);
    SnapshotsMissNothing(config, before, now, symbol, fromTime);
    if !Snipped(RetainedAll(LogAt(s, symbol), config.historyLimit), fromTime) {
      var after := Run(config, Next(config, s, step), steps);
      forall r: Record | r.Millis() > fromTime
        ensures Carried(TsEvents(WireSince(s, after), symbol), symbol, r) <==> r in LogAt(after, symbol)
      {
        NoGap(symbol, LogAt(s, symbol), LogAt(after, symbol), config.historyLimit, fromTime, r);
      }
    }
  }

  lemma ReachableServing(config: Config, now: int, before: seq<Step>)
    requires Run(config, Initial(now), before).active.Some?
    ensures Serving(Run(config, Initial(now), before), Run(config, Initial(now), before).active.value.task)
  {
    hide Run, InOrder;
    RunSound(config, before, now);
  }
}
