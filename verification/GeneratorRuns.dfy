/** Counters and retained records of the active task over all runs of the generator. */
module GeneratorRuns {
  import opened Arithmetic
  import opened Common
  import opened Events
  import opened History
  import opened TaskPattern
  import opened GeneratorModel
  import opened GeneratorLaws
  import opened PublicationLaws

  function SumTopics(n: PerTopic<nat>): nat {
    SumCounts(n.market) + n.timeAndSale + n.profiles
  }

  /** Every slot was counted as composite or regional, and every publication by the kind of its last block. */
  predicate Counted(a: Active) {
    && a.tick == a.publications % TICK_MODULUS
    && a.routes.composite + a.routes.regional == a.publications * a.task.pattern.EventCount()
    && SumTopics(a.lastBlocks) == a.publications
  }

  lemma PutSum(n: PerTopic<nat>, t: Topic)
    ensures SumTopics(n.Put(t, n.At(t) + 1)) == SumTopics(n) + 1
  {
  }

  lemma NextTickNumber(publications: nat)
    ensures (publications % TICK_MODULUS + 1) % TICK_MODULUS == (publications + 1) % TICK_MODULUS
  {
    ModSum(1, publications, TICK_MODULUS);
  }

  lemma PublishedCounted(config: Config, a: Active, subscribed: set<string>, nowNanos: nat)
    requires Counted(a)
    ensures Counted(Published(config, a, subscribed, nowNanos))
  {
    hide PublicationSlots, LastKind, FillSlots, Total, PerTopic.Put, PerTopic.At;
    var slots := PublicationSlots(a.task, a.publications, config.random);
    PublicationSize(a.task, a.publications, config.random);
    FilledRoutes(Draft([], a.logs, a.routes), slots, NextStamp(config, a, nowNanos), subscribed);
    PutSum(a.lastBlocks, Market(LastKind(a.task, a.publications, config.random)));
    NextTickNumber(a.publications);
    Distribute(a.publications, 1, a.task.pattern.EventCount());
  }

  // Retained records.

  /** Sequences rise strictly, from 1 up to a tick. */
  ghost predicate Rising(log: seq<Record>, tick: int) {
    && (forall i :: 0 <= i < |log| ==> 0 < log[i].sequence <= tick)
    && (forall i, j :: 0 <= i < j < |log| ==> log[i].sequence < log[j].sequence)
  }

  /** Until ticks or sequences wrap around, every log rises. */
  ghost predicate LogsRise(config: Config, a: Active) {
    a.publications < config.maxSequence && a.publications < TICK_MODULUS ==>
      forall symbol :: Rising(LogOf(a.logs, symbol), a.publications)
  }

  lemma PublishedRise(config: Config, a: Active, subscribed: set<string>, nowNanos: nat)
    requires Counted(a) && LogsRise(config, a)
    ensures LogsRise(config, Published(config, a, subscribed, nowNanos))
  {
    hide PublicationSlots, Published, LogOf, Counted;
    var b := Published(config, a, subscribed, nowNanos);
    PublishedFields(config, a, subscribed, nowNanos);
    if b.publications < config.maxSequence && b.publications < TICK_MODULUS {
      SequenceIsCount(config, a, nowNanos);
      forall symbol ensures Rising(LogOf(b.logs, symbol), b.publications) {
        PublishedLogs(config, a, subscribed, nowNanos, symbol);
        assert Rising(LogOf(a.logs, symbol), a.publications);
      }
    }
  }

  lemma SequenceIsCount(config: Config, a: Active, nowNanos: nat)
    requires Counted(a) && a.publications + 1 < config.maxSequence && a.publications + 1 < TICK_MODULUS
    ensures NextStamp(config, a, nowNanos).sequence == a.publications + 1
    ensures NextStamp(config, a, nowNanos).nowNanos == nowNanos
  {
    hide SumTopics, Total;
    DivModUnique(a.publications, 0, a.publications, TICK_MODULUS);
    DivModUnique(a.publications + 1, 0, a.publications + 1, TICK_MODULUS);
    DivModUnique(a.publications + 1, 0, a.publications + 1, config.maxSequence);
  }

  ghost predicate GoodBooks(config: Config, s: Server) {
    s.active.Some? ==> Counted(s.active.value) && LogsRise(config, s.active.value)
  }

  lemma NewBooks(config: Config, t: Task, firstTick: int)
    ensures Counted(NewActive(t, firstTick)) && LogsRise(config, NewActive(t, firstTick))
  {
    DivModUnique(0, 0, 0, TICK_MODULUS);
  }

  lemma SkippingKeepsBooks(config: Config, a: Active, skipped: nat)
    requires Counted(a) && LogsRise(config, a)
    ensures Counted(a.(skipped := skipped)) && LogsRise(config, a.(skipped := skipped))
  {
  }

  lemma ApplyActive(config: Config, s: Server, c: Command, now: int)
    ensures
      var after := StartWhenReady(Apply(config, s, c), now);
      after.active == s.active || after.active.None?
      || exists t :: after.active == Some(NewActive(t, now))
  {
    hide Ready, Requested, Answered, Subscribed, NewActive;
  }

  lemma NextBooks(config: Config, s: Server, step: Step)
    requires GoodBooks(config, s)
    ensures GoodBooks(config, Next(config, s, step))
  {
    hide Published, PublicationEvents, Counted, LogsRise, Apply, StartWhenReady, NewActive, SkippedDeadlines;
    if step.Work? && s.commands != [] {
      var popped := s.(commands := s.commands[1..]);
      ApplyActive(config, popped, s.commands[0], step.clock.now);
      var after := Next(config, s, step);
      if after.active.Some? && after.active != s.active {
        var t :| after.active == Some(NewActive(t, step.clock.now));
        NewBooks(config, t, step.clock.now);
      }
    } else if step.Work? && s.active.Some? && step.clock.now >= s.nextTick {
      var a := s.active.value;
      PublishedCounted(config, a, s.subscribed.timeAndSale, step.clock.nowNanos);
      PublishedRise(config, a, s.subscribed.timeAndSale, step.clock.nowNanos);
      var period := PeriodNanos(a.task);
      SkippingKeepsBooks(config, Published(config, a, s.subscribed.timeAndSale, step.clock.nowNanos),
                         a.skipped + SkippedDeadlines(s.nextTick + period, period, step.clock.after));
    }
  }

  /** In every run the active task's counters add up, and until wrap-around its logs rise. */
  lemma {:induction false} RunBooks(config: Config, steps: seq<Step>, now: int)
    ensures GoodBooks(config, Run(config, Initial(now), steps))
  {
    hide Next, GoodBooks;
    if steps == [] {
      InitialBooks(config, now);
    } else {
      RunBooks(config, steps[..|steps| - 1], now);
      NextBooks(config, Run(config, Initial(now), steps[..|steps| - 1]), steps[|steps| - 1]);
    }
  }

  lemma InitialBooks(config: Config, now: int)
    ensures GoodBooks(config, Initial(now))
  {
  }

  // Wall-clock time.

  /** The wall clock does not go backwards from one pass to the next. */
  ghost predicate Steady(steps: seq<Step>) {
    forall i, j :: 0 <= i < j < |steps| && steps[i].Work? && steps[j].Work? ==>
      steps[i].clock.nowNanos <= steps[j].clock.nowNanos
  }

  /** Some pass read this wall-clock time. */
  ghost predicate WasRead(steps: seq<Step>, nanos: int) {
    exists j :: 0 <= j < |steps| && steps[j].Work? && steps[j].clock.nowNanos == nanos
  }

  ghost predicate BeforeAll(log: seq<Record>, steps: seq<Step>) {
    forall i :: 0 <= i < |log| ==> WasRead(steps, log[i].timeNanos)
  }

  ghost predicate LogsInTime(s: Server, steps: seq<Step>) {
    s.active.Some? ==>
      forall symbol ::
        Chronological(LogOf(s.active.value.logs, symbol)) && BeforeAll(LogOf(s.active.value.logs, symbol), steps)
  }

  lemma BeforeMore(log: seq<Record>, steps: seq<Step>, step: Step)
    requires BeforeAll(log, steps)
    ensures BeforeAll(log, steps + [step])
  {
    forall i | 0 <= i < |log| ensures WasRead(steps + [step], log[i].timeNanos) {
      ReadEarlier(steps, step, log[i].timeNanos);
    }
  }

  lemma ReadEarlier(steps: seq<Step>, step: Step, nanos: int)
    requires WasRead(steps, nanos)
    ensures WasRead(steps + [step], nanos)
    ensures Steady(steps + [step]) && step.Work? ==> nanos <= step.clock.nowNanos
  {
    var j :| 0 <= j < |steps| && steps[j].Work? && steps[j].clock.nowNanos == nanos;
    assert (steps + [step])[j] == steps[j] && (steps + [step])[|steps|] == step;
  }

  lemma AppendInTime(log: seq<Record>, steps: seq<Step>, step: Step, r: Record)
    requires Chronological(log) && BeforeAll(log, steps) && Steady(steps + [step])
    requires step.Work? && r.timeNanos == step.clock.nowNanos
    ensures Chronological(log + [r]) && BeforeAll(log + [r], steps + [step])
  {
    var more := steps + [step];
    BeforeMore(log, steps, step);
    assert more[|steps|] == step;
    forall i | 0 <= i < |log| ensures log[i].timeNanos <= r.timeNanos {
      ReadEarlier(steps, step, log[i].timeNanos);
    }
    assert WasRead(more, r.timeNanos);
  }

  lemma NextInTime(config: Config, s: Server, steps: seq<Step>, step: Step)
    requires LogsInTime(s, steps) && Steady(steps + [step])
    ensures LogsInTime(Next(config, s, step), steps + [step])
  {
    hide Chronological, BeforeAll, Steady, Apply, StartWhenReady, Published, PublicationEvents, SkippedDeadlines, NewActive;
    var after := Next(config, s, step);
    if step.Work? && s.commands == [] && s.active.Some? && step.clock.now >= s.nextTick {
      forall symbol ensures Chronological(LogOf(after.active.value.logs, symbol))
                            && BeforeAll(LogOf(after.active.value.logs, symbol), steps + [step])
      {
        PublishInTime(config, s.active.value, s.subscribed.timeAndSale, steps, step, symbol);
      }
    } else {
      if step.Work? && s.commands != [] {
        ApplyActive(config, s.(commands := s.commands[1..]), s.commands[0], step.clock.now);
      }
      if after.active.Some? {
        forall symbol ensures Chronological(LogOf(after.active.value.logs, symbol))
                              && BeforeAll(LogOf(after.active.value.logs, symbol), steps + [step])
        {
          if after.active == s.active {
            BeforeMore(LogOf(s.active.value.logs, symbol), steps, step);
          } else {
            NoLogs(step.clock.now, after.active.value, symbol, steps + [step]);
          }
        }
      }
    }
  }

  lemma NoLogs(now: int, a: Active, symbol: string, steps: seq<Step>)
    requires exists t :: a == NewActive(t, now)
    ensures Chronological(LogOf(a.logs, symbol)) && BeforeAll(LogOf(a.logs, symbol), steps)
  {
  }

  lemma PublishInTime(config: Config, a: Active, subscribed: set<string>, steps: seq<Step>, step: Step, symbol: string)
    requires step.Work? && Steady(steps + [step])
    requires Chronological(LogOf(a.logs, symbol)) && BeforeAll(LogOf(a.logs, symbol), steps)
    ensures
      var log := LogOf(Published(config, a, subscribed, step.clock.nowNanos).logs, symbol);
      Chronological(log) && BeforeAll(log, steps + [step])
  {
    hide Chronological, BeforeAll, Steady, Published, LogOf, PublicationSlots;
    PublishedLogs(config, a, subscribed, step.clock.nowNanos, symbol);
    var log := LogOf(a.logs, symbol);
    BeforeMore(log, steps, step);
    assert log + [] == log;
    AppendInTime(log, steps, step, RecordOf(NextStamp(config, a, step.clock.nowNanos)));
  }

  lemma {:induction false} RunInTime(config: Config, steps: seq<Step>, now: int)
    requires Steady(steps)
    ensures LogsInTime(Run(config, Initial(now), steps), steps)
  {
    hide Next, LogsInTime;
    if steps == [] {
      NothingInTime(now);
    } else {
      var front, last := steps[..|steps| - 1], steps[|steps| - 1];
      assert front + [last] == steps;
      assert Steady(front) by {
        assert forall i :: 0 <= i < |front| ==> front[i] == steps[i];
      }
      RunInTime(config, front, now);
      NextInTime(config, Run(config, Initial(now), front), front, last);
    }
  }

  lemma NothingInTime(now: int)
    ensures LogsInTime(Initial(now), [])
  {
  }

  /**
   * In every run with a steady wall clock and a positive history limit, a snapshot that ends in END misses no record
   * ever retained for its symbol after the requested millisecond.
   */
  lemma SnapshotsMissNothing(config: Config, steps: seq<Step>, now: int, symbol: string, fromTime: int)
    requires Steady(steps) && config.historyLimit > 0 && Run(config, Initial(now), steps).active.Some?
    ensures
      var log := LogOf(Run(config, Initial(now), steps).active.value.logs, symbol);
      !Snipped(RetainedAll(log, config.historyLimit), fromTime) ==> MissesNothing(log, config.historyLimit, fromTime)
  {
    hide Run, Steady, MissesNothing, Snipped, Chronological, BeforeAll;
    RunInTime(config, steps, now);
    var log := LogOf(Run(config, Initial(now), steps).active.value.logs, symbol);
    if !Snipped(RetainedAll(log, config.historyLimit), fromTime) {
      EndMissesNothing(log, config.historyLimit, fromTime);
    }
  }
}
