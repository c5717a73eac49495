/** Safety of the generator's command machine and deadline scheduler over all runs. */
module GeneratorLaws {
  import opened Arithmetic
  import opened Common
  import opened Events
  import opened GeneratorModel
  import opened Publication
  import opened TaskPattern

  // Commands.

  /** All commands of a run, in the order in which they were queued. */
  function Queued(steps: seq<Step>): seq<Command> {
    if steps == [] then [] else
    var last := steps[|steps| - 1];
    Queued(steps[..|steps| - 1]) + if last.Enqueue? then [last.command] else []
  }

  /** The subscriptions that a sequence of commands adds up to. */
  function Folded(commands: seq<Command>): Subscriptions {
    if commands == [] then NO_SUBSCRIPTIONS
    else Subscribed(Folded(commands[..|commands| - 1]), commands[|commands| - 1])
  }

  /** The task was asked for, and later every subscription it needs was in place. */
  ghost predicate StartedProperly(commands: seq<Command>, t: Task) {
    exists asked, covered :: 0 <= asked < covered <= |commands|
      && commands[asked] == Start(t.command) && Ready(Folded(commands[..covered]), t)
  }

  ghost predicate AskedFor(commands: seq<Command>, t: Task) {
    Start(t.command) in commands
  }

  /** What holds of the state once a given sequence of commands has been handled. */
  ghost predicate Sound(s: Server, handled: seq<Command>) {
    Consistent(s, handled) && (s.pending.Some? ==> !Ready(s.subscribed, s.pending.value))
  }

  /** The same, except that a pending task may be ready. */
  ghost predicate Consistent(s: Server, handled: seq<Command>) {
    && s.subscribed == Folded(handled)
    && !(s.pending.Some? && s.active.Some?)
    && (s.pending.Some? ==> AskedFor(handled, s.pending.value))
    && (s.active.Some? ==> StartedProperly(handled, s.active.value.task))
  }

  lemma StartedStays(handled: seq<Command>, c: Command, t: Task)
    requires StartedProperly(handled, t)
    ensures StartedProperly(handled + [c], t)
  {
    hide Ready, Folded;
    var asked, covered :| 0 <= asked < covered <= |handled|
      && handled[asked] == Start(t.command) && Ready(Folded(handled[..covered]), t);
    assert (handled + [c])[asked] == handled[asked];
    assert (handled + [c])[..covered] == handled[..covered];
  }

  lemma Starting(handled: seq<Command>, t: Task)
    requires AskedFor(handled, t) && Ready(Folded(handled), t)
    ensures StartedProperly(handled, t)
  {
    hide Ready, Folded;
    var asked :| 0 <= asked < |handled| && handled[asked] == Start(t.command);
    assert handled[..|handled|] == handled;
  }

  lemma RequestedCommand(config: Config, text: string)
    ensures Requested(config, text).Some? ==> Requested(config, text).value.command == text
  {
  }

  lemma ApplyConsistent(config: Config, s: Server, handled: seq<Command>, c: Command)
    requires Consistent(s, handled)
    ensures Consistent(Apply(config, s, c), handled + [c])
    ensures Apply(config, s, c).commands == s.commands
  {
    hide Ready, Requested, Answered, StartedProperly;
    var more := handled + [c];
    assert more[..|more| - 1] == handled && more[|more| - 1] == c;
    if s.active.Some? {
      StartedStays(handled, c, s.active.value.task);
    }
    if s.pending.Some? {
      assert AskedFor(more, s.pending.value);
    }
    if c.Start? {
      RequestedCommand(config, c.text);
    }
  }

  lemma StartSound(s: Server, handled: seq<Command>, now: int)
    requires Consistent(s, handled)
    ensures Sound(StartWhenReady(s, now), handled)
    ensures StartWhenReady(s, now).commands == s.commands
  {
    hide Ready, Folded, AskedFor, StartedProperly;
    if s.pending.Some? && Ready(s.subscribed, s.pending.value) {
      Starting(handled, s.pending.value);
    }
  }

  /** Each pass handles at most the oldest command, and leaves no ready task waiting. */
  lemma PassSound(config: Config, s: Server, handled: seq<Command>, clock: Clock)
    requires Sound(s, handled)
    ensures Sound(Pass(config, s, clock), if s.commands == [] then handled else handled + [s.commands[0]])
    ensures Pass(config, s, clock).commands == if s.commands == [] then [] else s.commands[1..]
  {
    hide Ready, Folded, AskedFor, StartedProperly, Apply, StartWhenReady, Published, PublicationEvents;
    if s.commands != [] {
      var c := s.commands[0];
      var popped := s.(commands := s.commands[1..]);
      ApplyConsistent(config, popped, handled, c);
      StartSound(Apply(config, popped, c), handled + [c], clock.now);
    } else if s.active.Some? && clock.now >= s.nextTick {
      PublishedFields(config, s.active.value, s.subscribed.timeAndSale, clock.nowNanos);
    }
  }

  /** The queue holds exactly the commands not yet handled, oldest first. */
  ghost predicate InOrder(s: Server, all: seq<Command>) {
    |s.commands| <= |all| && s.commands == all[|all| - |s.commands|..]
  }

  function Handled(s: Server, all: seq<Command>): seq<Command>
    requires |s.commands| <= |all|
  {
    all[..|all| - |s.commands|]
  }

  lemma NextSound(config: Config, s: Server, all: seq<Command>, step: Step)
    requires InOrder(s, all) && Sound(s, Handled(s, all))
    ensures
      var after, more := Next(config, s, step), all + if step.Enqueue? then [step.command] else [];
      InOrder(after, more) && Sound(after, Handled(after, more))
  {
    hide Pass, Sound;
    var n := |all| - |s.commands|;
    match step {
      case Enqueue(c) =>
        EnqueueSound(s, c, all[..n]);
        assert (all + [c])[n..] == all[n..] + [c] && (all + [c])[..n] == all[..n];
      case Work(clock) =>
        PassSound(config, s, all[..n], clock);
        assert all + [] == all;
        if s.commands != [] {
          assert all[..n] + [all[n]] == all[..n + 1] && all[n..][1..] == all[n + 1..];
        }
    }
  }

  /**
   * In every run: commands are handled in order; never both a pending and an active task; an active task was asked
   * for, and by then all its subscriptions were in place; no pending task is ready.
   */
  lemma {:induction false} RunSound(config: Config, steps: seq<Step>, now: int)
    ensures
      var s, all := Run(config, Initial(now), steps), Queued(steps);
      InOrder(s, all) && Sound(s, Handled(s, all))
  {
    hide Next, Sound, InOrder, Handled;
    if steps == [] {
      InitialSound(now);
    } else {
      RunSound(config, steps[..|steps| - 1], now);
      NextSound(config, Run(config, Initial(now), steps[..|steps| - 1]), Queued(steps[..|steps| - 1]), steps[|steps| - 1]);
    }
  }

  lemma InitialSound(now: int)
    ensures InOrder(Initial(now), []) && Sound(Initial(now), Handled(Initial(now), []))
  {
  }

  lemma EnqueueSound(s: Server, c: Command, handled: seq<Command>)
    requires Sound(s, handled)
    ensures Sound(s.(commands := s.commands + [c]), handled)
  {
  }

  /** Every record key that a Quote, Trade, TradeETH or Summary pool of a task can publish is subscribed. */
  ghost predicate CoversPools(subscribed: Subscriptions, t: Task) {
    forall pool, i ::
      && 0 <= pool < |t.pattern.items| && !t.pattern.items[pool].kind.TimeAndSale?
      && 0 <= i < |PoolOf(t.pattern.items[pool], t.pattern, t.active).symbols| ==>
        PoolOf(t.pattern.items[pool], t.pattern, t.active).symbols[i]
        in subscribed.At(Market(t.pattern.items[pool].kind))
  }

  lemma ReadyCoversPools(subscribed: Subscriptions, t: Task)
    requires Ready(subscribed, t)
    ensures CoversPools(subscribed, t)
  {
    hide PoolOf, PerTopic.At;
    forall pool, i | 0 <= pool < |t.pattern.items| && !t.pattern.items[pool].kind.TimeAndSale?
                     && 0 <= i < |PoolOf(t.pattern.items[pool], t.pattern, t.active).symbols|
      ensures PoolOf(t.pattern.items[pool], t.pattern, t.active).symbols[i]
              in subscribed.At(Market(t.pattern.items[pool].kind))
    {
      PoolSymbolsCovered(t.pattern.items[pool], t.pattern, t.active, i);
    }
  }

  /** At the point where the task became ready, all its pools' symbols were subscribed at once. */
  lemma PoolsCovered(commands: seq<Command>, t: Task)
    requires StartedProperly(commands, t)
    ensures exists asked, covered :: 0 <= asked < covered <= |commands|
              && commands[asked] == Start(t.command)
              && Ready(Folded(commands[..covered]), t) && CoversPools(Folded(commands[..covered]), t)
  {
    hide Folded, Ready, CoversPools;
    var asked, covered :| 0 <= asked < covered <= |commands|
      && commands[asked] == Start(t.command) && Ready(Folded(commands[..covered]), t);
    ReadyCoversPools(Folded(commands[..covered]), t);
  }

  // Deadlines.

  /** Every deadline since the first one was either used for a publication or skipped. */
  predicate OnSchedule(s: Server) {
    s.active.Some? ==>
      var a := s.active.value;
      s.nextTick == a.firstTick + PeriodNanos(a.task) * (a.publications + a.skipped)
  }

  lemma Progress(period: int, before: int, skipped: int)
    ensures period * (before + 1 + skipped) == period * before + period + period * skipped
  {
  }

  lemma PublishOnSchedule(config: Config, s: Server, a: Active, nowNanos: nat, after: int)
    requires s.active == Some(a) && OnSchedule(s)
    ensures OnSchedule(PublishDue(config, s, a, nowNanos, after))
  {
    hide Published, PublicationEvents, SkippedDeadlines, PeriodNanos;
    PublishedFields(config, a, s.subscribed.timeAndSale, nowNanos);
    var period := PeriodNanos(a.task);
    Progress(period, a.publications + a.skipped, SkippedDeadlines(s.nextTick + period, period, after));
  }

  lemma PublishedFields(config: Config, a: Active, subscribed: set<string>, nowNanos: nat)
    ensures
      var b := Published(config, a, subscribed, nowNanos);
      b.task == a.task && b.firstTick == a.firstTick && b.skipped == a.skipped && b.publications == a.publications + 1
  {
    hide DraftOf, LastKind;
  }

  lemma NextOnSchedule(config: Config, s: Server, step: Step)
    requires OnSchedule(s)
    ensures OnSchedule(Next(config, s, step))
  {
    hide Published, PublicationEvents, Ready, Requested, Answered, Subscribed, PeriodNanos;
    if step.Work? && s.commands == [] && s.active.Some? && step.clock.now >= s.nextTick {
      PublishOnSchedule(config, s, s.active.value, step.clock.nowNanos, step.clock.after);
    }
  }

  /** In every run the next deadline is the first one plus one period per publication made or deadline skipped. */
  lemma {:induction false} RunOnSchedule(config: Config, steps: seq<Step>, now: int)
    ensures OnSchedule(Run(config, Initial(now), steps))
  {
    hide Next, OnSchedule;
    if steps == [] {
      InitialOnSchedule(now);
    } else {
      RunOnSchedule(config, steps[..|steps| - 1], now);
      NextOnSchedule(config, Run(config, Initial(now), steps[..|steps| - 1]), steps[|steps| - 1]);
    }
  }

  lemma InitialOnSchedule(now: int)
    ensures OnSchedule(Initial(now))
  {
  }

  /** Nothing is skipped unless the deadline is overdue; then publishing resumes at the first one strictly after now. */
  lemma SkippedExactly(nextTick: int, period: Positive, after: int)
    ensures
      var skipped := SkippedDeadlines(nextTick, period, after);
      var resumed := nextTick + period * skipped;
      && (skipped == 0 <==> nextTick >= after)
      && (skipped > 0 ==> after < resumed <= after + period)
  {
    if nextTick < after {
      var overdue := after - nextTick;
      DivMod(overdue, period);
      Distribute(overdue / period, 1, period);
    }
  }

  /** After a publication the next deadline is at most one period away: there is no burst to catch up. */
  lemma NoBurst(config: Config, s: Server, clock: Clock)
    requires s.commands == [] && s.active.Some? && s.nextTick <= clock.now <= clock.after
    ensures
      var period := PeriodNanos(s.active.value.task);
      clock.after <= Pass(config, s, clock).nextTick <= clock.after + period
  {
    hide Published, PublicationEvents, SkippedDeadlines, PeriodNanos;
    var period := PeriodNanos(s.active.value.task);
    SkippedExactly(s.nextTick + period, period, clock.after);
  }

  /** In every run, a publication made before the task has run for a duration is among the planned ones. */
  lemma PlannedPublications(config: Config, steps: seq<Step>, now: int, clock: Clock, durationMs: int)
    requires
      var s := Run(config, Initial(now), steps);
      && s.commands == [] && s.active.Some? && s.nextTick <= clock.now
      && clock.now < s.active.value.firstTick + durationMs * NANOS_PER_MILLI
    ensures
      var s := Run(config, Initial(now), steps);
      var after := Pass(config, s, clock);
      after.active.Some? && after.active.value.publications <= s.active.value.task.pattern.BatchCount(durationMs)
  {
    hide Run, Published, PublicationEvents, SkippedDeadlines;
    var s := Run(config, Initial(now), steps);
    var a := s.active.value;
    RunOnSchedule(config, steps, now);
    PublishedFields(config, a, s.subscribed.timeAndSale, clock.nowNanos);
    var n, period := a.publications, a.task.pattern.periodMs;
    Periods(period, n, n + a.skipped, durationMs);
    CeilingQuotient(n + 1, period, durationMs);
  }

  lemma Periods(periodMs: int, n: nat, deadlines: nat, durationMs: int)
    requires periodMs > 0 && n <= deadlines
    requires (periodMs * NANOS_PER_MILLI) * deadlines < durationMs * NANOS_PER_MILLI
    ensures n * periodMs < durationMs && durationMs > 0
  {
    ProductAtLeast(periodMs, deadlines - n);
    Distribute(deadlines - n, n, periodMs);
    assert (periodMs * NANOS_PER_MILLI) * deadlines == (periodMs * deadlines) * NANOS_PER_MILLI;
  }
}
