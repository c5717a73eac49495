/** How many snapshots a server run publishes, and what the client's acceptance rule says about them. */
module RequestAnswers {
  import opened Common
  import opened Events
  import opened History
  import opened GeneratorModel
  import opened PublicationLaws
  import opened ServerStreams
  import opened ServerSnapshots
  import opened SnapshotProtocol
  import EarlyRequests
  import T = TrackerModel
  import L = TrackerLaws

  // The server's side.

  function RequestNames(requests: Requests): seq<string> {
    seq(|requests|, i requires 0 <= i < |requests| => requests[i].0)
  }

  /** The symbols of all requests answered in a run, in order. */
  function AnsweredNames(config: Config, s: Server, steps: seq<Step>): seq<string> {
    if steps == [] then [] else
    var front, last := steps[..|steps| - 1], steps[|steps| - 1];
    var before := Run(config, s, front);
    AnsweredNames(config, s, front)
    + if Subscribes(before, last) && before.active.Some? then RequestNames(before.commands[0].requests) else []
  }

  /** The number of published events that begin a snapshot. */
  function BeginCount(events: seq<WireEvent>): nat {
    if events == [] then 0 else
    var last := events[|events| - 1];
    BeginCount(events[..|events| - 1]) + if last.TimeAndSaleEvent? && last.flags.begin then 1 else 0
  }

  lemma {:induction false} BeginsAppend(a: seq<WireEvent>, b: seq<WireEvent>)
    ensures BeginCount(a + b) == BeginCount(a) + BeginCount(b)
  {
    if b == [] {
      assert a + b == a;
    } else {
      BeginsAppend(a, b[..|b| - 1]);
      assert (a + b)[..|a + b| - 1] == a + b[..|b| - 1];
    }
  }

  lemma {:induction false} NoBegins(events: seq<WireEvent>)
    requires forall i :: 0 <= i < |events| ==> events[i].TimeAndSaleEvent? ==> !events[i].flags.begin
    ensures BeginCount(events) == 0
  {
    if events != [] {
      NoBegins(events[..|events| - 1]);
    }
  }

  lemma BlockBeginsOnce(symbol: string, h: History, fromTime: int)
    ensures BeginCount(SnapshotBlock(symbol, h, fromTime)) == 1
  {
    hide SnapshotBlock;
    var block := SnapshotBlock(symbol, h, fromTime);
    BlockBegins(symbol, h, fromTime);
    forall i | 0 < i < |block| ensures block[i].TimeAndSaleEvent? && !block[i].flags.begin {
      BlockShape(symbol, h, fromTime, i);
    }
    assert block == [block[0]] + block[1..];
    BeginsAppend([block[0]], block[1..]);
    NoBegins(block[1..]);
    assert [block[0]][..0] == [];
  }

  lemma {:induction false} SnapshotsBeginOnce(logs: Logs, limit: nat, requests: Requests)
    ensures BeginCount(SnapshotEvents(logs, limit, requests)) == |requests|
  {
    hide SnapshotBlock, RetainedAll;
    if requests != [] {
      var front, last := requests[..|requests| - 1], requests[|requests| - 1];
      SnapshotsBeginOnce(logs, limit, front);
      var h := RetainedAll(LogOf(logs, last.0), limit);
      BlockBeginsOnce(last.0, h, last.1);
      BeginsAppend(SnapshotEvents(logs, limit, front), SnapshotBlock(last.0, h, last.1));
    }
  }

  lemma {:induction false} EmittedBegins(slots: seq<Slot>, stamp: Stamp, subscribed: set<string>)
    ensures BeginCount(Emitted(slots, stamp, subscribed)) == 0
  {
    if slots != [] {
      var front, last := slots[..|slots| - 1], slots[|slots| - 1];
      EmittedBegins(front, stamp, subscribed);
      BeginsAppend(Emitted(front, stamp, subscribed), SlotEvents(last, stamp, subscribed));
      NoBegins(SlotEvents(last, stamp, subscribed));
    }
  }

  lemma PublicationBegins(config: Config, a: Active, subscribed: set<string>, nowNanos: nat)
    ensures BeginCount(PublicationEvents(config, a, subscribed, nowNanos)) == 0
  {
    hide FillSlots, PublicationSlots, Emitted, BeginCount;
    var slots, stamp := PublicationSlots(a.task, a.publications, config.random), NextStamp(config, a, nowNanos);
    FilledEvents(Draft([], a.logs, a.routes), slots, stamp, subscribed);
    EmittedBegins(slots, stamp, subscribed);
    NoBegins([MarkerOf(stamp)]);
    BeginsAppend(DraftOf(config, a, subscribed, nowNanos).events, [MarkerOf(stamp)]);
    assert [] + Emitted(slots, stamp, subscribed) == Emitted(slots, stamp, subscribed);
  }

  lemma AppendedBegins(config: Config, s: Server, step: Step)
    ensures BeginCount(Appended(config, s, step))
         == if Subscribes(s, step) && s.active.Some? then |s.commands[0].requests| else 0
  {
    hide Ready, Requested, SnapshotEvents, Subscribed, PublicationEvents, NewActive, ProfileEvents, SymbolsOf, BeginCount;
    NoBegins([]);
    if step.Work? && s.commands != [] {
      CommandBegins(config, s, step);
    } else if Publishes(s, step) {
      PublicationBegins(config, s.active.value, s.subscribed.timeAndSale, step.clock.nowNanos);
    }
  }

  lemma CommandBegins(config: Config, s: Server, step: Step)
    requires step.Work? && s.commands != []
    ensures BeginCount(Appended(config, s, step))
         == if Subscribes(s, step) && s.active.Some? then |s.commands[0].requests| else 0
  {
    hide Ready, Requested, SnapshotEvents, Subscribed, NewActive, BeginCount, SymbolsOf;
    var popped := s.(commands := s.commands[1..]);
    var after := Apply(config, popped, s.commands[0]);
    var answer := if s.commands[0].Start? || s.commands[0].Stop? then [] else Answered(config, popped, s.commands[0]);
    var profiles := if after.pending.Some? && after.active.None? && Ready(after.subscribed, after.pending.value)
                    then ProfileEvents(SymbolsOf(after.pending.value)) else [];
    BeginsAppend(answer, profiles);
    NoBegins(profiles);
    NoBegins([]);
    if Subscribes(s, step) && s.active.Some? {
      SnapshotsBeginOnce(s.active.value.logs, config.historyLimit, s.commands[0].requests);
    }
  }

  /** A run publishes exactly one BEGIN for every request it answers. */
  lemma {:induction false} OneBeginPerAnswer(config: Config, s: Server, steps: seq<Step>)
    ensures BeginCount(Run(config, s, steps).wire) == BeginCount(s.wire) + |AnsweredNames(config, s, steps)|
  {
    hide Next, Appended, BeginCount;
    if steps != [] {
      var front, last := steps[..|steps| - 1], steps[|steps| - 1];
      OneBeginPerAnswer(config, s, front);
      WireGrows(config, Run(config, s, front), last);
      BeginsAppend(Run(config, s, front).wire, Appended(config, Run(config, s, front), last));
      AppendedBegins(config, Run(config, s, front), last);
    }
  }

  lemma {:induction false} UnnamedUnanswered(config: Config, s: Server, steps: seq<Step>, symbol: string)
    requires symbol !in AnsweredNames(config, s, steps)
    ensures EarlyRequests.NeverAnswered(config, s, steps, symbol)
  {
    hide Run;
    if steps != [] {
      var front, last := steps[..|steps| - 1], steps[|steps| - 1];
      UnnamedUnanswered(config, s, front, symbol);
      var before := Run(config, s, front);
      if Subscribes(before, last) && before.active.Some? {
        AskedIsNamed(before.commands[0].requests, symbol);
      }
    }
  }

  lemma AskedIsNamed(requests: Requests, symbol: string)
    ensures Asks(requests, symbol) <==> symbol in RequestNames(requests)
  {
    if Asks(requests, symbol) {
      var i :| 0 <= i < |requests| && requests[i].0 == symbol;
      assert RequestNames(requests)[i] == symbol;
    }
  }

  // The tracker's side.

  function BeginTicks(ticks: seq<T.Tick>): nat {
    if ticks == [] then 0 else BeginTicks(ticks[..|ticks| - 1]) + if ticks[|ticks| - 1].flags.begin then 1 else 0
  }

  lemma {:induction false} TrackerBegins(ticks: seq<T.Tick>)
    ensures T.FollowAll(T.NO_TRACK, ticks).counters.begins == BeginTicks(ticks)
  {
    if ticks != [] {
      TrackerBegins(ticks[..|ticks| - 1]);
    }
  }

  lemma {:induction false} WireTicks(wire: seq<WireEvent>)
    ensures BeginTicks(T.TicksOf(wire)) == BeginCount(wire)
  {
    if wire != [] {
      var front, last := wire[..|wire| - 1], wire[|wire| - 1];
      WireTicks(front);
      var tick := T.TickOf(last);
      if tick.Some? {
        assert (T.TicksOf(front) + [tick.value])[..|T.TicksOf(front)|] == T.TicksOf(front);
      } else {
        assert T.TicksOf(front) + [] == T.TicksOf(front);
      }
    }
  }

  lemma {:induction false} WireView(wire: seq<WireEvent>, symbol: string)
    ensures View(T.TicksOf(wire), symbol) == Ticking(TsEvents(wire, symbol))
  {
    if wire != [] {
      var front, last := wire[..|wire| - 1], wire[|wire| - 1];
      WireView(front, symbol);
      var tick := T.TickOf(last);
      if tick.Some? {
        ViewLast(T.TicksOf(front), tick.value, symbol);
      } else {
        assert T.TicksOf(front) + [] == T.TicksOf(front);
      }
    }
  }

  lemma {:induction false} ViewBag(ticks: seq<T.Tick>, x: T.Tick)
    ensures multiset(View(ticks, x.symbol))[x] == multiset(ticks)[x]
  {
    if ticks != [] {
      var front, last := ticks[..|ticks| - 1], ticks[|ticks| - 1];
      ViewBag(front, x);
      assert ticks == front + [last];
    }
  }

  lemma CarriedBag(callbacks: seq<L.Step>, wire: seq<WireEvent>)
    requires Carries(callbacks, wire)
    ensures multiset(L.RunTicks(callbacks)) == multiset(T.TicksOf(wire))
  {
    hide View, L.RunTicks, T.TicksOf, TsEvents, Ticking;
    forall x: T.Tick ensures multiset(L.RunTicks(callbacks))[x] == multiset(T.TicksOf(wire))[x] {
      ViewBag(L.RunTicks(callbacks), x);
      ViewBag(T.TicksOf(wire), x);
      WireView(wire, x.symbol);
    }
  }

  lemma {:induction false} TicksAppend(a: seq<T.Tick>, b: seq<T.Tick>)
    ensures BeginTicks(a + b) == BeginTicks(a) + BeginTicks(b)
  {
    if b == [] {
      assert a + b == a;
    } else {
      TicksAppend(a, b[..|b| - 1]);
      assert (a + b)[..|a + b| - 1] == a + b[..|b| - 1];
    }
  }

  lemma {:induction false} BeginsPermute(a: seq<T.Tick>, b: seq<T.Tick>)
    requires multiset(a) == multiset(b)
    ensures BeginTicks(a) == BeginTicks(b)
    decreases |a|
  {
    assert |a| == |multiset(a)| == |multiset(b)| == |b|;
    if a != [] {
      var i := SameLast(a, b);
      BeginsPermute(a[..|a| - 1], b[..i] + b[i + 1..]);
      TicksAppend(b[..i], b[i + 1..]);
      TicksAppend(b[..i] + [b[i]], b[i + 1..]);
      TicksAppend(b[..i], [b[i]]);
      assert b == b[..i] + [b[i]] + b[i + 1..] && [b[i]][..0] == [];
    }
  }

  lemma SameLast(a: seq<T.Tick>, b: seq<T.Tick>) returns (i: nat)
    requires a != [] && multiset(a) == multiset(b)
    ensures i < |b| && b[i] == a[|a| - 1]
    ensures multiset(a[..|a| - 1]) == multiset(b[..i] + b[i + 1..])
  {
    var x := a[|a| - 1];
    assert a == a[..|a| - 1] + [x];
    assert x in multiset(b);
    i :| 0 <= i < |b| && b[i] == x;
    assert b == b[..i] + [x] + b[i + 1..];
    assert multiset(b) == multiset(b[..i]) + multiset{x} + multiset(b[i + 1..]);
    assert multiset(a[..|a| - 1]) == multiset(a) - multiset{x};
  }

  /** For every server run received in per-symbol order, the tracker counts one BEGIN per answered request. */
  lemma BeginsAreAnswers(config: Config, now: int, steps: seq<Step>, callbacks: seq<L.Step>)
    requires Carries(callbacks, Run(config, Initial(now), steps).wire)
    ensures L.Run(T.INITIAL, callbacks).track.counters.begins == |AnsweredNames(config, Initial(now), steps)|
  {
    hide Run, L.Run, L.RunTicks, T.FollowAll, T.TicksOf, BeginTicks, BeginCount, Carries, AnsweredNames;
    var wire := Run(config, Initial(now), steps).wire;
    OneBeginPerAnswer(config, Initial(now), steps);
    NoBegins([]);
    L.RunTrack(T.INITIAL, callbacks);
    TrackerBegins(L.RunTicks(callbacks));
    CarriedBag(callbacks, wire);
    BeginsPermute(L.RunTicks(callbacks), T.TicksOf(wire));
    WireTicks(wire);
  }

  // Acceptance.

  function Elements(names: seq<string>): set<string> {
    set name | name in names
  }

  lemma {:induction false} ElementsSize(names: seq<string>)
    ensures |Elements(names)| <= |names|
    ensures |Elements(names)| == |names| ==> Distinct(names)
  {
    if names != [] {
      var front, last := names[..|names| - 1], names[|names| - 1];
      ElementsSize(front);
      assert names == front + [last];
      assert Elements(names) == Elements(front) + {last};
      if last !in front && Distinct(front) {
        assert Distinct(names);
      } else if last in front {
        assert Elements(names) == Elements(front);
      }
    }
  }

  lemma CompleteWereAnswered(config: Config, now: int, steps: seq<Step>, callbacks: seq<L.Step>)
    requires Carries(callbacks, Run(config, Initial(now), steps).wire)
    ensures L.CompleteSymbols(L.Run(T.INITIAL, callbacks).track.symbols)
         <= Elements(AnsweredNames(config, Initial(now), steps))
  {
    hide Run, L.Run, L.RunTicks, AnsweredNames, View, TsEvents, Ticking, IntegrityOk;
    var names := AnsweredNames(config, Initial(now), steps);
    forall symbol | symbol in L.CompleteSymbols(L.Run(T.INITIAL, callbacks).track.symbols) ensures symbol in names {
      if symbol !in names {
        UnnamedUnanswered(config, Initial(now), steps, symbol);
        EmptyTs(symbol);
        EarlyRequests.UnansweredIsPremature(config, Initial(now), steps, symbol, callbacks, false);
      }
    }
  }

  /** For every server run received in per-symbol order: a report is accepted only if every symbol was answered once. */
  lemma AcceptedOnce(config: Config, now: int, steps: seq<Step>, callbacks: seq<L.Step>, unsubscribed: bool)
    requires Carries(callbacks, Run(config, Initial(now), steps).wire)
    requires IntegrityOk(L.Run(T.INITIAL, callbacks), unsubscribed)
    ensures
      var names, st := AnsweredNames(config, Initial(now), steps), L.Run(T.INITIAL, callbacks);
      && Distinct(names) && |names| == st.expected
      && Elements(names) == L.CompleteSymbols(st.track.symbols)
  {
    hide Run, L.Run, AnsweredNames, Carries, Elements, L.CompleteSymbols, L.RunTicks, L.SeenIndices;
    var names, st := AnsweredNames(config, Initial(now), steps), L.Run(T.INITIAL, callbacks);
    BeginsAreAnswers(config, now, steps, callbacks);
    CompleteWereAnswered(config, now, steps, callbacks);
    IntegrityMeans(callbacks, unsubscribed);
    ElementsSize(names);
    SubsetSizes(L.CompleteSymbols(st.track.symbols), Elements(names));
  }

  lemma SubsetSizes(a: set<string>, b: set<string>)
    requires a <= b
    ensures |a| <= |b| && (|a| == |b| ==> a == b)
  {
    assert b == a + (b - a);
    assert |b| == |a| + |b - a|;
  }
}
