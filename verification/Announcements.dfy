/** What a started task publishes first: one Profile event per symbol of its universe, which the client waits for. */
module Announcements {
  import Common
  import opened Events
  import opened GeneratorLaws
  import opened GeneratorModel
  import opened PublicationLaws
  import opened ServerStreams
  import opened SymbolUniverse
  import opened WireWorth
  import C = CollectorModel

  // The server's side.

  /** The symbols of Profile events, in wire order. */
  function Announced(events: seq<WireEvent>): seq<string> {
    if events == [] then [] else
    var last := events[|events| - 1];
    Announced(events[..|events| - 1]) + if last.ProfileEvent? then [last.symbol] else []
  }

  lemma {:induction false} AnnouncedAppend(a: seq<WireEvent>, b: seq<WireEvent>)
    ensures Announced(a + b) == Announced(a) + Announced(b)
  {
    if b == [] {
      assert a + b == a;
    } else {
      AnnouncedAppend(a, b[..|b| - 1]);
      assert (a + b)[..|a + b| - 1] == a + b[..|b| - 1];
    }
  }

  lemma {:induction false} NoneAnnounced(events: seq<WireEvent>)
    requires forall i :: 0 <= i < |events| ==> !events[i].ProfileEvent?
    ensures Announced(events) == []
  {
    if events != [] {
      NoneAnnounced(events[..|events| - 1]);
    }
  }

  lemma {:induction false} AllAnnounced(events: seq<WireEvent>, symbols: seq<string>)
    requires |events| == |symbols| && forall i :: 0 <= i < |events| ==> events[i] == ProfileEvent(symbols[i])
    ensures Announced(events) == symbols
  {
    if events != [] {
      var n := |events| - 1;
      AllAnnounced(events[..n], symbols[..n]);
      assert symbols == symbols[..n] + [symbols[n]];
    } else {
      assert symbols == [];
    }
  }

  /** This pass starts a task. */
  predicate Starts(config: Config, s: Server, step: Step) {
    s.active.None? && Next(config, s, step).active.Some?
  }

  lemma {:induction false} EmittedUnannounced(slots: seq<Slot>, stamp: Stamp, subscribed: set<string>)
    ensures forall i :: 0 <= i < |Emitted(slots, stamp, subscribed)| ==>
      !Emitted(slots, stamp, subscribed)[i].ProfileEvent?
  {
    if slots != [] {
      EmittedUnannounced(slots[..|slots| - 1], stamp, subscribed);
    }
  }

  lemma PublicationUnannounced(config: Config, a: Active, subscribed: set<string>, nowNanos: nat)
    ensures Announced(PublicationEvents(config, a, subscribed, nowNanos)) == []
  {
    hide FillSlots, PublicationSlots, Emitted, Announced;
    var slots, stamp := PublicationSlots(a.task, a.publications, config.random), NextStamp(config, a, nowNanos);
    FilledEvents(Draft([], a.logs, a.routes), slots, stamp, subscribed);
    EmittedUnannounced(slots, stamp, subscribed);
    NoneAnnounced(PublicationEvents(config, a, subscribed, nowNanos));
  }

  lemma SnapshotsUnannounced(logs: Logs, limit: nat, requests: Requests)
    ensures Announced(SnapshotEvents(logs, limit, requests)) == []
  {
    hide SnapshotEvents, Announced;
    SnapshotsUnprofiled(logs, limit, requests);
    NoneAnnounced(SnapshotEvents(logs, limit, requests));
  }

  lemma {:induction false} SnapshotsUnprofiled(logs: Logs, limit: nat, requests: Requests)
    ensures forall i :: 0 <= i < |SnapshotEvents(logs, limit, requests)| ==>
      !SnapshotEvents(logs, limit, requests)[i].ProfileEvent?
  {
    if requests != [] {
      SnapshotsUnprofiled(logs, limit, requests[..|requests| - 1]);
    }
  }

  /** A pass that starts a task puts its Profile events at the end of the wire, one per symbol of its universe, in order. */
  lemma StartAnnounces(config: Config, s: Server, step: Step)
    requires Starts(config, s, step)
    ensures
      var after := Next(config, s, step);
      var names := Symbols(after.active.value.task.pattern);
      && |after.wire| >= |s.wire| + |names|
      && forall i :: 0 <= i < |names| ==> after.wire[|after.wire| - |names| + i] == ProfileEvent(names[i])
  {
    hide Ready, Requested, SnapshotEvents, Subscribed, Symbols, SkippedDeadlines;
  }

  /** Passes that start a task announce its universe, others announce nothing. */
  lemma StepAnnounces(config: Config, s: Server, step: Step)
    requires s.pending.None? || s.active.None?
    ensures Announced(Appended(config, s, step))
         == if Starts(config, s, step) then Symbols(Next(config, s, step).active.value.task.pattern) else []
  {
    hide Ready, Requested, SnapshotEvents, Subscribed, PublicationEvents, Published, Symbols, Announced, SkippedDeadlines;
    NoneAnnounced([]);
    if step.Work? {
      if s.commands != [] {
        CommandAnnounces(config, s, step);
      } else if s.active.Some? && step.clock.now >= s.nextTick {
        PublicationUnannounced(config, s.active.value, s.subscribed.timeAndSale, step.clock.nowNanos);
      }
    }
  }

  lemma CommandAnnounces(config: Config, s: Server, step: Step)
    requires (s.pending.None? || s.active.None?) && step.Work? && s.commands != []
    ensures Announced(Appended(config, s, step))
         == if Starts(config, s, step) then Symbols(Next(config, s, step).active.value.task.pattern) else []
  {
    hide Ready, Requested, SnapshotEvents, Subscribed, Symbols, Announced;
    var popped := s.(commands := s.commands[1..]);
    var after := Apply(config, popped, s.commands[0]);
    var answer := if s.commands[0].Start? || s.commands[0].Stop? then [] else Answered(config, popped, s.commands[0]);
    var profiles := if after.pending.Some? && after.active.None? && Ready(after.subscribed, after.pending.value)
                    then ProfileEvents(SymbolsOf(after.pending.value)) else [];
    NoneAnnounced([]);
    AnnouncedAppend(answer, profiles);
    if s.active.Some? && s.commands[0].Added? {
      SnapshotsUnannounced(s.active.value.logs, config.historyLimit, s.commands[0].requests);
    }
    if profiles != [] {
      AllAnnounced(profiles, SymbolsOf(after.pending.value));
    }
  }

  /** The tasks started in a run, in order. */
  function Started(config: Config, s: Server, steps: seq<Step>): seq<Task> {
    if steps == [] then [] else
    var front, last := steps[..|steps| - 1], steps[|steps| - 1];
    var before := Run(config, s, front);
    Started(config, s, front)
    + if Starts(config, before, last) then [Next(config, before, last).active.value.task] else []
  }

  /** The universes of tasks, one after the other. */
  function Universes(tasks: seq<Task>): seq<string> {
    if tasks == [] then [] else Universes(tasks[..|tasks| - 1]) + Symbols(tasks[|tasks| - 1].pattern)
  }

  /** In every run, the Profile events on the wire are those of the universes of the started tasks, in order. */
  lemma {:induction false} RunAnnounces(config: Config, now: int, steps: seq<Step>)
    ensures Announced(Run(config, Initial(now), steps).wire) == Universes(Started(config, Initial(now), steps))
  {
    hide Next, Symbols, Announced, Starts, Appended;
    if steps == [] {
      NoneAnnounced([]);
    } else {
      var front, last := steps[..|steps| - 1], steps[|steps| - 1];
      var s := Run(config, Initial(now), front);
      RunAnnounces(config, now, front);
      Exclusive(config, now, front);
      StepAnnounces(config, s, last);
      WireGrows(config, s, last);
      AnnouncedAppend(s.wire, Appended(config, s, last));
      UniversesMore(config, now, steps);
    }
  }

  lemma UniversesMore(config: Config, now: int, steps: seq<Step>)
    requires steps != []
    ensures
      var front, last := steps[..|steps| - 1], steps[|steps| - 1];
      var s := Run(config, Initial(now), front);
      Universes(Started(config, Initial(now), steps)) == Universes(Started(config, Initial(now), front))
        + if Starts(config, s, last) then Symbols(Next(config, s, last).active.value.task.pattern) else []
  {
    hide Next, Symbols;
    var front, last := steps[..|steps| - 1], steps[|steps| - 1];
    var s, before := Run(config, Initial(now), front), Started(config, Initial(now), front);
    if Starts(config, s, last) {
      var t := Next(config, s, last).active.value.task;
      assert (before + [t])[..|before|] == before;
    } else {
      assert before + [] == before && Universes(before) + [] == Universes(before);
    }
  }

  lemma Exclusive(config: Config, now: int, steps: seq<Step>)
    ensures var s := Run(config, Initial(now), steps); s.pending.None? || s.active.None?
  {
    hide Run, InOrder;
    RunSound(config, steps, now);
  }

  // The client's side.

  lemma {:induction false} AnnouncedMembers(events: seq<WireEvent>, x: string)
    ensures x in Announced(events) <==> ProfileEvent(x) in events
  {
    if events != [] {
      var front, last := events[..|events| - 1], events[|events| - 1];
      AnnouncedMembers(front, x);
      assert events == front + [last];
    }
  }

  /** In every run a collector has received exactly the symbols of the Profile events it heard, measured or not. */
  lemma {:induction false} ProfilesHeard(cfg: C.Config, steps: seq<C.Step>)
    ensures forall x :: x in C.Run(cfg, steps).profiles <==> ProfileEvent(x) in Heard(steps)
  {
    hide C.ProcessAll, C.Sweep, C.ItemsOf, C.ObserveTimes, C.SequencesIn, C.ProfilesIn;
    if steps != [] {
      var front, last := steps[..|steps| - 1], steps[|steps| - 1];
      ProfilesHeard(cfg, front);
      if last.Notify? {
        forall x ensures x in C.ProfilesIn(last.callback.events) <==> ProfileEvent(x) in last.callback.events {
          ProfilesMean(last.callback.events, x);
        }
      }
    }
  }

  lemma ProfilesMean(events: seq<WireEvent>, x: string)
    ensures x in C.ProfilesIn(events) <==> ProfileEvent(x) in events
  {
    if x in C.ProfilesIn(events) {
      var e :| e in events && e.ProfileEvent? && e.symbol == x;
      assert e == ProfileEvent(x);
    }
    if ProfileEvent(x) in events {
      assert ProfileEvent(x).symbol == x;
    }
  }

  // Together.

  /** The client heard exactly the Profile events that were sent, however often and in whatever order. */
  ghost predicate HeardProfiles(callbacks: seq<C.Step>, wire: seq<WireEvent>) {
    forall x :: ProfileEvent(x) in Heard(callbacks) <==> ProfileEvent(x) in wire
  }

  /** In every run, a client that hears the Profile events has received exactly the universes of the started tasks. */
  lemma ProfilesReceived(config: Config, now: int, steps: seq<Step>, cfg: C.Config, callbacks: seq<C.Step>)
    requires HeardProfiles(callbacks, Run(config, Initial(now), steps).wire)
    ensures forall x :: x in C.Run(cfg, callbacks).profiles <==> x in Universes(Started(config, Initial(now), steps))
  {
    hide Run, C.Run, Announced, Universes, Started, Heard;
    var wire := Run(config, Initial(now), steps).wire;
    RunAnnounces(config, now, steps);
    ProfilesHeard(cfg, callbacks);
    forall x ensures x in Announced(wire) <==> ProfileEvent(x) in wire {
      AnnouncedMembers(wire, x);
    }
  }

  /** After the first start the client has received as many profiles as it waits for. */
  lemma FirstStartReceived(config: Config, now: int, steps: seq<Step>, cfg: C.Config, callbacks: seq<C.Step>, t: Task)
    requires HeardProfiles(callbacks, Run(config, Initial(now), steps).wire)
    requires Started(config, Initial(now), steps) == [t]
    ensures C.Run(cfg, callbacks).profiles == set x | x in Symbols(t.pattern)
    ensures |C.Run(cfg, callbacks).profiles| == t.pattern.SymbolCount()
  {
    hide Run, C.Run, Started, Heard, HeardProfiles;
    ProfilesReceived(config, now, steps, cfg, callbacks);
    assert [t][..0] == [] && Universes([]) == [];
    assert Universes([t]) == Symbols(t.pattern);
    NamesDistinct(t.pattern.SymbolCount());
    DistinctSize(Symbols(t.pattern));
  }

  lemma {:induction false} DistinctSize(s: seq<string>)
    requires Common.Distinct(s)
    ensures |set x | x in s| == |s|
  {
    if s != [] {
      var front, last := s[..|s| - 1], s[|s| - 1];
      assert s == front + [last];
      DistinctSize(front);
      assert (set x | x in s) == (set x | x in front) + {last};
    }
  }
}
