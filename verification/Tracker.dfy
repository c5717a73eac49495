/** The time-series tracker as the client runs it (src/client.cpp). */
module TrackerObject {
  import opened Events
  import M = TrackerModel

  /** What a tick adds to the counters, case by case. */
  lemma CountedParts(c: M.Counters, s: M.SymbolState, t: M.Tick)
    ensures
      var inside, completes := M.InSnapshot(s, t.flags), M.Completes(s, t.flags);
      var begun := c.(begins := c.begins + M.One(t.flags.begin));
      c.Plus(M.Counted(s, t)) ==
        if inside then
          begun.(completed := c.completed + M.One(completes),
                 snapshotEvents := c.snapshotEvents + M.One(!t.flags.remove),
                 ends := c.ends + M.One(completes && t.flags.end),
                 snips := c.snips + M.One(completes && t.flags.snip),
                 removals := c.removals + M.One(t.flags.remove),
                 duplicates := c.duplicates + M.One(!t.flags.remove && t.index in s.indices))
        else if s.complete then begun.(live := c.live + 1)
        else begun.(premature := c.premature + 1)
  {
  }

  class TimeSeriesTracker {
    var symbols: map<string, M.SymbolState>
    var counters: M.Counters
    var expectedSymbols: nat
    var subscribedAtNs: int
    var firstObservedNs: int
    var completedAtNs: int
    var firstLiveNs: int
    var callbacks: nat
    var snapshotCallbacks: nat
    var clockAnomalies: nat
    var measuring: bool
    var liveLatencies: seq<int>

    ghost function Contents(): M.State
      reads this
    {
      M.State(M.Track(symbols, counters), expectedSymbols, subscribedAtNs, firstObservedNs, completedAtNs, firstLiveNs,
              callbacks, snapshotCallbacks, clockAnomalies, measuring, liveLatencies)
    }

    constructor ()
      ensures Contents() == M.INITIAL
    {
      symbols, counters, expectedSymbols := map[], M.NO_COUNTERS, 0;
      subscribedAtNs, firstObservedNs, completedAtNs, firstLiveNs := 0, 0, 0, 0;
      callbacks, snapshotCallbacks, clockAnomalies, measuring, liveLatencies := 0, 0, 0, false, [];
    }

    method BeginSnapshot(expected: nat, subscribedAt: int)
      modifies this`expectedSymbols, this`subscribedAtNs
      ensures Contents() == M.BeginSnapshot(old(Contents()), expected, subscribedAt)
    {
      expectedSymbols := expected;
      subscribedAtNs := subscribedAt;
    }

    /** Counts a tick inside a snapshot and records its index. */
    static method Snapshotted(before: M.SymbolState, counted: M.Counters, t: M.Tick, completes: bool)
      returns (state: M.SymbolState, c: M.Counters)
      ensures state == M.SymbolState(before.started, before.complete || completes,
                                     if t.flags.remove then before.indices else before.indices + {t.index})
      ensures c == counted.(
                     completed := counted.completed + M.One(completes),
                     snapshotEvents := counted.snapshotEvents + M.One(!t.flags.remove),
                     ends := counted.ends + M.One(completes && t.flags.end),
                     snips := counted.snips + M.One(completes && t.flags.snip),
                     removals := counted.removals + M.One(t.flags.remove),
                     duplicates := counted.duplicates + M.One(!t.flags.remove && t.index in before.indices))
    {
      state, c := before, counted;
      if t.flags.remove {
        c := c.(removals := c.removals + 1);
      } else {
        c := c.(snapshotEvents := c.snapshotEvents + 1);
        if t.index in state.indices {
          c := c.(duplicates := c.duplicates + 1);
        }
        state := state.(indices := state.indices + {t.index});
      }
      if completes {
        state := state.(complete := true);
        c := c.(completed := c.completed + 1, ends := c.ends + M.One(t.flags.end), snips := c.snips + M.One(t.flags.snip));
      }
    }

    /** Updates the symbol's snapshot state and the counters; tells where the tick belongs. */
    method Classify(t: M.Tick) returns (inside: bool, completes: bool, wasComplete: bool)
      modifies this`symbols, this`counters
      ensures M.Track(symbols, counters) == M.Follow(old(M.Track(symbols, counters)), t)
      ensures
        var s := old(M.Track(symbols, counters)).Lookup(t.symbol);
        inside == M.InSnapshot(s, t.flags) && completes == M.Completes(s, t.flags) && wasComplete == s.complete
    {
      hide M.Counted, M.Counters.Plus;
      var state := if t.symbol in symbols then symbols[t.symbol] else M.UNSEEN;
      ghost var before := state;
      var c := counters;
      wasComplete := state.complete;
      var inSnapshot := state.started && !state.complete;
      if t.flags.begin {
        state := state.(started := true);
        c := c.(begins := c.begins + 1);
      }
      inside := t.flags.begin || t.flags.end || t.flags.snip || inSnapshot;
      completes := (t.flags.end || t.flags.snip) && !state.complete;
      if inside {
        state, c := Snapshotted(state, c, t, completes);
      } else if !state.complete {
        c := c.(premature := c.premature + 1);
      } else {
        c := c.(live := c.live + 1);
      }
      assert state == M.Touched(before, t);
      CountedParts(counters, before, t);
      symbols := symbols[t.symbol := state];
      counters := c;
    }

    method HandleTick(t: M.Tick, observed: int) returns (inside: bool)
      modifies this`symbols, this`counters, this`firstObservedNs, this`completedAtNs, this`firstLiveNs,
               this`clockAnomalies, this`liveLatencies
      ensures Contents() == M.Ticked(old(Contents()), t, observed)
      ensures inside == M.InSnapshot(old(Contents()).track.Lookup(t.symbol), t.flags)
    {
      hide M.Follow, M.Track.Lookup;
      if firstObservedNs == 0 {
        firstObservedNs := observed;
      }
      var completes, wasComplete;
      inside, completes, wasComplete := Classify(t);
      if completes && counters.completed == expectedSymbols {
        completedAtNs := observed;
      }
      if !inside && wasComplete {
        if firstLiveNs == 0 {
          firstLiveNs := observed;
        }
        if measuring {
          var latency := observed - t.timeNanos;
          if latency < 0 {
            clockAnomalies := clockAnomalies + 1;
          } else {
            liveLatencies := liveLatencies + [latency];
          }
        }
      }
    }

    method HandleTicks(events: seq<WireEvent>, observed: int) returns (containsSnapshotEvent: bool)
      modifies this`symbols, this`counters, this`firstObservedNs, this`completedAtNs, this`firstLiveNs,
               this`clockAnomalies, this`liveLatencies
      ensures Contents() == M.TickedAll(old(Contents()), M.TicksOf(events), observed)
      ensures containsSnapshotEvent == M.AnySnapshot(old(Contents()).track, M.TicksOf(events))
    {
      hide M.Ticked, M.TickOf, M.InSnapshot, M.Follow;
      containsSnapshotEvent := false;
      for i := 0 to |events|
        invariant Contents() == M.TickedAll(old(Contents()), M.TicksOf(events[..i]), observed)
        invariant containsSnapshotEvent == M.AnySnapshot(old(Contents()).track, M.TicksOf(events[..i]))
      {
        ghost var ticks := M.TicksOf(events[..i]);
        assert events[..i + 1][..i] == events[..i];
        var t := M.TickOf(events[i]);
        if t.Some? {
          OneMore(old(Contents()), ticks, t.value, observed);
          var inside := HandleTick(t.value, observed);
          containsSnapshotEvent := containsSnapshotEvent || inside;
        } else {
          assert ticks + [] == ticks;
        }
      }
      assert events[..|events|] == events;
    }

    /** One listener callback. */
    method HandleCallback(events: seq<WireEvent>, observed: int)
      modifies this
      ensures Contents() == M.Handle(old(Contents()), events, observed)
    {
      hide M.TickedAll, M.TicksOf, M.AnySnapshot;
      var containsSnapshotEvent := HandleTicks(events, observed);
      CallbacksUntouched(old(Contents()), M.TicksOf(events), observed);
      callbacks := callbacks + 1;
      snapshotCallbacks := snapshotCallbacks + M.One(containsSnapshotEvent);
    }

    method SnapshotComplete() returns (complete: bool)
      ensures complete == M.SnapshotComplete(Contents())
    {
      complete := expectedSymbols > 0 && counters.completed >= expectedSymbols;
    }

    method BeginMeasurement()
      modifies this`measuring, this`liveLatencies
      ensures Contents() == M.BeginMeasurement(old(Contents()))
    {
      measuring := true;
      liveLatencies := [];
    }

    method EndMeasurement()
      modifies this`measuring
      ensures Contents() == M.EndMeasurement(old(Contents()))
    {
      measuring := false;
    }
  }

  lemma OneMore(st: M.State, ticks: seq<M.Tick>, t: M.Tick, observed: int)
    ensures M.TickedAll(st, ticks + [t], observed) == M.Ticked(M.TickedAll(st, ticks, observed), t, observed)
    ensures M.AnySnapshot(st.track, ticks + [t])
         == (M.AnySnapshot(st.track, ticks)
             || M.InSnapshot(M.TickedAll(st, ticks, observed).track.Lookup(t.symbol), t.flags))
  {
    hide M.Ticked, M.InSnapshot, M.Follow;
    assert (ticks + [t])[..|ticks|] == ticks;
    TrackOf(st, ticks, observed);
  }

  lemma {:induction false} TrackOf(st: M.State, ticks: seq<M.Tick>, observed: int)
    ensures M.TickedAll(st, ticks, observed).track == M.FollowAll(st.track, ticks)
  {
    hide M.Follow;
    if ticks != [] {
      TrackOf(st, ticks[..|ticks| - 1], observed);
    }
  }

  lemma {:induction false} CallbacksUntouched(st: M.State, ticks: seq<M.Tick>, observed: int)
    ensures M.TickedAll(st, ticks, observed).callbacks == st.callbacks
    ensures M.TickedAll(st, ticks, observed).snapshotCallbacks == st.snapshotCallbacks
  {
    hide M.Follow;
    if ticks != [] {
      CallbacksUntouched(st, ticks[..|ticks| - 1], observed);
    }
  }
}
