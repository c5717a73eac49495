/** Accounting of the time-series tracker over any run of callbacks. */
module TrackerLaws {
  import opened Events
  import opened TrackerModel

  ghost function CompleteSymbols(symbols: map<string, SymbolState>): set<string> {
    set s | s in symbols && symbols[s].complete
  }

  /** Every (symbol, index) pair recorded inside a snapshot. */
  ghost function SeenIndices(symbols: map<string, SymbolState>): set<(string, Index)> {
    set s, i | s in symbols && i in symbols[s].indices :: (s, i)
  }

  ghost predicate Accounted(k: Track, ticks: nat) {
    var c := k.counters;
    && c.snapshotEvents + c.removals + c.premature + c.live == ticks
    && c.snapshotEvents == c.duplicates + |SeenIndices(k.symbols)|
    && c.completed == |CompleteSymbols(k.symbols)|
    && c.completed <= c.ends + c.snips
  }

  lemma CompletedStep(k: Track, t: Tick)
    ensures |CompleteSymbols(Follow(k, t).symbols)|
         == |CompleteSymbols(k.symbols)| + One(Completes(k.Lookup(t.symbol), t.flags))
  {
    var after := Follow(k, t).symbols;
    var before := CompleteSymbols(k.symbols);
    if Completes(k.Lookup(t.symbol), t.flags) {
      assert t.symbol !in before;
      assert CompleteSymbols(after) == before + {t.symbol};
    } else {
      assert CompleteSymbols(after) == before;
    }
  }

  lemma SeenSame(m: map<string, SymbolState>, symbol: string, s: SymbolState)
    requires s.indices == (if symbol in m then m[symbol].indices else {})
    ensures SeenIndices(m[symbol := s]) == SeenIndices(m)
  {
    forall p ensures p in SeenIndices(m[symbol := s]) <==> p in SeenIndices(m) {
      SeenMember(m, p.0, p.1);
      SeenMember(m[symbol := s], p.0, p.1);
    }
  }

  lemma SeenMember(m: map<string, SymbolState>, symbol: string, i: Index)
    ensures (symbol, i) in SeenIndices(m) <==> symbol in m && i in m[symbol].indices
  {
  }

  lemma SeenMore(m: map<string, SymbolState>, symbol: string, s: SymbolState, index: Index)
    requires s.indices == (if symbol in m then m[symbol].indices else {}) + {index}
    ensures SeenIndices(m[symbol := s]) == SeenIndices(m) + {(symbol, index)}
  {
    hide SeenIndices;
    forall p ensures p in SeenIndices(m[symbol := s]) <==> p in SeenIndices(m) + {(symbol, index)} {
      SeenMember(m, p.0, p.1);
      SeenMember(m[symbol := s], p.0, p.1);
    }
  }

  lemma SeenStep(k: Track, t: Tick)
    ensures
      var s := k.Lookup(t.symbol);
      var recorded := InSnapshot(s, t.flags) && !t.flags.remove;
      |SeenIndices(Follow(k, t).symbols)| == |SeenIndices(k.symbols)| + One(recorded && t.index !in s.indices)
  {
    hide SeenIndices, InSnapshot, Completes;
    var s := k.Lookup(t.symbol);
    SeenMember(k.symbols, t.symbol, t.index);
    if InSnapshot(s, t.flags) && !t.flags.remove && t.index !in s.indices {
      SeenMore(k.symbols, t.symbol, Touched(s, t), t.index);
    } else {
      assert s.indices + {t.index} == s.indices || Touched(s, t).indices == s.indices;
      SeenSame(k.symbols, t.symbol, Touched(s, t));
    }
  }

  lemma FollowAccounted(k: Track, t: Tick, ticks: nat)
    requires Accounted(k, ticks)
    ensures Accounted(Follow(k, t), ticks + 1)
  {
    CompletedStep(k, t);
    SeenStep(k, t);
    hide CompleteSymbols, SeenIndices;
  }

  /** Each event is counted once; duplicates and completions are exactly what the per-symbol states show. */
  lemma {:induction false} FollowAllAccounted(ticks: seq<Tick>)
    ensures Accounted(FollowAll(NO_TRACK, ticks), |ticks|)
  {
    hide Follow;
    if ticks == [] {
      assert CompleteSymbols(map[]) == {} && SeenIndices(map[]) == {};
    } else {
      FollowAllAccounted(ticks[..|ticks| - 1]);
      FollowAccounted(FollowAll(NO_TRACK, ticks[..|ticks| - 1]), ticks[|ticks| - 1], |ticks| - 1);
    }
  }

  /** A complete symbol stays complete. */
  lemma {:induction false} CompletionPermanent(k: Track, ticks: seq<Tick>, symbol: string)
    requires k.Lookup(symbol).complete
    ensures FollowAll(k, ticks).Lookup(symbol).complete
  {
    if ticks != [] {
      CompletionPermanent(k, ticks[..|ticks| - 1], symbol);
    }
  }

  // Runs.

  datatype Step =
    | Snapshot(expected: nat, subscribedAt: int)
    | Callback(events: seq<WireEvent>, observed: int)
    | StartMeasuring
    | StopMeasuring

  function Next(st: State, step: Step): State {
    match step
    case Snapshot(expected, subscribedAt) => BeginSnapshot(st, expected, subscribedAt)
    case Callback(events, observed) => Handle(st, events, observed)
    case StartMeasuring => BeginMeasurement(st)
    case StopMeasuring => EndMeasurement(st)
  }

  function Run(st: State, steps: seq<Step>): State {
    if steps == [] then st else Next(Run(st, steps[..|steps| - 1]), steps[|steps| - 1])
  }

  /** All TimeAndSale events of a run, callback after callback. */
  function RunTicks(steps: seq<Step>): seq<Tick> {
    if steps == [] then [] else
    var last := steps[|steps| - 1];
    RunTicks(steps[..|steps| - 1]) + if last.Callback? then TicksOf(last.events) else []
  }

  lemma {:induction false} FollowAppend(k: Track, a: seq<Tick>, b: seq<Tick>)
    ensures FollowAll(k, a + b) == FollowAll(FollowAll(k, a), b)
  {
    hide Follow;
    if b == [] {
      assert a + b == a;
    } else {
      FollowAppend(k, a, b[..|b| - 1]);
      assert (a + b)[..|a + b| - 1] == a + b[..|b| - 1];
    }
  }

  lemma {:induction false} TickedTrack(st: State, ticks: seq<Tick>, observed: int)
    ensures TickedAll(st, ticks, observed).track == FollowAll(st.track, ticks)
    ensures TickedAll(st, ticks, observed).expected == st.expected
  {
    hide Follow;
    if ticks != [] {
      TickedTrack(st, ticks[..|ticks| - 1], observed);
    }
  }

  /** Callback boundaries and clocks do not influence the counters. */
  lemma {:induction false} RunTrack(st: State, steps: seq<Step>)
    ensures Run(st, steps).track == FollowAll(st.track, RunTicks(steps))
  {
    hide TickedAll, TicksOf, AnySnapshot, Follow;
    if steps != [] {
      var front, last := steps[..|steps| - 1], steps[|steps| - 1];
      RunTrack(st, front);
      if last.Callback? {
        TickedTrack(Run(st, front), TicksOf(last.events), last.observed);
        FollowAppend(st.track, RunTicks(front), TicksOf(last.events));
      } else {
        assert RunTicks(front) + [] == RunTicks(front);
      }
    }
  }

  /** The accounts of a whole run. */
  lemma RunAccounted(steps: seq<Step>)
    ensures
      var k := Run(INITIAL, steps).track;
      var c := k.counters;
      && c.snapshotEvents + c.removals + c.premature + c.live == |RunTicks(steps)|
      && c.snapshotEvents == c.duplicates + |SeenIndices(k.symbols)|
      && c.completed == |CompleteSymbols(k.symbols)|
  {
    hide Run, FollowAll, RunTicks, SeenIndices, CompleteSymbols;
    RunTrack(INITIAL, steps);
    FollowAllAccounted(RunTicks(steps));
  }

  /** The completion time belongs to the callback in which the expected count is reached, and never changes after. */
  lemma {:induction false} CompletionTime(st: State, ticks: seq<Tick>, observed: int)
    ensures
      var after := TickedAll(st, ticks, observed);
      var n, before, now := st.expected, st.track.counters.completed, after.track.counters.completed;
      && before <= now && after.expected == n
      && after.completedAt == if before < n <= now then observed else st.completedAt
  {
    hide Touched, Track.Lookup;
    if ticks != [] {
      CompletionTime(st, ticks[..|ticks| - 1], observed);
    }
  }

  predicate NoSnapshotStep(steps: seq<Step>) {
    forall i :: 0 <= i < |steps| ==> !steps[i].Snapshot?
  }

  /** After one subscription, the completion time is set at most once: exactly when every symbol is complete. */
  lemma {:induction false} CompletedOnce(st: State, steps: seq<Step>)
    requires NoSnapshotStep(steps) && st.track.counters.completed < st.expected
    ensures
      var after := Run(st, steps);
      && after.expected == st.expected
      && (!SnapshotComplete(after) ==> after.completedAt == st.completedAt)
      && (SnapshotComplete(after) ==>
            exists i :: 0 <= i < |steps| && steps[i].Callback? && after.completedAt == steps[i].observed
              && !SnapshotComplete(Run(st, steps[..i])) && SnapshotComplete(Run(st, steps[..i + 1])))
  {
    hide TickedAll, TicksOf, AnySnapshot;
    if steps != [] {
      var n := |steps| - 1;
      var front, last := steps[..n], steps[n];
      CompletedOnce(st, front);
      if last.Callback? {
        CompletionTime(Run(st, front), TicksOf(last.events), last.observed);
      }
      assert steps[..n + 1] == steps;
      if SnapshotComplete(Run(st, front)) {
        var i :| 0 <= i < |front| && front[i].Callback? && Run(st, front).completedAt == front[i].observed
                && !SnapshotComplete(Run(st, front[..i])) && SnapshotComplete(Run(st, front[..i + 1]));
        assert steps[i] == front[i] && front[..i] == steps[..i] && front[..i + 1] == steps[..i + 1];
      } else if SnapshotComplete(Run(st, steps)) {
        assert last.Callback? && Run(st, steps).completedAt == steps[n].observed;
      }
    }
  }
}
