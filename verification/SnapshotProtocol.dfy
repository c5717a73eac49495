/** The snapshot-to-live protocol: server framing (src/server.cpp) composed with the client's tracker (src/client.cpp). */
module SnapshotProtocol {
  import opened Events
  import opened History
  import opened TrackerModel
  import opened TrackerLaws

  /** One symbol's ticks, in order. */
  function View(ticks: seq<Tick>, symbol: string): seq<Tick> {
    if ticks == [] then [] else
    var last := ticks[|ticks| - 1];
    View(ticks[..|ticks| - 1], symbol) + if last.symbol == symbol then [last] else []
  }

  /** Flags of the i-th tick of a stream whose first n ticks are a snapshot. */
  predicate InFrame(t: Tick, i: nat, n: nat) {
    && (t.flags.begin <==> i == 0)
    && (t.flags.end || t.flags.snip <==> i == n - 1)
    && !(t.flags.end && t.flags.snip)
  }

  ghost predicate DistinctIndices(v: seq<Tick>, n: nat) {
    forall i, j :: 0 <= i < j < n && j < |v| && !v[i].flags.remove && !v[j].flags.remove ==> v[i].index != v[j].index
  }

  /** A stream, possibly still incomplete, of one snapshot of n ticks followed by live ticks. */
  ghost predicate WellFramed(v: seq<Tick>, n: nat) {
    n > 0 && (forall i :: 0 <= i < |v| ==> InFrame(v[i], i, n)) && DistinctIndices(v, n)
  }

  // One symbol.

  ghost function Recorded(v: seq<Tick>, n: nat): set<Index> {
    set i | 0 <= i < |v| && i < n && !v[i].flags.remove :: v[i].index
  }

  /** What the tracker knows of a symbol after a well-framed stream. */
  ghost function StateAfter(v: seq<Tick>, n: nat): SymbolState {
    SymbolState(v != [], |v| >= n, Recorded(v, n))
  }

  lemma RecordedGrows(v: seq<Tick>, t: Tick, n: nat)
    ensures Recorded(v + [t], n)
         == Recorded(v, n) + if |v| < n && !t.flags.remove then {t.index} else {}
  {
    var w := v + [t];
    forall x ensures x in Recorded(w, n) <==> x in Recorded(v, n) || (|v| < n && !t.flags.remove && x == t.index) {
      if x in Recorded(w, n) {
        var i :| 0 <= i < |w| && i < n && !w[i].flags.remove && x == w[i].index;
        assert i < |v| ==> w[i] == v[i];
      }
      if x in Recorded(v, n) {
        var i :| 0 <= i < |v| && i < n && !v[i].flags.remove && x == v[i].index;
        assert w[i] == v[i];
      }
      if |v| < n && !t.flags.remove && x == t.index {
        assert w[|v|] == t;
      }
    }
  }

  lemma FirstSeenHere(v: seq<Tick>, t: Tick, n: nat)
    requires WellFramed(v + [t], n) && |v| < n && !t.flags.remove
    ensures t.index !in Recorded(v, n)
  {
    var w := v + [t];
    forall i | 0 <= i < |v| && i < n && !v[i].flags.remove ensures v[i].index != t.index {
      assert w[i] == v[i] && w[|v|] == t;
    }
  }

  lemma FrontWellFramed(v: seq<Tick>, t: Tick, n: nat)
    requires WellFramed(v + [t], n)
    ensures WellFramed(v, n) && InFrame(t, |v|, n)
  {
    var w := v + [t];
    assert forall i :: 0 <= i < |v| ==> w[i] == v[i];
    assert w[|v|] == t;
  }

  /** A tick of a well-framed stream is never premature and never a duplicate. */
  lemma StepInFrame(v: seq<Tick>, t: Tick, n: nat)
    requires WellFramed(v + [t], n)
    ensures Touched(StateAfter(v, n), t) == StateAfter(v + [t], n)
    ensures
      var c := Counted(StateAfter(v, n), t);
      && c.begins == One(|v| == 0)
      && c.completed == c.ends + c.snips == One(|v| == n - 1)
      && c.live == One(|v| >= n)
      && c.premature == 0 && c.duplicates == 0
  {
    FrontWellFramed(v, t, n);
    RecordedGrows(v, t, n);
    if |v| < n && !t.flags.remove {
      FirstSeenHere(v, t, n);
    }
    hide Recorded, WellFramed;
  }

  // All symbols.

  ghost predicate Interleaved(ticks: seq<Tick>, lengths: map<string, nat>) {
    && (forall i :: 0 <= i < |ticks| ==> ticks[i].symbol in lengths)
    && (forall s :: s in lengths ==> WellFramed(View(ticks, s), lengths[s]))
  }

  ghost function Begun(ticks: seq<Tick>, lengths: map<string, nat>): set<string> {
    set s | s in lengths && View(ticks, s) != []
  }

  ghost function Done(ticks: seq<Tick>, lengths: map<string, nat>): set<string> {
    set s | s in lengths && |View(ticks, s)| >= lengths[s]
  }

  ghost predicate Clean(k: Track, ticks: seq<Tick>, lengths: map<string, nat>) {
    var c := k.counters;
    && (forall s :: s in lengths ==> k.Lookup(s) == StateAfter(View(ticks, s), lengths[s]))
    && c.begins == |Begun(ticks, lengths)|
    && c.completed == c.ends + c.snips == |Done(ticks, lengths)|
    && c.premature == 0 && c.duplicates == 0
  }

  lemma ViewLast(front: seq<Tick>, t: Tick, symbol: string)
    ensures View(front + [t], symbol) == View(front, symbol) + if t.symbol == symbol then [t] else []
  {
    var w := front + [t];
    assert w[..|w| - 1] == front && w[|w| - 1] == t;
  }

  lemma BegunGrows(front: seq<Tick>, t: Tick, lengths: map<string, nat>)
    requires t.symbol in lengths
    ensures |Begun(front + [t], lengths)| == |Begun(front, lengths)| + One(|View(front, t.symbol)| == 0)
  {
    hide View;
    var added := if |View(front, t.symbol)| == 0 then {t.symbol} else {};
    forall s | s in lengths
      ensures s in Begun(front + [t], lengths) <==> s in Begun(front, lengths) + added
    {
      ViewLast(front, t, s);
    }
    assert Begun(front + [t], lengths) == Begun(front, lengths) + added;
  }

  lemma DoneGrows(front: seq<Tick>, t: Tick, lengths: map<string, nat>)
    requires t.symbol in lengths && lengths[t.symbol] > 0
    ensures |Done(front + [t], lengths)|
         == |Done(front, lengths)| + One(|View(front, t.symbol)| == lengths[t.symbol] - 1)
  {
    hide View;
    var added := if |View(front, t.symbol)| == lengths[t.symbol] - 1 then {t.symbol} else {};
    forall s | s in lengths
      ensures s in Done(front + [t], lengths) <==> s in Done(front, lengths) + added
    {
      ViewLast(front, t, s);
    }
    assert Done(front + [t], lengths) == Done(front, lengths) + added;
  }

  lemma FrontInterleaved(front: seq<Tick>, t: Tick, lengths: map<string, nat>)
    requires Interleaved(front + [t], lengths)
    ensures Interleaved(front, lengths) && t.symbol in lengths && lengths[t.symbol] > 0
    ensures WellFramed(View(front, t.symbol) + [t], lengths[t.symbol])
    ensures View(front + [t], t.symbol) == View(front, t.symbol) + [t]
    ensures forall s :: s != t.symbol ==> View(front + [t], s) == View(front, s)
  {
    var w := front + [t];
    assert w[..|w| - 1] == front && w[|w| - 1] == t;
    assert WellFramed(View(w, t.symbol), lengths[t.symbol]) by {
      assert w[|front|].symbol in lengths;
    }
    forall i | 0 <= i < |front| ensures front[i].symbol in lengths {
      assert w[i] == front[i];
    }
    forall s | s != t.symbol ensures View(w, s) == View(front, s) {
      assert View(front, s) + [] == View(front, s);
    }
    forall s | s in lengths ensures WellFramed(View(front, s), lengths[s]) {
      assert WellFramed(View(w, s), lengths[s]);
      if s == t.symbol {
        FrontWellFramed(View(front, s), t, lengths[s]);
      }
    }
  }

  lemma CleanStep(k: Track, front: seq<Tick>, t: Tick, lengths: map<string, nat>)
    requires Interleaved(front + [t], lengths) && Clean(k, front, lengths)
    ensures Clean(Follow(k, t), front + [t], lengths)
  {
    hide View, WellFramed, Touched, Counted, StateAfter, Begun, Done, Interleaved;
    FrontInterleaved(front, t, lengths);
    var n := lengths[t.symbol];
    StepInFrame(View(front, t.symbol), t, n);
    BegunGrows(front, t, lengths);
    DoneGrows(front, t, lengths);
    forall s | s in lengths ensures Follow(k, t).Lookup(s) == StateAfter(View(front + [t], s), lengths[s]) {
      assert s != t.symbol ==> Follow(k, t).Lookup(s) == k.Lookup(s);
    }
  }

  /** Whatever the interleaving, the tracker's counters are read off the per-symbol streams. */
  lemma {:induction false} InterleavingClean(ticks: seq<Tick>, lengths: map<string, nat>)
    requires Interleaved(ticks, lengths)
    ensures Clean(FollowAll(NO_TRACK, ticks), ticks, lengths)
  {
    hide WellFramed, Follow, Interleaved;
    if ticks == [] {
      NothingFollowed(lengths);
    } else {
      var front, last := ticks[..|ticks| - 1], ticks[|ticks| - 1];
      assert front + [last] == ticks;
      FrontInterleaved(front, last, lengths);
      InterleavingClean(front, lengths);
      CleanStep(FollowAll(NO_TRACK, front), front, last, lengths);
    }
  }

  lemma NothingFollowed(lengths: map<string, nat>)
    requires Interleaved([], lengths)
    ensures Clean(NO_TRACK, [], lengths)
  {
    forall s | s in lengths ensures NO_TRACK.Lookup(s) == StateAfter(View([], s), lengths[s]) {
      assert WellFramed(View([], s), lengths[s]);
      assert Recorded([], lengths[s]) == {};
    }
    assert Begun([], lengths) == {};
    assert Done([], lengths) == {} by {
      forall s | s in lengths ensures s !in Done([], lengths) {
        assert WellFramed(View([], s), lengths[s]);
      }
    }
  }

  // The server's side.

  /** A requested symbol: what the server retains for it, the requested time, and what it publishes afterwards. */
  datatype Request = Request(history: History, fromTime: int, live: seq<Record>)

  function LiveEvents(symbol: string, live: seq<Record>): seq<WireEvent> {
    seq(|live|, i requires 0 <= i < |live| => EventOf(symbol, live[i], NO_FLAGS))
  }

  /** The wire events of one requested symbol, in the order in which they are published. */
  function Feed(symbol: string, r: Request): seq<WireEvent> {
    SnapshotBlock(symbol, r.history, r.fromTime) + LiveEvents(symbol, r.live)
  }

  function Ticking(events: seq<WireEvent>): seq<Tick>
    requires forall i :: 0 <= i < |events| ==> events[i].TimeAndSaleEvent?
  {
    seq(|events|, i requires 0 <= i < |events| => TickOf(events[i]).value)
  }

  function Identity(r: Record): Index {
    (r.Millis(), r.sequence)
  }

  ghost predicate DistinctRecords(records: seq<Record>) {
    forall i, j :: 0 <= i < j < |records| ==> Identity(records[i]) != Identity(records[j])
  }

  lemma BlockShape(symbol: string, h: History, fromTime: int, i: nat)
    requires i < |SnapshotBlock(symbol, h, fromTime)|
    ensures
      var block, walked := SnapshotBlock(symbol, h, fromTime), Walked(h.records, fromTime);
      && |walked| <= |block| <= |walked| + 1
      && block[i].TimeAndSaleEvent? && block[i].symbol == symbol
      && InFrame(TickOf(block[i]).value, i, |block|)
      && (block[i].flags.remove <==> i == |walked|)
      && (i < |walked| ==> TickOf(block[i]).value.index == Identity(walked[i]))
  {
    hide Walked;
  }

  lemma {:induction false} WalkedFrom(records: seq<Record>, fromTime: int, i: nat)
    requires i < |Walked(records, fromTime)|
    ensures i < |records| && Walked(records, fromTime)[i] == records[|records| - 1 - i]
  {
    if i > 0 {
      WalkedFrom(records[..|records| - 1], fromTime, i - 1);
    }
  }

  /** A snapshot followed by live events is a well-framed stream. */
  lemma FeedWellFramed(symbol: string, r: Request)
    requires DistinctRecords(r.history.records)
    ensures forall i :: 0 <= i < |Feed(symbol, r)| ==>
      Feed(symbol, r)[i].TimeAndSaleEvent? && Feed(symbol, r)[i].symbol == symbol
    ensures WellFramed(Ticking(Feed(symbol, r)), |SnapshotBlock(symbol, r.history, r.fromTime)|)
  {
    hide Walked, SnapshotBlock, InFrame;
    var feed := Feed(symbol, r);
    var block, walked := SnapshotBlock(symbol, r.history, r.fromTime), Walked(r.history.records, r.fromTime);
    forall i | 0 <= i < |block|
      ensures feed[i].TimeAndSaleEvent? && feed[i].symbol == symbol && InFrame(TickOf(feed[i]).value, i, |block|)
    {
      BlockShape(symbol, r.history, r.fromTime, i);
    }
    BlockNonEmpty(symbol, r.history, r.fromTime);
    forall i | |block| <= i < |feed|
      ensures feed[i].TimeAndSaleEvent? && feed[i].symbol == symbol && InFrame(TickOf(feed[i]).value, i, |block|)
    {
      LiveInFrame(symbol, r.live[i - |block|], i, |block|);
    }
    var v := Ticking(feed);
    forall i, j | 0 <= i < j < |block| && !v[i].flags.remove && !v[j].flags.remove ensures v[i].index != v[j].index {
      BlockShape(symbol, r.history, r.fromTime, i);
      BlockShape(symbol, r.history, r.fromTime, j);
      WalkedFrom(r.history.records, r.fromTime, i);
      WalkedFrom(r.history.records, r.fromTime, j);
    }
  }

  lemma BlockNonEmpty(symbol: string, h: History, fromTime: int)
    ensures SnapshotBlock(symbol, h, fromTime) != []
  {
    hide Walked;
  }

  lemma LiveInFrame(symbol: string, r: Record, i: nat, n: nat)
    requires 0 < n <= i
    ensures InFrame(TickOf(EventOf(symbol, r, NO_FLAGS)).value, i, n)
  {
  }

  // Composition.

  /** The client's callbacks deliver exactly the requested symbols' feeds, each symbol's in publication order. */
  ghost predicate Delivers(steps: seq<Step>, requests: map<string, Request>) {
    var ticks := RunTicks(steps);
    && (forall i :: 0 <= i < |ticks| ==> ticks[i].symbol in requests)
    && (forall s :: s in requests ==>
          && DistinctRecords(requests[s].history.records)
          && (forall i :: 0 <= i < |Feed(s, requests[s])| ==> Feed(s, requests[s])[i].TimeAndSaleEvent?)
          && View(ticks, s) == Ticking(Feed(s, requests[s])))
  }

  ghost predicate FreshSubscription(steps: seq<Step>, expected: nat) {
    steps != [] && steps[0].Snapshot? && steps[0].expected == expected && NoSnapshotStep(steps[1..])
  }

  /** The acceptance rule applied to the tracker's report. */
  predicate IntegrityOk(st: State, unsubscribed: bool) {
    var c := st.track.counters;
    && st.expected > 0
    && c.completed == st.expected && c.begins == st.expected && c.ends + c.snips == st.expected
    && c.duplicates == 0 && c.premature == 0 && st.clockAnomalies == 0
    && (unsubscribed || st.liveLatencies != [])
  }

  /** A report that passes accounts for every event: each is a distinct record, a removal or a live event. */
  lemma IntegrityMeans(steps: seq<Step>, unsubscribed: bool)
    requires IntegrityOk(Run(INITIAL, steps), unsubscribed)
    ensures
      var st := Run(INITIAL, steps);
      var c := st.track.counters;
      && |CompleteSymbols(st.track.symbols)| == st.expected > 0
      && c.begins == st.expected && c.ends + c.snips == st.expected
      && |SeenIndices(st.track.symbols)| + c.removals + c.live == |RunTicks(steps)|
      && st.clockAnomalies == 0 && (unsubscribed || |st.liveLatencies| > 0)
  {
    hide Run, RunTicks, CompleteSymbols, SeenIndices;
    RunAccounted(steps);
  }

  lemma {:induction false} ExpectedKept(st: State, steps: seq<Step>)
    requires NoSnapshotStep(steps)
    ensures Run(st, steps).expected == st.expected
  {
    hide TickedAll, TicksOf, AnySnapshot;
    if steps != [] {
      var front, last := steps[..|steps| - 1], steps[|steps| - 1];
      ExpectedKept(st, front);
      if last.Callback? {
        TickedTrack(Run(st, front), TicksOf(last.events), last.observed);
      }
    }
  }

  lemma {:induction false} RunTail(st: State, steps: seq<Step>)
    requires steps != []
    ensures Run(st, steps) == Run(Next(st, steps[0]), steps[1..])
  {
    hide Next;
    if |steps| > 1 {
      RunTail(st, steps[..|steps| - 1]);
      assert steps[..|steps| - 1][1..] == steps[1..][..|steps| - 2];
    } else {
      assert steps[..0] == [] && Run(st, []) == st;
      assert Run(Next(st, steps[0]), []) == Next(st, steps[0]);
    }
  }

  ghost function Lengths(requests: map<string, Request>): map<string, nat> {
    map s | s in requests :: |SnapshotBlock(s, requests[s].history, requests[s].fromTime)|
  }

  lemma DeliveredInterleaved(steps: seq<Step>, requests: map<string, Request>)
    requires Delivers(steps, requests)
    ensures Interleaved(RunTicks(steps), Lengths(requests))
    ensures Begun(RunTicks(steps), Lengths(requests)) == Done(RunTicks(steps), Lengths(requests)) == requests.Keys
  {
    hide View, Feed, SnapshotBlock, RunTicks, WellFramed, DistinctRecords;
    var ticks, lengths := RunTicks(steps), Lengths(requests);
    forall s | s in lengths
      ensures WellFramed(View(ticks, s), lengths[s]) && |View(ticks, s)| >= lengths[s] && View(ticks, s) != []
    {
      FeedWellFramed(s, requests[s]);
      FeedLength(s, requests[s]);
    }
    assert Begun(ticks, lengths) == requests.Keys;
    assert Done(ticks, lengths) == requests.Keys;
  }

  lemma SubscribedTrack(steps: seq<Step>, expected: nat)
    requires FreshSubscription(steps, expected)
    ensures Run(INITIAL, steps).expected == expected
    ensures Run(INITIAL, steps).track == FollowAll(NO_TRACK, RunTicks(steps))
  {
    hide Run, RunTicks, FollowAll;
    RunTail(INITIAL, steps);
    ExpectedKept(Next(INITIAL, steps[0]), steps[1..]);
    RunTrack(INITIAL, steps);
  }

  /** Snapshot blocks and live events, under any interleaving and callback chunking, satisfy the acceptance rule. */
  lemma SnapshotDelivery(steps: seq<Step>, requests: map<string, Request>, unsubscribed: bool)
    requires FreshSubscription(steps, |requests|) && Delivers(steps, requests)
    ensures
      var st := Run(INITIAL, steps);
      var c := st.track.counters;
      && c.completed == c.begins == c.ends + c.snips == st.expected == |requests|
      && c.duplicates == 0 && c.premature == 0
      && (IntegrityOk(st, unsubscribed) <==>
            requests != map[] && st.clockAnomalies == 0 && (unsubscribed || st.liveLatencies != []))
  {
    hide Run, RunTicks, FollowAll, Begun, Done, Interleaved, Delivers, FreshSubscription, StateAfter, Lengths;
    SubscribedTrack(steps, |requests|);
    DeliveredInterleaved(steps, requests);
    InterleavingClean(RunTicks(steps), Lengths(requests));
    assert |requests.Keys| == |requests|;
    assert requests == map[] <==> |requests| == 0;
  }

  lemma FeedLength(symbol: string, r: Request)
    ensures |Feed(symbol, r)| >= |SnapshotBlock(symbol, r.history, r.fromTime)| > 0
  {
    hide SnapshotBlock;
    BlockNonEmpty(symbol, r.history, r.fromTime);
  }
}
