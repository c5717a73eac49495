/** What the client's time-series tracker does, as functions on values (src/client.cpp). */
module TrackerModel {
  import opened Common
  import opened Events

  /** A TimeAndSale index identifies a record's millisecond and sequence. */
  type Index = (int, int)

  datatype SymbolState = SymbolState(started: bool, complete: bool, indices: set<Index>)

  const UNSEEN := SymbolState(false, false, {})

  datatype Counters = Counters(
    completed: nat, snapshotEvents: nat, begins: nat, ends: nat, snips: nat, removals: nat,
    live: nat, premature: nat, duplicates: nat)
  {
    function Plus(c: Counters): Counters {
      Counters(completed + c.completed, snapshotEvents + c.snapshotEvents, begins + c.begins, ends + c.ends,
               snips + c.snips, removals + c.removals, live + c.live, premature + c.premature,
               duplicates + c.duplicates)
    }
  }

  const NO_COUNTERS := Counters(0, 0, 0, 0, 0, 0, 0, 0, 0)

  /** One TimeAndSale event as the tracker reads it. */
  datatype Tick = Tick(symbol: string, index: Index, flags: Flags, timeNanos: int)

  function TickOf(e: WireEvent): Option<Tick> {
    match e
    case TimeAndSaleEvent(symbol, timeNanos, sequence, _, flags) =>
      Some(Tick(symbol, (timeNanos / NANOS_PER_MILLI, sequence), flags, timeNanos))
    case _ => None
  }

  function TicksOf(events: seq<WireEvent>): seq<Tick> {
    if events == [] then [] else
    var tick := TickOf(events[|events| - 1]);
    TicksOf(events[..|events| - 1]) + if tick.Some? then [tick.value] else []
  }

  /** Snapshot events are those with a snapshot flag and those inside a started, incomplete snapshot. */
  predicate InSnapshot(s: SymbolState, f: Flags) {
    f.begin || f.end || f.snip || (s.started && !s.complete)
  }

  predicate Completes(s: SymbolState, f: Flags) {
    (f.end || f.snip) && !s.complete
  }

  function One(b: bool): nat {
    if b then 1 else 0
  }

  /** The symbol's state after a tick. */
  function Touched(s: SymbolState, t: Tick): SymbolState {
    var inside := InSnapshot(s, t.flags);
    SymbolState(s.started || t.flags.begin,
                s.complete || (t.flags.end || t.flags.snip),
                if inside && !t.flags.remove then s.indices + {t.index} else s.indices)
  }

  /** What a tick adds to the counters. */
  function Counted(s: SymbolState, t: Tick): Counters {
    var inside := InSnapshot(s, t.flags);
    var completes := Completes(s, t.flags);
    Counters(One(completes), One(inside && !t.flags.remove), One(t.flags.begin),
             One(completes && t.flags.end), One(completes && t.flags.snip), One(inside && t.flags.remove),
             One(!inside && s.complete), One(!inside && !s.complete),
             One(inside && !t.flags.remove && t.index in s.indices))
  }

  datatype Track = Track(symbols: map<string, SymbolState>, counters: Counters) {
    function Lookup(symbol: string): SymbolState {
      if symbol in symbols then symbols[symbol] else UNSEEN
    }
  }

  const NO_TRACK := Track(map[], NO_COUNTERS)

  function Follow(k: Track, t: Tick): Track {
    var s := k.Lookup(t.symbol);
    Track(k.symbols[t.symbol := Touched(s, t)], k.counters.Plus(Counted(s, t)))
  }

  function FollowAll(k: Track, ticks: seq<Tick>): Track {
    if ticks == [] then k else Follow(FollowAll(k, ticks[..|ticks| - 1]), ticks[|ticks| - 1])
  }

  datatype State = State(
    track: Track, expected: nat, subscribedAt: int, firstObserved: int, completedAt: int, firstLive: int,
    callbacks: nat, snapshotCallbacks: nat, clockAnomalies: nat, measuring: bool, liveLatencies: seq<int>)

  const INITIAL := State(NO_TRACK, 0, 0, 0, 0, 0, 0, 0, 0, false, [])

  function BeginSnapshot(st: State, expected: nat, subscribedAt: int): State {
    st.(expected := expected, subscribedAt := subscribedAt)
  }

  predicate GoesLive(st: State, t: Tick) {
    !InSnapshot(st.track.Lookup(t.symbol), t.flags) && st.track.Lookup(t.symbol).complete
  }

  function Ticked(st: State, t: Tick, observed: int): State {
    var s := st.track.Lookup(t.symbol);
    var next := Follow(st.track, t);
    var live := GoesLive(st, t);
    var latency := observed - t.timeNanos;
    st.(track := next,
        firstObserved := if st.firstObserved == 0 then observed else st.firstObserved,
        completedAt := if Completes(s, t.flags) && next.counters.completed == st.expected then observed
                       else st.completedAt,
        firstLive := if live && st.firstLive == 0 then observed else st.firstLive,
        clockAnomalies := st.clockAnomalies + One(live && st.measuring && latency < 0),
        liveLatencies := if live && st.measuring && latency >= 0 then st.liveLatencies + [latency]
                         else st.liveLatencies)
  }

  function TickedAll(st: State, ticks: seq<Tick>, observed: int): State {
    if ticks == [] then st
    else Ticked(TickedAll(st, ticks[..|ticks| - 1], observed), ticks[|ticks| - 1], observed)
  }

  /** Whether some tick of a callback belongs to a snapshot. */
  function AnySnapshot(k: Track, ticks: seq<Tick>): bool {
    if ticks == [] then false else
    var front, last := ticks[..|ticks| - 1], ticks[|ticks| - 1];
    AnySnapshot(k, front) || InSnapshot(FollowAll(k, front).Lookup(last.symbol), last.flags)
  }

  function Handle(st: State, events: seq<WireEvent>, observed: int): State {
    var ticks := TicksOf(events);
    var after := TickedAll(st, ticks, observed);
    after.(callbacks := st.callbacks + 1, snapshotCallbacks := st.snapshotCallbacks + One(AnySnapshot(st.track, ticks)))
  }

  function BeginMeasurement(st: State): State {
    st.(measuring := true, liveLatencies := [])
  }

  function EndMeasurement(st: State): State {
    st.(measuring := false)
  }

  predicate SnapshotComplete(st: State) {
    st.expected > 0 && st.track.counters.completed >= st.expected
  }
}
