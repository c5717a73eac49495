/** The three timestamp filters applied in parallel to Trade and TradeETH source times (src/core.cpp). */
module SourceTime {
  import opened Common
  import opened Events

  datatype Observation = Observation(kind: EventKind, symbol: string, sourceMs: int, observedNs: int) {
    function Series(): string {
      [kind.Code()] + ":" + symbol
    }

    predicate Counted() {
      sourceMs > 0
    }

    function LatencyMs(): int {
      TruncDiv(observedNs, NANOS_PER_MILLI) - sourceMs
    }

    /** Negative latencies are represented as zero. */
    function LatencyNs(): int {
      Max(0, LatencyMs()) * NANOS_PER_MILLI
    }
  }

  lemma SeriesIdentifies(a: Observation, b: Observation)
    ensures a.Series() == b.Series() <==> a.kind == b.kind && a.symbol == b.symbol
  {
    if a.Series() == b.Series() {
      assert a.Series()[0] == b.Series()[0];
      assert a.Series()[2..] == a.symbol && b.Series()[2..] == b.symbol;
    }
  }

  /**
   * A latency is the time since the source's millisecond, rounded down to whole milliseconds; it is zero, and counts as
   * clamped, when the observation precedes that millisecond.
   */
  lemma LatencyBrackets(o: Observation)
    requires o.sourceMs > 0
    ensures
      var since := o.observedNs - o.sourceMs * 1_000_000;
      && o.LatencyNs() % 1_000_000 == 0 && (o.LatencyMs() < 0 <==> since < 0)
      && (if since >= 0 then o.LatencyNs() <= since < o.LatencyNs() + 1_000_000 else o.LatencyNs() == 0)
  {
  }

  // What each filter is meant to select, stated on the whole observation history.

  datatype Rule = All | PerSeries | Global

  /** An observation passes a filter when its time exceeds every earlier counted time in the filter's scope. */
  ghost predicate Accepts(rule: Rule, h: seq<Observation>, i: nat)
    requires i < |h|
  {
    h[i].Counted() &&
    match rule
    case All => true
    case PerSeries => forall j :: 0 <= j < i && h[j].Counted() && h[j].Series() == h[i].Series()
                        ==> h[j].sourceMs < h[i].sourceMs
    case Global => forall j :: 0 <= j < i && h[j].Counted() ==> h[j].sourceMs < h[i].sourceMs
  }

  /** Latencies of the accepted observations among the first n, in arrival order. */
  ghost function Selected(rule: Rule, h: seq<Observation>, n: nat): seq<int>
    requires n <= |h|
  {
    if n == 0 then []
    else Selected(rule, h, n - 1) + if Accepts(rule, h, n - 1) then [h[n - 1].LatencyNs()] else []
  }

  ghost function Clamped(rule: Rule, h: seq<Observation>, n: nat): nat
    requires n <= |h|
  {
    if n == 0 then 0
    else Clamped(rule, h, n - 1) + if Accepts(rule, h, n - 1) && h[n - 1].LatencyMs() < 0 then 1 else 0
  }

  // What the class computes: one pass that remembers a running maximum per scope.

  datatype Data = Data(
    all: seq<int>, perSeriesMonotonic: seq<int>, globalMonotonic: seq<int>,
    perSeriesRejected: nat, globalRejected: nat,
    allClamped: nat, perSeriesClamped: nat, globalClamped: nat)

  datatype State = State(data: Data, lastBySeries: map<string, int>, lastGlobal: Option<int>)

  const NO_DATA := Data([], [], [], 0, 0, 0, 0, 0)
  const EMPTY := State(NO_DATA, map[], None)

  predicate SeriesAdvances(s: State, o: Observation) {
    o.Series() !in s.lastBySeries || o.sourceMs > s.lastBySeries[o.Series()]
  }

  predicate GlobalAdvances(s: State, o: Observation) {
    s.lastGlobal.None? || o.sourceMs > s.lastGlobal.value
  }

  function Observed(s: State, o: Observation): State {
    if !o.Counted() then s else
    var clamp := if o.LatencyMs() < 0 then 1 else 0;
    var sample := [o.LatencyNs()];
    var d := s.data.(all := s.data.all + sample, allClamped := s.data.allClamped + clamp);
    var e :=
      if SeriesAdvances(s, o) then
        d.(perSeriesMonotonic := d.perSeriesMonotonic + sample, perSeriesClamped := d.perSeriesClamped + clamp)
      else d.(perSeriesRejected := d.perSeriesRejected + 1);
    var f :=
      if GlobalAdvances(s, o) then
        e.(globalMonotonic := e.globalMonotonic + sample, globalClamped := e.globalClamped + clamp)
      else e.(globalRejected := e.globalRejected + 1);
    State(f,
          if SeriesAdvances(s, o) then s.lastBySeries[o.Series() := o.sourceMs] else s.lastBySeries,
          if GlobalAdvances(s, o) then Some(o.sourceMs) else s.lastGlobal)
  }

  function Replay(h: seq<Observation>): State {
    if h == [] then EMPTY else Observed(Replay(h[..|h| - 1]), h[|h| - 1])
  }

  class SourceTimeMethodComparison {
    var data: Data
    var lastBySeries: map<string, int>
    var lastGlobal: Option<int>

    ghost function Contents(): State
      reads this
    {
      State(data, lastBySeries, lastGlobal)
    }

    constructor ()
      ensures Contents() == EMPTY
    {
      data, lastBySeries, lastGlobal := NO_DATA, map[], None;
    }

    method Reset()
      modifies this
      ensures Contents() == EMPTY
    {
      data, lastBySeries, lastGlobal := NO_DATA, map[], None;
    }

    method Observe(kind: EventKind, symbol: string, sourceMs: int, observedNs: int)
      modifies this
      ensures Contents() == Observed(old(Contents()), Observation(kind, symbol, sourceMs, observedNs))
    {
      if sourceMs <= 0 {
        return;
      }
      var latencyMs := TruncDiv(observedNs, NANOS_PER_MILLI) - sourceMs;
      var latencyNs := Max(0, latencyMs) * NANOS_PER_MILLI;
      var clamp := if latencyMs < 0 then 1 else 0;
      data := data.(all := data.all + [latencyNs], allClamped := data.allClamped + clamp);

      var series := [kind.Code()] + ":" + symbol;
      var inserted := series !in lastBySeries;
      if inserted || sourceMs > lastBySeries[series] {
        lastBySeries := lastBySeries[series := sourceMs];
        data := data.(perSeriesMonotonic := data.perSeriesMonotonic + [latencyNs],
                      perSeriesClamped := data.perSeriesClamped + clamp);
      } else {
        data := data.(perSeriesRejected := data.perSeriesRejected + 1);
      }

      if lastGlobal.None? || sourceMs > lastGlobal.value {
        lastGlobal := Some(sourceMs);
        data := data.(globalMonotonic := data.globalMonotonic + [latencyNs],
                      globalClamped := data.globalClamped + clamp);
      } else {
        data := data.(globalRejected := data.globalRejected + 1);
      }
    }
  }

  // The pass computes the definitions.

  predicate InScope(o: Observation, scope: Option<string>) {
    o.Counted() && (scope.None? || o.Series() == scope.value)
  }

  /** Largest counted source time of a series, or of the whole stream when no series is named. */
  function Latest(h: seq<Observation>, n: nat, scope: Option<string>): Option<int>
    requires n <= |h|
  {
    if n == 0 then None else
    var before := Latest(h, n - 1, scope);
    if InScope(h[n - 1], scope) && (before.None? || h[n - 1].sourceMs > before.value)
    then Some(h[n - 1].sourceMs) else before
  }

  lemma {:induction false} LatestBounds(h: seq<Observation>, n: nat, scope: Option<string>, x: int)
    requires n <= |h|
    ensures (forall j :: 0 <= j < n && InScope(h[j], scope) ==> h[j].sourceMs < x)
        <==> Latest(h, n, scope).None? || Latest(h, n, scope).value < x
    ensures Latest(h, n, scope).None? <==> forall j :: 0 <= j < n ==> !InScope(h[j], scope)
  {
    if n > 0 {
      LatestBounds(h, n - 1, scope, x);
    }
  }

  ghost predicate Remembers(s: State, h: seq<Observation>, n: nat)
    requires n <= |h|
  {
    && s.lastGlobal == Latest(h, n, None)
    && forall series :: Latest(h, n, Some(series))
                     == if series in s.lastBySeries then Some(s.lastBySeries[series]) else None
  }

  lemma {:induction false} ReplayRemembers(h: seq<Observation>, n: nat)
    requires n <= |h|
    ensures Remembers(Replay(h[..n]), h, n)
  {
    if n > 0 {
      ReplayRemembers(h, n - 1);
      assert h[..n][..n - 1] == h[..n - 1];
    }
  }

  /** Comparing with the remembered maximum decides acceptance. */
  lemma AdvancesMeansAccepted(s: State, h: seq<Observation>, n: nat)
    requires n < |h| && h[n].Counted() && Remembers(s, h, n)
    ensures Accepts(PerSeries, h, n) <==> SeriesAdvances(s, h[n])
    ensures Accepts(Global, h, n) <==> GlobalAdvances(s, h[n])
  {
    var series := Some(h[n].Series());
    LatestBounds(h, n, series, h[n].sourceMs);
    LatestBounds(h, n, None, h[n].sourceMs);
    assert forall j :: 0 <= j < n ==> (InScope(h[j], series) <==> h[j].Counted() && h[j].Series() == h[n].Series());
    assert forall j :: 0 <= j < n ==> (InScope(h[j], None) <==> h[j].Counted());
  }

  /** Each filter holds exactly the strict running maxima of its scope, with matching counters. */
  lemma {:induction false} FiltersSelect(h: seq<Observation>, n: nat)
    requires n <= |h|
    ensures
      var s := Replay(h[..n]).data;
      && s.all == Selected(All, h, n) && s.allClamped == Clamped(All, h, n)
      && s.perSeriesMonotonic == Selected(PerSeries, h, n) && s.perSeriesClamped == Clamped(PerSeries, h, n)
      && s.globalMonotonic == Selected(Global, h, n) && s.globalClamped == Clamped(Global, h, n)
      && |s.perSeriesMonotonic| + s.perSeriesRejected == |s.all|
      && |s.globalMonotonic| + s.globalRejected == |s.all|
  {
    if n > 0 {
      FiltersSelect(h, n - 1);
      ReplayRemembers(h, n - 1);
      assert h[..n][..n - 1] == h[..n - 1];
      if h[n - 1].Counted() {
        AdvancesMeansAccepted(Replay(h[..n - 1]), h, n - 1);
      }
    }
  }

  // Consequences for every history.

  ghost predicate Subsequence<T>(a: seq<T>, b: seq<T>) {
    a == [] || (b != [] &&
      ((a[|a| - 1] == b[|b| - 1] && Subsequence(a[..|a| - 1], b[..|b| - 1])) || Subsequence(a, b[..|b| - 1])))
  }

  lemma SubsequenceExtend<T>(a: seq<T>, b: seq<T>, x: T, inA: bool, inB: bool)
    requires Subsequence(a, b) && (inA ==> inB)
    ensures Subsequence(a + if inA then [x] else [], b + if inB then [x] else [])
  {
    assert a + [] == a && b + [] == b;
    assert (b + [x])[..|b|] == b && (a + [x])[..|a|] == a;
  }

  ghost predicate Narrower(a: Rule, b: Rule) {
    a == b || b == All || (a == Global && b == PerSeries)
  }

  /** Positions of the observations that a filter accepts. */
  ghost function Picked(rule: Rule, h: seq<Observation>, n: nat): seq<int>
    requires n <= |h|
  {
    if n == 0 then [] else Picked(rule, h, n - 1) + if Accepts(rule, h, n - 1) then [n - 1] else []
  }

  /** A filter holds the latencies of the observations it accepts, in order of arrival. */
  lemma {:induction false} SelectedArePicked(rule: Rule, h: seq<Observation>, n: nat)
    requires n <= |h|
    ensures |Selected(rule, h, n)| == |Picked(rule, h, n)|
    ensures forall i :: 0 <= i < |Picked(rule, h, n)| ==>
      && 0 <= Picked(rule, h, n)[i] < n && Accepts(rule, h, Picked(rule, h, n)[i])
      && Selected(rule, h, n)[i] == h[Picked(rule, h, n)[i]].LatencyNs()
    ensures forall i, j :: 0 <= i < j < |Picked(rule, h, n)| ==> Picked(rule, h, n)[i] < Picked(rule, h, n)[j]
  {
    hide Accepts;
    if n > 0 {
      SelectedArePicked(rule, h, n - 1);
    }
  }

  lemma AcceptsNest(a: Rule, b: Rule, h: seq<Observation>, i: nat)
    requires i < |h| && Narrower(a, b) && Accepts(a, h, i)
    ensures Accepts(b, h, i)
  {
  }

  /** Globally accepted observations are a subsequence of the per-series accepted ones, and those of all of them. */
  lemma {:induction false} FiltersNest(a: Rule, b: Rule, h: seq<Observation>, n: nat)
    requires n <= |h| && Narrower(a, b)
    ensures Subsequence(Picked(a, h, n), Picked(b, h, n))
  {
    hide Accepts, Narrower, Subsequence;
    if n == 0 {
      NothingPicked();
    } else {
      FiltersNest(a, b, h, n - 1);
      if Accepts(a, h, n - 1) {
        AcceptsNest(a, b, h, n - 1);
      }
      SubsequenceExtend(Picked(a, h, n - 1), Picked(b, h, n - 1), n - 1, Accepts(a, h, n - 1), Accepts(b, h, n - 1));
    }
  }

  /** Clamped latencies are counted accordingly. */
  lemma {:induction false} ClampsNest(a: Rule, b: Rule, h: seq<Observation>, n: nat)
    requires n <= |h| && Narrower(a, b)
    ensures Clamped(a, h, n) <= Clamped(b, h, n)
  {
    hide Accepts, Narrower;
    if n > 0 {
      ClampsNest(a, b, h, n - 1);
      if Accepts(a, h, n - 1) {
        AcceptsNest(a, b, h, n - 1);
      }
    }
  }

  lemma NothingPicked()
    ensures Subsequence<int>([], [])
  {
  }

  ghost function SourceTimes(h: seq<Observation>, n: nat): set<int>
    requires n <= |h|
  {
    set j | 0 <= j < n && h[j].Counted() :: h[j].sourceMs
  }

  /** The global filter keeps at most one observation per distinct source time. */
  lemma {:induction false} GlobalKeepsDistinctTimes(h: seq<Observation>, n: nat)
    requires n <= |h|
    ensures |Selected(Global, h, n)| <= |SourceTimes(h, n)|
  {
    if n > 0 {
      GlobalKeepsDistinctTimes(h, n - 1);
      var before, after := SourceTimes(h, n - 1), SourceTimes(h, n);
      if Accepts(Global, h, n - 1) {
        assert h[n - 1].sourceMs !in before;
        assert after == before + {h[n - 1].sourceMs};
      } else if h[n - 1].Counted() {
        assert after == before + {h[n - 1].sourceMs};
      } else {
        assert after == before;
      }
    }
  }
}
