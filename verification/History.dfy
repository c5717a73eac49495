/** Bounded TimeAndSale history and HISTORY snapshot framing (src/server.cpp). */
module History {
  import opened Common
  import opened Events

  datatype Record = Record(timeNanos: nat, sequence: int, price: real) {
    function Millis(): nat {
      timeNanos / NANOS_PER_MILLI
    }
  }

  datatype History = History(records: seq<Record>, truncated: bool)

  const NO_HISTORY := History([], false)

  /** Appends a record and, past the limit, drops the oldest one for good. */
  function Retained(h: History, r: Record, limit: nat): History {
    var records := h.records + [r];
    if |records| > limit then History(records[1..], true) else History(records, h.truncated)
  }

  function RetainedAll(log: seq<Record>, limit: nat): History {
    if log == [] then NO_HISTORY else Retained(RetainedAll(log[..|log| - 1], limit), log[|log| - 1], limit)
  }

  function KeptFrom(log: seq<Record>, limit: nat): (k: nat)
    ensures k <= |log|
  {
    if |log| > limit then |log| - limit else 0
  }

  lemma RetainedSuffix(front: seq<Record>, r: Record, limit: nat)
    ensures
      var log := front + [r];
      Retained(History(front[KeptFrom(front, limit)..], |front| > limit), r, limit)
      == History(log[KeptFrom(log, limit)..], |log| > limit)
  {
    var log, k := front + [r], KeptFrom(front, limit);
    assert front[k..] + [r] == log[k..];
    if |log| > limit {
      assert log[k..][1..] == log[k + 1..];
    }
  }

  /** The history is exactly the last `limit` records of the log, and is truncated exactly when something was dropped. */
  lemma {:induction false} HistoryIsSuffix(log: seq<Record>, limit: nat)
    ensures RetainedAll(log, limit) == History(log[KeptFrom(log, limit)..], |log| > limit)
  {
    hide Retained, KeptFrom;
    if log == [] {
      NothingKept(limit);
    } else {
      var front, last := log[..|log| - 1], log[|log| - 1];
      HistoryIsSuffix(front, limit);
      RetainedSuffix(front, last, limit);
      assert front + [last] == log;
    }
  }

  lemma NothingKept(limit: nat)
    ensures KeptFrom([], limit) == 0
  {
  }

  // Snapshots.

  /** The records a snapshot walks: newest first, until one is older than the requested time. */
  function Walked(records: seq<Record>, fromTime: int): seq<Record> {
    if records == [] || records[|records| - 1].Millis() < fromTime then []
    else [records[|records| - 1]] + Walked(records[..|records| - 1], fromTime)
  }

  function EventOf(symbol: string, r: Record, flags: Flags): WireEvent {
    TimeAndSaleEvent(symbol, r.timeNanos, r.sequence, r.price, flags)
  }

  function Boundary(symbol: string, fromTime: int, begin: bool): WireEvent {
    TimeAndSaleEvent(symbol, fromTime * NANOS_PER_MILLI, 0, 0.0, Flags(begin, true, false, true))
  }

  /** A snapshot may be incomplete when the oldest record kept after truncation is newer than the requested time. */
  predicate Snipped(h: History, fromTime: int) {
    h.truncated && h.records != [] && h.records[0].Millis() > fromTime
  }

  /** Flags of the i-th of n walked records; `snip` marks the last one. */
  function RecordFlags(i: nat, n: nat, snip: bool): Flags {
    Flags(i == 0, false, snip && i == n - 1, false)
  }

  function Framed(symbol: string, walked: seq<Record>, snip: bool): seq<WireEvent> {
    seq(|walked|, i requires 0 <= i < |walked| => EventOf(symbol, walked[i], RecordFlags(i, |walked|, snip)))
  }

  /** The wire events of one symbol's snapshot. */
  function SnapshotBlock(symbol: string, h: History, fromTime: int): seq<WireEvent> {
    var walked := Walked(h.records, fromTime);
    var snip := Snipped(h, fromTime) && walked != [];
    Framed(symbol, walked, snip) + if snip then [] else [Boundary(symbol, fromTime, walked == [])]
  }

  method BuildBlock(symbol: string, found: Option<History>, fromTime: int) returns (snapshot: seq<WireEvent>)
    ensures snapshot == SnapshotBlock(symbol, found.GetOr(NO_HISTORY), fromTime)
  {
    var h := found.GetOr(NO_HISTORY);
    var isTruncated := found.Some? && found.value.truncated && found.value.records != []
                       && found.value.records[0].Millis() > fromTime;
    var walked := WalkBack(h.records, fromTime);
    snapshot := [];
    for i := 0 to |walked|
      invariant snapshot == Framed(symbol, walked, false)[..i]
    {
      var flags := if i == 0 then NO_FLAGS.(begin := true) else NO_FLAGS;
      snapshot := snapshot + [EventOf(symbol, walked[i], flags)];
    }
    assert snapshot == Framed(symbol, walked, false);
    if isTruncated && snapshot != [] {
      var last := snapshot[|snapshot| - 1];
      snapshot := snapshot[|snapshot| - 1 := last.(flags := last.flags.(snip := true))];
      assert snapshot == Framed(symbol, walked, true);
    } else {
      var flags := Flags(false, true, false, true);
      if snapshot == [] {
        flags := Flags(true, true, false, true);
      }
      snapshot := snapshot + [TimeAndSaleEvent(symbol, fromTime * NANOS_PER_MILLI, 0, 0.0, flags)];
    }
  }

  /** Walks the deque backwards. */
  method WalkBack(records: seq<Record>, fromTime: int) returns (walked: seq<Record>)
    ensures walked == Walked(records, fromTime)
  {
    walked := [];
    var i := |records|;
    assert records[..|records|] == records;
    while i > 0
      invariant 0 <= i <= |records|
      invariant walked + Walked(records[..i], fromTime) == Walked(records, fromTime)
    {
      var record := records[i - 1];
      if record.Millis() < fromTime {
        break;
      }
      assert records[..i][..i - 1] == records[..i - 1];
      assert walked + ([record] + Walked(records[..i - 1], fromTime))
          == walked + [record] + Walked(records[..i - 1], fromTime);
      walked := walked + [record];
      i := i - 1;
    }
  }

  // What a snapshot contains.

  ghost predicate Chronological(records: seq<Record>) {
    forall i, j :: 0 <= i <= j < |records| ==> records[i].timeNanos <= records[j].timeNanos
  }

  /** Number of records older than the requested time, which in chronological order come first. */
  function Older(records: seq<Record>, fromTime: int): (n: nat)
    ensures n <= |records|
  {
    if records == [] then 0
    else Older(records[..|records| - 1], fromTime) + if records[|records| - 1].Millis() < fromTime then 1 else 0
  }

  lemma {:induction false} OlderSplits(records: seq<Record>, fromTime: int, i: nat)
    requires Chronological(records) && i < |records|
    ensures records[i].Millis() < fromTime <==> i < Older(records, fromTime)
  {
    var n := |records| - 1;
    var front := records[..n];
    assert Chronological(front);
    if n > 0 {
      MillisMonotone(records[n - 1], records[n]);
      OlderSplits(front, fromTime, n - 1);
    }
    if i < n {
      OlderSplits(front, fromTime, i);
    }
  }

  lemma MillisMonotone(a: Record, b: Record)
    requires a.timeNanos <= b.timeNanos
    ensures a.Millis() <= b.Millis()
  {
  }

  /** With non-decreasing time a snapshot walks exactly the records at or after the requested time, newest first. */
  lemma {:induction false} WalkedIsNewest(records: seq<Record>, fromTime: int)
    requires Chronological(records)
    ensures
      var n, k := |records|, Older(records, fromTime);
      |Walked(records, fromTime)| == n - k
      && forall i :: 0 <= i < n - k ==> Walked(records, fromTime)[i] == records[n - 1 - i]
  {
    if records != [] && records[|records| - 1].Millis() >= fromTime {
      var front := records[..|records| - 1];
      assert Chronological(front);
      WalkedIsNewest(front, fromTime);
      assert forall i :: 0 <= i < |front| ==> front[i] == records[i];
    } else if records != [] {
      OlderSplits(records, fromTime, |records| - 1);
    }
  }

  /** A snapshot ends in SNIP exactly when a truncated history starts after the requested time and its newest record is
      not older; otherwise it ends in END. */
  lemma EndsInSnip(symbol: string, h: History, fromTime: int)
    ensures
      var block := SnapshotBlock(symbol, h, fromTime);
      var snip := Snipped(h, fromTime) && h.records[|h.records| - 1].Millis() >= fromTime;
      && block != [] && block[|block| - 1].TimeAndSaleEvent?
      && (block[|block| - 1].flags.snip <==> snip) && (block[|block| - 1].flags.end <==> !snip)
  {
  }

  /** With non-decreasing time, a truncated history that starts after the requested time is all there is to look at. */
  lemma SteadySnip(symbol: string, h: History, fromTime: int)
    requires Chronological(h.records)
    ensures
      var block := SnapshotBlock(symbol, h, fromTime);
      && block != [] && block[|block| - 1].TimeAndSaleEvent?
      && (block[|block| - 1].flags.snip <==> Snipped(h, fromTime))
      && (block[|block| - 1].flags.end <==> !Snipped(h, fromTime))
  {
    EndsInSnip(symbol, h, fromTime);
    if Snipped(h, fromTime) {
      MillisMonotone(h.records[0], h.records[|h.records| - 1]);
    }
  }

  /**
   * How a snapshot ends, in terms of everything ever retained: with SNIP on the last record when the limit dropped records,
   * the oldest one kept is later than the requested time and the newest is not older; and otherwise with a removal at the
   * requested time that carries END, and BEGIN as well if there is no record before it.
   */
  lemma BlockEnd(symbol: string, log: seq<Record>, limit: nat, fromTime: int)
    ensures
      var block := SnapshotBlock(symbol, RetainedAll(log, limit), fromTime);
      var snip := 0 < limit < |log| && log[|log| - limit].timeNanos / 1_000_000 > fromTime
                  && log[|log| - 1].timeNanos / 1_000_000 >= fromTime;
      && block != []
      && block[|block| - 1].TimeAndSaleEvent? && block[|block| - 1].symbol == symbol
      && (if snip then block[|block| - 1].flags == Flags(|block| == 1, false, true, false)
          else && block[|block| - 1].timeNanos == fromTime * 1_000_000 && block[|block| - 1].sequence == 0
               && block[|block| - 1].flags == Flags(|block| == 1, true, false, true))
  {
    hide Walked, RetainedAll;
    HistoryIsSuffix(log, limit);
    var h := RetainedAll(log, limit);
    WalkedEmpty(h.records, fromTime);
    assert KeptFrom(log, limit) == if |log| > limit then |log| - limit else 0;
    assert h.records != [] ==> h.records[|h.records| - 1] == log[|log| - 1];
  }

  lemma WalkedEmpty(records: seq<Record>, fromTime: int)
    ensures Walked(records, fromTime) == [] <==> records == [] || records[|records| - 1].Millis() < fromTime
  {
  }

  /** Every record ever retained strictly after the requested millisecond is in the snapshot. */
  ghost predicate MissesNothing(log: seq<Record>, limit: nat, fromTime: int) {
    forall i :: 0 <= i < |log| && log[i].Millis() > fromTime ==>
      log[i] in Walked(RetainedAll(log, limit).records, fromTime)
  }

  /** No record from a position on is older than the requested time. */
  ghost predicate NoneOlderFrom(records: seq<Record>, fromTime: int, from: nat) {
    forall k :: from <= k < |records| ==> records[k].Millis() >= fromTime
  }

  /** A walk meets exactly the records that no older one follows. */
  lemma {:induction false} WalkedMembers(records: seq<Record>, fromTime: int, r: Record)
    ensures r in Walked(records, fromTime)
       <==> exists j :: 0 <= j < |records| && records[j] == r && NoneOlderFrom(records, fromTime, j)
  {
    if records != [] {
      var n := |records| - 1;
      var front := records[..n];
      WalkedMembers(front, fromTime, r);
      if records[n].Millis() >= fromTime {
        assert forall j :: 0 <= j < n ==> (NoneOlderFrom(front, fromTime, j) <==> NoneOlderFrom(records, fromTime, j)) by {
          NoneOlderFront(records, fromTime);
        }
        assert NoneOlderFrom(records, fromTime, n);
      } else {
        assert forall j :: 0 <= j <= n ==> !NoneOlderFrom(records, fromTime, j);
      }
    }
  }

  lemma NoneOlderFront(records: seq<Record>, fromTime: int)
    requires records != [] && records[|records| - 1].Millis() >= fromTime
    ensures forall j :: 0 <= j < |records| - 1 ==>
      (NoneOlderFrom(records[..|records| - 1], fromTime, j) <==> NoneOlderFrom(records, fromTime, j))
  {
    var front := records[..|records| - 1];
    assert forall k :: 0 <= k < |front| ==> front[k] == records[k];
  }

  /** An equal record was kept, and none that followed it is older than the requested time. */
  ghost predicate StillReached(log: seq<Record>, limit: nat, fromTime: int, i: nat)
    requires i < |log|
  {
    exists j :: KeptFrom(log, limit) <= j < |log| && log[j] == log[i] && NoneOlderFrom(log, fromTime, j)
  }

  lemma KeptReached(log: seq<Record>, limit: nat, fromTime: int, i: nat)
    requires i < |log|
    ensures log[i] in Walked(RetainedAll(log, limit).records, fromTime) <==> StillReached(log, limit, fromTime, i)
  {
    hide Walked, RetainedAll, NoneOlderFrom, KeptFrom;
    HistoryIsSuffix(log, limit);
    var k := KeptFrom(log, limit);
    var kept := log[k..];
    WalkedMembers(kept, fromTime, log[i]);
    if log[i] in Walked(kept, fromTime) {
      var j :| 0 <= j < |kept| && kept[j] == log[i] && NoneOlderFrom(kept, fromTime, j);
      KeptNoneOlder(log, k, fromTime, j);
      assert log[k + j] == log[i];
    }
    if StillReached(log, limit, fromTime, i) {
      var j :| k <= j < |log| && log[j] == log[i] && NoneOlderFrom(log, fromTime, j);
      KeptNoneOlder(log, k, fromTime, j - k);
      assert kept[j - k] == log[i];
    }
  }

  lemma KeptNoneOlder(log: seq<Record>, k: nat, fromTime: int, j: nat)
    requires k + j < |log|
    ensures NoneOlderFrom(log, fromTime, k + j) <==> NoneOlderFrom(log[k..], fromTime, j)
  {
    var kept := log[k..];
    if NoneOlderFrom(kept, fromTime, j) {
      forall m | k + j <= m < |log| ensures log[m].Millis() >= fromTime {
        assert kept[m - k] == log[m];
      }
    }
  }

  /**
   * For every log, limit and request, whatever the clock did: a snapshot misses nothing exactly when every strictly
   * later record was kept with no older record after it.
   */
  lemma MissesNothingIff(log: seq<Record>, limit: nat, fromTime: int)
    ensures MissesNothing(log, limit, fromTime) <==>
      forall i :: 0 <= i < |log| && log[i].Millis() > fromTime ==> StillReached(log, limit, fromTime, i)
  {
    hide Walked, RetainedAll, StillReached;
    forall i | 0 <= i < |log|
      ensures log[i] in Walked(RetainedAll(log, limit).records, fromTime) <==> StillReached(log, limit, fromTime, i)
    {
      KeptReached(log, limit, fromTime, i);
    }
  }

  /** A clock that steps back past the requested time hides an earlier record, truncation or not. */
  lemma StepBackHides(r: Record, older: Record, limit: nat, fromTime: int)
    requires older.Millis() < fromTime < r.Millis()
    ensures !MissesNothing([r, older], limit, fromTime)
    ensures limit >= 2 ==> !Snipped(RetainedAll([r, older], limit), fromTime)
  {
    hide Walked, RetainedAll;
    var log := [r, older];
    HistoryIsSuffix(log, limit);
    assert log[0] == r && log[1] == older;
    MissesNothingIff(log, limit, fromTime);
    assert !StillReached(log, limit, fromTime, 0);
  }

  /** Unless the snapshot is snipped, no dropped record is newer than the requested time. */
  lemma DroppedAreOld(log: seq<Record>, limit: nat, fromTime: int)
    requires Chronological(log) && limit > 0
    requires !Snipped(RetainedAll(log, limit), fromTime)
    ensures forall i :: 0 <= i < KeptFrom(log, limit) ==> log[i].Millis() <= fromTime
  {
    HistoryIsSuffix(log, limit);
    var k := KeptFrom(log, limit);
    forall i | 0 <= i < k ensures log[i].Millis() <= fromTime {
      assert log[i].timeNanos <= log[k].timeNanos;
      MillisMonotone(log[i], log[k]);
      assert log[k..][0] == log[k];
    }
  }

  /** With non-decreasing time, a snapshot that is not snipped misses no later record if any record is kept. */
  lemma EndMissesNothing(log: seq<Record>, limit: nat, fromTime: int)
    requires Chronological(log) && limit > 0
    requires !Snipped(RetainedAll(log, limit), fromTime)
    ensures MissesNothing(log, limit, fromTime)
  {
    HistoryIsSuffix(log, limit);
    var k := KeptFrom(log, limit);
    var kept := log[k..];
    assert Chronological(kept);
    WalkedIsNewest(kept, fromTime);
    DroppedAreOld(log, limit, fromTime);
    forall i | k <= i < |log| && log[i].Millis() > fromTime
      ensures log[i] in Walked(kept, fromTime)
    {
      assert kept[i - k] == log[i];
      OlderSplits(kept, fromTime, i - k);
      var j := |kept| - 1 - (i - k);
      assert Walked(kept, fromTime)[j] == log[i];
    }
  }

  /** With a limit of zero the guarantee fails: an END-terminated snapshot can hide a later record. */
  lemma ZeroLimitHides(r: Record, fromTime: int)
    requires r.Millis() > fromTime
    ensures !Snipped(RetainedAll([r], 0), fromTime) && !MissesNothing([r], 0, fromTime)
  {
    HistoryIsSuffix([r], 0);
    assert [r][1..] == [];
    assert [r][0] == r;
  }

  /** With non-decreasing time the guarantee holds for every request exactly when the limit is positive. */
  lemma EndGuarantee(limit: nat)
    ensures limit > 0 <==>
      forall log, fromTime :: Chronological(log) && !Snipped(RetainedAll(log, limit), fromTime)
        ==> MissesNothing(log, limit, fromTime)
  {
    if limit > 0 {
      forall log, fromTime | Chronological(log) && !Snipped(RetainedAll(log, limit), fromTime)
        ensures MissesNothing(log, limit, fromTime)
      {
        EndMissesNothing(log, limit, fromTime);
      }
    } else {
      var r := Record(NANOS_PER_MILLI, 1, 0.0);
      ZeroLimitHides(r, 0);
      assert Chronological([r]);
    }
  }
}
