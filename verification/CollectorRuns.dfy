/** What holds of the collector over whole runs. */
module CollectorRuns {
  import opened Common
  import opened Events
  import opened Ordered
  import opened CollectorModel
  import opened CollectorAlgebra
  import opened CollectorLaws

  /** Conservation, in every reachable state and for every kind. */
  lemma Conservation(cfg: Config, steps: seq<Step>, k: MarketKind)
    ensures
      var core, a := Run(cfg, steps).core, AccountOf(cfg, steps);
      var d := core.total.delivery;
      && d.delivered.At(k) + d.deficit.At(k) == cfg.expected.At(k) * (d.full + d.partial + d.empty) + d.excess.At(k)
      && d.published.At(k)
         == cfg.expected.At(k) * (d.full + d.partial + d.empty + Marked(core.pending) + a.droppedMarked)
      && SumCounts(d.delivered) + d.uncorrelated + Held(core.pending) + a.droppedEvents == a.accepted
      && core.total.missing == (if cfg.allowConflation then 0 else d.partial + d.empty + a.unmarkedFinished)
  {
    RunReachable(cfg, steps);
    hide PerKind.At, SumCounts, Marked, Held, Run, AccountOf, AllConsistent;
    assert KindLaw(cfg, Run(cfg, steps).core, AccountOf(cfg, steps), k);
  }

  /** A pending batch with a marker has emitted everything and is not complete; an excluded sequence is never pending. */
  lemma PendingShape(cfg: Config, steps: seq<Step>, s: int)
    ensures
      var core := Run(cfg, steps).core;
      s in core.pending ==>
        && s !in core.excluded
        && (core.pending[s].timestamp.Some? ==> core.pending[s].events == [] && core.pending[s].byKind != cfg.expected)
        && (core.pending[s].timestamp.None? ==> |core.pending[s].events| == core.pending[s].received)
        && core.pending[s].received == SumCounts(core.pending[s].byKind)
  {
    RunReachable(cfg, steps);
    hide PerKind.At, SumCounts, Marked, Held, Run, AccountOf, KindLaw, ReceptionLaw, MissingLaw;
    if s in Run(cfg, steps).core.pending {
      assert Consistent(cfg, Run(cfg, steps).core.pending[s]);
    }
  }

  /** A client restarts measurement at most once, before anything is pending: then nothing is ever dropped. */
  lemma {:induction false} NothingDropped(cfg: Config, steps: seq<Step>)
    requires forall i, j :: 0 <= i < j < |steps| && steps[i].BeginMeasurement? ==> !steps[j].BeginMeasurement?
    ensures AccountOf(cfg, steps).droppedMarked == 0 && AccountOf(cfg, steps).droppedEvents == 0
    ensures (forall i :: 0 <= i < |steps| ==> !steps[i].BeginMeasurement?) ==> !Run(cfg, steps).measuring
  {
    if steps != [] {
      var front := steps[..|steps| - 1];
      NothingDropped(cfg, front);
      RunReachable(cfg, front);
      if steps[|steps| - 1].BeginMeasurement? {
        assert forall i :: 0 <= i < |front| ==> front[i] == steps[i];
        assert Run(cfg, front).core.pending == map[];
        assert Marked(map[]) == 0 && Held(map[]) == 0;
      }
    }
  }

  // Windows.

  function SumBooks(books: seq<Book>): Book {
    if books == [] then EMPTY_BOOK else SumBooks(books[..|books| - 1]).Plus(books[|books| - 1])
  }

  function SumStats(stats: seq<CallbackStats>): CallbackStats {
    if stats == [] then NO_CALLBACKS else SumStats(stats[..|stats| - 1]).Plus(stats[|stats| - 1])
  }

  /** The window that a step closes, if it closes one: handed out, or discarded when measurement begins. */
  function Closed(cfg: Config, st: State, step: Step): Option<Window> {
    match step
    case BeginMeasurement => Some(WindowOf(st))
    case TakeWindow(now, expireAll) => Some(WindowOf(Swept(cfg, st, now, expireAll)))
    case _ => None
  }

  function ClosedBooks(cfg: Config, steps: seq<Step>): seq<Book> {
    if steps == [] then [] else
    var front := steps[..|steps| - 1];
    var w := Closed(cfg, Run(cfg, front), steps[|steps| - 1]);
    ClosedBooks(cfg, front) + if w.Some? then [w.value.book] else []
  }

  function ClosedStats(cfg: Config, steps: seq<Step>): seq<CallbackStats> {
    if steps == [] then [] else
    var front := steps[..|steps| - 1];
    var w := Closed(cfg, Run(cfg, front), steps[|steps| - 1]);
    ClosedStats(cfg, front) + if w.Some? then [w.value.callbacks] else []
  }

  ghost predicate AddsUp(core: Core, closed: Book) {
    core.total == Digest(closed.Plus(core.window))
  }

  lemma RecordAddsUp(core: Core, closed: Book, b: Book)
    requires AddsUp(core, closed)
    ensures AddsUp(core.Record(b), closed)
  {
    hide Digest;
    BookPlus(closed, core.window, b);
    DigestPlus(closed.Plus(core.window), b);
  }

  lemma {:induction false} ProcessAllAddsUp(cfg: Config, core: Core, closed: Book, items: seq<Item>)
    requires AddsUp(core, closed)
    ensures AddsUp(ProcessAll(cfg, core, items), closed)
  {
    hide AddsUp, React, Core.Record;
    if items != [] {
      var front, item := ProcessAll(cfg, core, items[..|items| - 1]), items[|items| - 1];
      ProcessAllAddsUp(cfg, core, closed, items[..|items| - 1]);
      var r := React(cfg, front.Lookup(item.sequence), item.arrival);
      StoreAddsUp(front, closed, item.sequence, r.pending, r.book);
    }
  }

  lemma StoreAddsUp(core: Core, closed: Book, s: int, b: Option<Batch>, book: Book)
    requires AddsUp(core, closed)
    ensures AddsUp(core.Store(s, b).Record(book), closed)
  {
    hide Core.Record, Digest;
    assert AddsUp(core.Store(s, b), closed);
    RecordAddsUp(core.Store(s, b), closed, book);
  }

  lemma {:induction false} SweepAddsUp(cfg: Config, core: Core, closed: Book, keys: seq<int>, cutoff: int, all: bool)
    requires AddsUp(core, closed)
    ensures AddsUp(Sweep(cfg, core, keys, cutoff, all), closed)
    decreases |keys|
  {
    hide AddsUp, FinishBook, Core.Record;
    if keys != [] {
      var k := keys[0];
      if k in core.pending && Expired(core.pending[k], cutoff, all) {
        StoreAddsUp(core, closed, k, None, FinishBook(cfg, core.pending[k]));
        SweepAddsUp(cfg, FinishAt(cfg, core, k), closed, keys[1..], cutoff, all);
      } else {
        SweepAddsUp(cfg, core, closed, keys[1..], cutoff, all);
      }
    }
  }

  lemma CloseAddsUp(core: Core, core': Core, closed: Book)
    requires AddsUp(core, closed)
    requires core'.total == core.total && core'.window == EMPTY_BOOK
    ensures AddsUp(core', closed.Plus(core.window))
  {
    BookPlus(closed.Plus(core.window), EMPTY_BOOK, EMPTY_BOOK);
  }

  lemma SumAppend(books: seq<Book>, b: Book)
    ensures SumBooks(books + [b]) == SumBooks(books).Plus(b)
  {
    assert (books + [b])[..|books|] == books;
  }

  lemma SumStatsAppend(stats: seq<CallbackStats>, c: CallbackStats)
    ensures SumStats(stats + [c]) == SumStats(stats).Plus(c)
  {
    assert (stats + [c])[..|stats|] == stats;
  }

  lemma NextAddsUp(cfg: Config, st: State, closed: Book, step: Step)
    requires AddsUp(st.core, closed)
    ensures
      var w := Closed(cfg, st, step);
      AddsUp(Next(cfg, st, step).core, if w.Some? then closed.Plus(w.value.book) else closed)
  {
    hide AddsUp, ProcessAll, Sweep, ItemsOf, ObserveTimes, SequencesIn, ProfilesIn, Ascending, Book.Plus;
    match step
    case Notify(c) =>
      if st.measuring {
        ProcessAllAddsUp(cfg, st.core, closed, ItemsOf(cfg, c.events, c.observed));
      } else {
        WindowOnly(st.core, Next(cfg, st, step).core, closed);
      }
    case BeginMeasurement => CloseAddsUp(st.core, Next(cfg, st, step).core, closed);
    case EndMeasurement => WindowOnly(st.core, Next(cfg, st, step).core, closed);
    case TakeWindow(now, expireAll) =>
      SweepAddsUp(cfg, st.core, closed, Ascending(st.core.pending.Keys), now - cfg.timeoutMs * NANOS_PER_MILLI, expireAll);
      CloseAddsUp(Swept(cfg, st, now, expireAll).core, Next(cfg, st, step).core, closed);
  }

  lemma WindowOnly(core: Core, core': Core, closed: Book)
    requires AddsUp(core, closed) && core'.total == core.total && core'.window == core.window
    ensures AddsUp(core', closed)
  {
  }

  lemma StatsPlus(a: CallbackStats, b: CallbackStats, c: CallbackStats)
    ensures a.Plus(b).Plus(c) == a.Plus(b.Plus(c)) && a.Plus(NO_CALLBACKS) == a
  {
  }

  lemma NextStats(cfg: Config, st: State, closed: CallbackStats, step: Step)
    requires st.callbackTotal == closed.Plus(st.callbackWindow)
    ensures
      var w, next := Closed(cfg, st, step), Next(cfg, st, step);
      next.callbackTotal == (if w.Some? then closed.Plus(w.value.callbacks) else closed).Plus(next.callbackWindow)
  {
    hide ProcessAll, Sweep, ItemsOf, ObserveTimes, SequencesIn, ProfilesIn, Ascending, CallbackStats.Plus;
    StatsPlus(closed.Plus(st.callbackWindow), NO_CALLBACKS, NO_CALLBACKS);
    if step.Notify? && st.measuring {
      var c := step.callback;
      StatsPlus(closed, st.callbackWindow,
                CallbackStats(1, if c.market then [|c.events|] else [], if c.market then [c.duration] else []));
    }
  }

  /**
   * Closed windows and the current one add up to the whole-run accumulators: every counter, the batch latencies in
   * order, and the event latencies of each kind in order.
   */
  lemma {:induction false} WindowsAddUp(cfg: Config, steps: seq<Step>)
    ensures
      var st := Run(cfg, steps);
      && st.core.total == Digest(SumBooks(ClosedBooks(cfg, steps)).Plus(st.core.window))
      && st.callbackTotal == SumStats(ClosedStats(cfg, steps)).Plus(st.callbackWindow)
    decreases |steps|, 1
  {
    hide Next, Closed, Digest, Book.Plus, CallbackStats.Plus, SumBooks, SumStats;
    if steps == [] {
      NothingAddsUp();
    } else {
      OneStepAddsUp(cfg, steps);
    }
  }

  lemma NothingAddsUp()
    ensures NO_TOTALS == Digest(SumBooks([]).Plus(EMPTY_BOOK))
    ensures NO_CALLBACKS == SumStats([]).Plus(NO_CALLBACKS)
  {
    hide Book.Plus, Digest, CallbackStats.Plus;
    DigestEmpty();
    BookPlus(EMPTY_BOOK, EMPTY_BOOK, EMPTY_BOOK);
    StatsPlus(NO_CALLBACKS, NO_CALLBACKS, NO_CALLBACKS);
  }

  lemma {:induction false} OneStepAddsUp(cfg: Config, steps: seq<Step>)
    requires steps != []
    ensures
      var st := Run(cfg, steps);
      && AddsUp(st.core, SumBooks(ClosedBooks(cfg, steps)))
      && st.callbackTotal == SumStats(ClosedStats(cfg, steps)).Plus(st.callbackWindow)
    decreases |steps|, 0
  {
    hide Next, Closed, CallbackStats.Plus, Book.Plus, SumBooks, SumStats;
    var front, step := steps[..|steps| - 1], steps[|steps| - 1];
    WindowsAddUp(cfg, front);
    var st := Run(cfg, front);
    assert AddsUp(st.core, SumBooks(ClosedBooks(cfg, front)));
    NextAddsUp(cfg, st, SumBooks(ClosedBooks(cfg, front)), step);
    NextStats(cfg, st, SumStats(ClosedStats(cfg, front)), step);
    var w := Closed(cfg, st, step);
    if w.Some? {
      SumAppend(ClosedBooks(cfg, front), w.value.book);
      SumStatsAppend(ClosedStats(cfg, front), w.value.callbacks);
    } else {
      assert ClosedBooks(cfg, steps) == ClosedBooks(cfg, front) && ClosedStats(cfg, steps) == ClosedStats(cfg, front);
    }
  }

  // The measurement boundary.

  /** Once measuring, the excluded sequences are fixed. */
  lemma ExclusionFrozen(cfg: Config, st: State, step: Step)
    requires st.measuring
    ensures Next(cfg, st, step).measuring && Next(cfg, st, step).core.excluded == st.core.excluded
  {
    hide ProcessAll, Sweep, ItemsOf, ObserveTimes, ProfilesIn, Ascending;
    match step
    case Notify(c) => ProcessAllKeeps(cfg, st.core, ItemsOf(cfg, c.events, c.observed));
    case TakeWindow(now, expireAll) =>
      SweepKeeps(cfg, st.core, Ascending(st.core.pending.Keys), now - cfg.timeoutMs * NANOS_PER_MILLI, expireAll);
    case _ =>
  }

  lemma {:induction false} ProcessAllKeeps(cfg: Config, core: Core, items: seq<Item>)
    ensures
      var after := ProcessAll(cfg, core, items);
      && after.excluded == core.excluded && after.accepting == core.accepting
      && (!core.accepting ==> after.pending.Keys <= core.pending.Keys)
  {
    hide React, Digest;
    if items != [] {
      ProcessAllKeeps(cfg, core, items[..|items| - 1]);
    }
  }

  function Admitted(items: seq<Item>, excluded: set<int>): seq<Item> {
    if items == [] then []
    else Admitted(items[..|items| - 1], excluded)
         + if items[|items| - 1].sequence in excluded then [] else [items[|items| - 1]]
  }

  /** Arrivals of excluded sequences change nothing: the state is as if they had never come. */
  lemma {:induction false} ExcludedInert(cfg: Config, core: Core, items: seq<Item>)
    ensures ProcessAll(cfg, core, items) == ProcessAll(cfg, core, Admitted(items, core.excluded))
  {
    hide React;
    if items != [] {
      var front, last := items[..|items| - 1], items[|items| - 1];
      ExcludedInert(cfg, core, front);
      ProcessAllKeeps(cfg, core, front);
      var kept := Admitted(front, core.excluded);
      if last.sequence in core.excluded {
        assert kept + [] == kept;
      } else {
        assert (kept + [last])[..|kept|] == kept;
      }
    }
  }

  /** The sequence an event reveals is the one it would be correlated under. */
  lemma SequenceMatchesItem(cfg: Config, e: WireEvent, observed: int)
    ensures
      var item := ItemOf(cfg, e, observed);
      SequenceOf(cfg, e) == if item.Some? then Some(item.value.sequence) else None
  {
  }

  lemma ExclusionGrows(cfg: Config, st: State, step: Step)
    ensures st.core.excluded <= Next(cfg, st, step).core.excluded
  {
    hide ProcessAll, Sweep, ItemsOf, ObserveTimes, ProfilesIn, Ascending, SequencesIn;
    match step
    case Notify(c) => ProcessAllKeeps(cfg, st.core, ItemsOf(cfg, c.events, c.observed));
    case TakeWindow(now, expireAll) =>
      SweepKeeps(cfg, st.core, Ascending(st.core.pending.Keys), now - cfg.timeoutMs * NANOS_PER_MILLI, expireAll);
    case _ =>
  }

  lemma {:induction false} RunExclusionGrows(cfg: Config, steps: seq<Step>, n: nat)
    requires n <= |steps|
    ensures Run(cfg, steps[..n]).core.excluded <= Run(cfg, steps).core.excluded
  {
    hide Next;
    if n == |steps| {
      assert steps[..n] == steps;
    } else {
      var front := steps[..|steps| - 1];
      RunExclusionGrows(cfg, front, n);
      assert front[..n] == steps[..n];
      ExclusionGrows(cfg, Run(cfg, front), steps[|steps| - 1]);
    }
  }

  /** In every run, a sequence that some event revealed before measuring is excluded for good and never pending. */
  lemma SeenEarlyNeverPending(cfg: Config, steps: seq<Step>, i: nat, e: WireEvent, observed: int)
    requires i < |steps| && steps[i].Notify? && !Run(cfg, steps[..i]).measuring
    requires e in steps[i].callback.events && ItemOf(cfg, e, observed).Some?
    ensures
      var s, core := ItemOf(cfg, e, observed).value.sequence, Run(cfg, steps).core;
      s in core.excluded && s !in core.pending && !core.Accepts(s)
  {
    hide ItemOf, SequenceOf, Consistent, KindLaw, ReceptionLaw, MissingLaw, ProfilesIn;
    SequenceMatchesItem(cfg, e, observed);
    var s := ItemOf(cfg, e, observed).value.sequence;
    assert steps[..i + 1][..i] == steps[..i];
    assert Run(cfg, steps[..i + 1]) == Next(cfg, Run(cfg, steps[..i]), steps[i]);
    assert s in SequencesIn(cfg, steps[i].callback.events);
    RunExclusionGrows(cfg, steps, i + 1);
    RunReachable(cfg, steps);
  }

  /** After the stop request, no step but a restart can open a batch. */
  lemma PendingShrinks(cfg: Config, st: State, step: Step)
    requires !st.core.accepting && !step.BeginMeasurement?
    ensures Next(cfg, st, step).core.pending.Keys <= st.core.pending.Keys && !Next(cfg, st, step).core.accepting
  {
    hide ProcessAll, Sweep, ItemsOf, ObserveTimes, SequencesIn, ProfilesIn, Ascending;
    match step
    case Notify(c) => ProcessAllKeeps(cfg, st.core, ItemsOf(cfg, c.events, c.observed));
    case TakeWindow(now, expireAll) =>
      SweepKeeps(cfg, st.core, Ascending(st.core.pending.Keys), now - cfg.timeoutMs * NANOS_PER_MILLI, expireAll);
    case _ =>
  }

  lemma {:induction false} AscendingMembers(keys: set<int>, k: int)
    ensures k in Ascending(keys) <==> k in keys
    decreases |keys|
  {
    if keys != {} {
      AscendingMembers(keys - {Least(keys)}, k);
    }
  }

  /** A sweep finishes exactly the listed expired batches and leaves the others untouched. */
  lemma {:induction false} SweepPending(cfg: Config, core: Core, keys: seq<int>, cutoff: int, all: bool)
    ensures Sweep(cfg, core, keys, cutoff, all).pending
         == map s | s in core.pending && !(s in keys && Expired(core.pending[s], cutoff, all)) :: core.pending[s]
    decreases |keys|
  {
    hide FinishAt;
    if keys != [] {
      var k := keys[0];
      assert keys == [k] + keys[1..];
      if k in core.pending && Expired(core.pending[k], cutoff, all) {
        FinishPending(cfg, core, k);
        SweepPending(cfg, FinishAt(cfg, core, k), keys[1..], cutoff, all);
      } else {
        SweepPending(cfg, core, keys[1..], cutoff, all);
      }
    }
  }

  /** Taking a window leaves exactly the batches that are not expired, and the final window leaves none. */
  lemma WindowExpires(cfg: Config, st: State, now: int, expireAll: bool)
    ensures Next(cfg, st, TakeWindow(now, expireAll)).core.pending
         == map s | s in st.core.pending && !Expired(st.core.pending[s], now - cfg.timeoutMs * NANOS_PER_MILLI, expireAll)
              :: st.core.pending[s]
    ensures expireAll ==> Next(cfg, st, TakeWindow(now, expireAll)).core.pending == map[]
  {
    hide Sweep, Expired, Ascending;
    var keys := Ascending(st.core.pending.Keys);
    SweepPending(cfg, st.core, keys, now - cfg.timeoutMs * NANOS_PER_MILLI, expireAll);
    forall s ensures s in keys <==> s in st.core.pending.Keys {
      AscendingMembers(st.core.pending.Keys, s);
    }
    if expireAll {
      assert forall b, cutoff :: Expired(b, cutoff, true) by {
        ExpireAll();
      }
    }
  }

  lemma ExpireAll()
    ensures forall b, cutoff :: Expired(b, cutoff, true)
  {
  }
}
