/** The recordings of a run, split by the batch they belong to: from its opening to its end. */
module CollectorEpisodes {
  import opened Common
  import opened Events
  import opened Ordered
  import opened CollectorModel
  import opened CollectorAlgebra
  import opened CollectorRuns

  // One batch.

  /** A sample that an open batch may have emitted. */
  predicate Belongs(e: Sample, b: Batch) {
    b.timestamp == Some(e.publishTime) && e.latency == e.observed - e.publishTime && e.observed <= b.lastObserved
  }

  /** What an open batch has recorded so far: event samples only, none observed after its last observation. */
  ghost predicate Ongoing(episode: Book, b: Batch) {
    && episode.batches == []
    && (forall i :: 0 <= i < |episode.events| ==> Belongs(episode.events[i], b))
    && (forall i :: 0 <= i < |b.events| ==> b.events[i].observed <= b.lastObserved)
  }

  /** At most one batch latency, which no event latency of the same batch exceeds, measured from the same time. */
  ghost predicate Dominated(episode: Book) {
    && |episode.batches| <= 1
    && forall i, j :: 0 <= i < |episode.events| && 0 <= j < |episode.batches| ==>
         && episode.events[i].publishTime == episode.batches[j].publishTime
         && episode.events[i].latency <= episode.batches[j].latency
  }

  lemma OngoingDominated(episode: Book, b: Batch)
    requires Ongoing(episode, b)
    ensures Dominated(episode)
  {
  }

  lemma {:induction false} PricedSamples(events: seq<PendingEvent>, publishTime: int, bound: int)
    requires forall i :: 0 <= i < |events| ==> events[i].observed <= bound
    ensures
      var book := PricedAll(events, publishTime);
      && book.batches == []
      && forall i :: 0 <= i < |book.events| ==>
           && book.events[i].publishTime == publishTime
           && book.events[i].latency == book.events[i].observed - publishTime
           && book.events[i].observed <= bound
  {
    hide Delivery.Plus;
    if events != [] {
      PricedSamples(events[..|events| - 1], publishTime, bound);
    }
  }

  lemma EmitOngoing(episode: Book, b: Batch)
    requires Ongoing(episode, b)
    ensures Ongoing(episode.Plus(EmitBook(b)), Emitted(b))
  {
    hide PricedAll, Delivery.Plus;
    if b.timestamp.Some? {
      PricedSamples(b.events, b.timestamp.value, b.lastObserved);
    }
  }

  lemma SettleDominated(cfg: Config, episode: Book, b: Batch)
    requires b.timestamp.Some? && Ongoing(episode, b)
    ensures Dominated(episode.Plus(SettleBook(cfg, b)))
  {
    hide Settlement, Delivery.Plus;
  }

  /** The batch latency recorded at the end dominates everything the batch has recorded. */
  lemma FinishDominated(cfg: Config, episode: Book, b: Batch)
    requires Ongoing(episode, b)
    ensures Dominated(episode.Plus(FinishBook(cfg, b)))
  {
    hide PricedAll, SettleBook, Delivery.Plus;
    if b.timestamp.Some? {
      EmitOngoing(episode, b);
      SettleDominated(cfg, episode.Plus(EmitBook(b)), Emitted(b));
      BookPlus(episode, EmitBook(b), SettleBook(cfg, Emitted(b)));
    }
  }

  /** After a reaction the batch is still ongoing, or it has ended dominated. */
  ghost predicate Continues(episode: Book, after: Option<Batch>) {
    Dominated(episode) && (after.Some? ==> Ongoing(episode, after.value))
  }

  lemma AdvanceContinues(cfg: Config, episode: Book, b: Batch)
    requires Ongoing(episode, b)
    ensures Continues(episode.Plus(Advance(cfg, b).book), Advance(cfg, b).pending)
  {
    hide EmitBook, FinishBook, Book.Plus, Dominated, Ongoing;
    EmitOngoing(episode, b);
    OngoingDominated(episode.Plus(EmitBook(b)), Emitted(b));
    FinishDominated(cfg, episode.Plus(EmitBook(b)), Emitted(b));
    BookPlus(episode, EmitBook(b), FinishBook(cfg, Emitted(b)));
  }

  lemma Announced(episode: Book, b: Batch, published: Counts)
    requires Ongoing(episode, b)
    ensures Ongoing(episode.Plus(EMPTY_BOOK.(delivery := NO_DELIVERY.(published := published))), b)
    ensures Ongoing(episode.Plus(EMPTY_BOOK), b)
  {
    hide Delivery.Plus;
  }

  lemma ReactContinues(cfg: Config, episode: Book, pending: Option<Batch>, a: Arrival)
    requires Ongoing(episode, pending.GetOr(NEW_BATCH))
    ensures
      var r := React(cfg, pending, a);
      Continues(episode.Plus(r.book), r.pending)
  {
    hide Advance, Book.Plus;
    var b := pending.GetOr(NEW_BATCH);
    match a
    case Event(e) =>
      assert Ongoing(episode, WithEvent(b, e));
      AdvanceContinues(cfg, episode, WithEvent(b, e));
    case Marker(timestamp, observed) =>
      var after := WithMarker(b, timestamp, observed);
      assert Ongoing(episode, after);
      Announced(episode, after, cfg.expected);
      var published := if b.timestamp.None? then EMPTY_BOOK.(delivery := NO_DELIVERY.(published := cfg.expected))
                       else EMPTY_BOOK;
      AdvanceContinues(cfg, episode.Plus(published), after);
      BookPlus(episode, published, Advance(cfg, after).book);
  }

  // All batches of a run.

  /** The episodes of a run so far, and which of them belong to pending sequences. */
  datatype Trace = Trace(episodes: seq<Book>, open: map<int, nat>) {
    predicate Valid() {
      forall s :: s in open ==> open[s] < |episodes|
    }

    /** What a sequence's open batch has recorded. */
    function Episode(s: int): Book
      requires Valid()
    {
      if s in open then episodes[open[s]] else EMPTY_BOOK
    }

    /** Adds to a sequence's episode, opening one if there is none, and closing it if the batch has ended. */
    function Note(s: int, b: Book, pending: bool): (t: Trace)
      requires Valid()
      ensures t.Valid()
    {
      var i := if s in open then open[s] else |episodes|;
      Trace(if s in open then episodes[i := episodes[i].Plus(b)] else episodes + [b],
            if pending then open[s := i] else open - {s})
    }
  }

  const NO_TRACE := Trace([], map[])

  function EventsIn(episodes: seq<Book>): multiset<Sample> {
    if episodes == [] then multiset{}
    else EventsIn(episodes[..|episodes| - 1]) + multiset(episodes[|episodes| - 1].events)
  }

  function BatchesIn(episodes: seq<Book>): multiset<Sample> {
    if episodes == [] then multiset{}
    else BatchesIn(episodes[..|episodes| - 1]) + multiset(episodes[|episodes| - 1].batches)
  }

  lemma {:induction false} GrownEpisode(episodes: seq<Book>, i: nat, b: Book)
    requires i < |episodes|
    ensures EventsIn(episodes[i := episodes[i].Plus(b)]) == EventsIn(episodes) + multiset(b.events)
    ensures BatchesIn(episodes[i := episodes[i].Plus(b)]) == BatchesIn(episodes) + multiset(b.batches)
  {
    hide Delivery.Plus;
    var n := |episodes| - 1;
    var after := episodes[i := episodes[i].Plus(b)];
    if i < n {
      GrownEpisode(episodes[..n], i, b);
      assert after[..n] == episodes[..n][i := episodes[..n][i].Plus(b)];
    } else {
      assert after[..n] == episodes[..n];
    }
  }

  lemma NewEpisode(episodes: seq<Book>, b: Book)
    ensures EventsIn(episodes + [b]) == EventsIn(episodes) + multiset(b.events)
    ensures BatchesIn(episodes + [b]) == BatchesIn(episodes) + multiset(b.batches)
  {
    assert (episodes + [b])[..|episodes|] == episodes;
  }

  /** The episodes hold exactly the samples recorded, and open ones belong to the pending batches, one each. */
  ghost predicate Traced(core: Core, t: Trace, closed: Book) {
    && t.Valid() && t.open.Keys == core.pending.Keys
    && (forall s :: s in t.open ==> Ongoing(t.episodes[t.open[s]], core.pending[s]))
    && (forall s, x :: s in t.open && x in t.open && s != x ==> t.open[s] != t.open[x])
    && (forall i :: 0 <= i < |t.episodes| ==> Dominated(t.episodes[i]))
    && multiset(closed.Plus(core.window).events) == EventsIn(t.episodes)
    && multiset(closed.Plus(core.window).batches) == BatchesIn(t.episodes)
  }

  lemma RecordedSamples(core: Core, closed: Book, b: Book)
    ensures
      var before, after := closed.Plus(core.window), closed.Plus(core.Record(b).window);
      && multiset(after.events) == multiset(before.events) + multiset(b.events)
      && multiset(after.batches) == multiset(before.batches) + multiset(b.batches)
  {
    hide Delivery.Plus, Digest, Totals.Plus;
    assert closed.events + (core.window.events + b.events) == closed.events + core.window.events + b.events;
    assert closed.batches + (core.window.batches + b.batches) == closed.batches + core.window.batches + b.batches;
  }

  lemma NotedSamples(t: Trace, s: int, b: Book, pending: bool)
    requires t.Valid()
    ensures EventsIn(t.Note(s, b, pending).episodes) == EventsIn(t.episodes) + multiset(b.events)
    ensures BatchesIn(t.Note(s, b, pending).episodes) == BatchesIn(t.episodes) + multiset(b.batches)
  {
    hide EventsIn, BatchesIn, Book.Plus;
    if s in t.open {
      GrownEpisode(t.episodes, t.open[s], b);
    } else {
      NewEpisode(t.episodes, b);
    }
  }

  lemma EmptyPlus(b: Book)
    ensures EMPTY_BOOK.Plus(b) == b
  {
    BookPlus(b, EMPTY_BOOK, EMPTY_BOOK);
  }

  /** Recording for one sequence keeps the split. */
  lemma NoteTraced(core: Core, t: Trace, closed: Book, s: int, after: Option<Batch>, b: Book)
    requires Traced(core, t, closed) && Continues(t.Episode(s).Plus(b), after)
    ensures Traced(core.Store(s, after).Record(b), t.Note(s, b, after.Some?), closed)
  {
    hide Ongoing, Dominated, EventsIn, BatchesIn, Book.Plus, Core.Record;
    RecordFields(core.Store(s, after), b);
    RecordedSamples(core.Store(s, after), closed, b);
    NotedSamples(t, s, b, after.Some?);
    EmptyPlus(b);
    assert core.Store(s, after).window == core.window;
  }

  lemma RecordFields(core: Core, b: Book)
    ensures core.Record(b).pending == core.pending
  {
    hide Digest, Totals.Plus, Book.Plus;
  }

  lemma EpisodeOngoing(core: Core, t: Trace, closed: Book, s: int)
    requires Traced(core, t, closed)
    ensures Ongoing(t.Episode(s), core.Lookup(s).GetOr(NEW_BATCH))
  {
    hide EventsIn, BatchesIn, Book.Plus, Dominated;
  }

  function TraceOne(cfg: Config, core: Core, t: Trace, item: Item): (after: Trace)
    requires t.Valid()
    ensures after.Valid()
  {
    if !core.Accepts(item.sequence) then t else
    var r := React(cfg, core.Lookup(item.sequence), item.arrival);
    t.Note(item.sequence, r.book, r.pending.Some?)
  }

  function TraceItems(cfg: Config, core: Core, t: Trace, items: seq<Item>): (after: Trace)
    requires t.Valid()
    ensures after.Valid()
  {
    if items == [] then t else
    var front := items[..|items| - 1];
    TraceOne(cfg, ProcessAll(cfg, core, front), TraceItems(cfg, core, t, front), items[|items| - 1])
  }

  function TraceSweep(cfg: Config, core: Core, t: Trace, keys: seq<int>, cutoff: int, all: bool): (after: Trace)
    requires t.Valid()
    ensures after.Valid()
    decreases |keys|
  {
    if keys == [] then t else
    var k := keys[0];
    if k in core.pending && Expired(core.pending[k], cutoff, all)
    then TraceSweep(cfg, FinishAt(cfg, core, k), t.Note(k, FinishBook(cfg, core.pending[k]), false), keys[1..], cutoff, all)
    else TraceSweep(cfg, core, t, keys[1..], cutoff, all)
  }

  lemma OneTraced(cfg: Config, core: Core, t: Trace, closed: Book, item: Item)
    requires Traced(core, t, closed)
    ensures Traced(Process(cfg, core, item), TraceOne(cfg, core, t, item), closed)
  {
    hide Traced, React, Core.Record, Ongoing, Continues;
    assert t.Valid() by { TracedValid(core, t, closed); }
    if core.Accepts(item.sequence) {
      var r := React(cfg, core.Lookup(item.sequence), item.arrival);
      EpisodeOngoing(core, t, closed, item.sequence);
      ReactContinues(cfg, t.Episode(item.sequence), core.Lookup(item.sequence), item.arrival);
      NoteTraced(core, t, closed, item.sequence, r.pending, r.book);
    }
  }

  lemma TracedValid(core: Core, t: Trace, closed: Book)
    requires Traced(core, t, closed)
    ensures t.Valid()
  {
  }

  lemma {:induction false} ItemsTraced(cfg: Config, core: Core, t: Trace, closed: Book, items: seq<Item>)
    requires t.Valid() && Traced(core, t, closed)
    ensures Traced(ProcessAll(cfg, core, items), TraceItems(cfg, core, t, items), closed)
  {
    hide Traced, Process, TraceOne;
    if items != [] {
      var front := items[..|items| - 1];
      ItemsTraced(cfg, core, t, closed, front);
      OneTraced(cfg, ProcessAll(cfg, core, front), TraceItems(cfg, core, t, front), closed, items[|items| - 1]);
    }
  }

  lemma FinishTraced(cfg: Config, core: Core, t: Trace, closed: Book, k: int)
    requires t.Valid() && Traced(core, t, closed) && k in core.pending
    ensures Traced(FinishAt(cfg, core, k), t.Note(k, FinishBook(cfg, core.pending[k]), false), closed)
  {
    hide Traced, FinishBook, Core.Record, Ongoing, Dominated;
    EpisodeOngoing(core, t, closed, k);
    FinishDominated(cfg, t.Episode(k), core.pending[k]);
    NoteTraced(core, t, closed, k, None, FinishBook(cfg, core.pending[k]));
  }

  lemma {:induction false} SweepTraced(cfg: Config, core: Core, t: Trace, closed: Book, keys: seq<int>, cutoff: int, all: bool)
    requires t.Valid() && Traced(core, t, closed)
    ensures Traced(Sweep(cfg, core, keys, cutoff, all), TraceSweep(cfg, core, t, keys, cutoff, all), closed)
    decreases |keys|
  {
    hide Traced, FinishAt, FinishBook, Expired, Trace.Note;
    if keys != [] {
      var k := keys[0];
      if k in core.pending && Expired(core.pending[k], cutoff, all) {
        FinishTraced(cfg, core, t, closed, k);
        SweepTraced(cfg, FinishAt(cfg, core, k), t.Note(k, FinishBook(cfg, core.pending[k]), false), closed, keys[1..],
                    cutoff, all);
      } else {
        SweepTraced(cfg, core, t, closed, keys[1..], cutoff, all);
      }
    }
  }

  // Runs.

  function TraceNext(cfg: Config, st: State, t: Trace, step: Step): (after: Trace)
    requires t.Valid()
    ensures after.Valid()
  {
    match step
    case Notify(c) => if st.measuring then TraceItems(cfg, st.core, t, ItemsOf(cfg, c.events, c.observed)) else t
    case BeginMeasurement => t.(open := map[])
    case EndMeasurement => t
    case TakeWindow(now, expireAll) =>
      TraceSweep(cfg, st.core, t, Ascending(st.core.pending.Keys), now - cfg.timeoutMs * NANOS_PER_MILLI, expireAll)
  }

  /** The episodes of a run: one per batch opened, in order of opening. */
  function TraceRun(cfg: Config, steps: seq<Step>): (t: Trace)
    ensures t.Valid()
  {
    if steps == [] then NO_TRACE else
    var front := steps[..|steps| - 1];
    TraceNext(cfg, Run(cfg, front), TraceRun(cfg, front), steps[|steps| - 1])
  }

  lemma NextTraced(cfg: Config, st: State, t: Trace, closed: Book, step: Step)
    requires t.Valid() && Traced(st.core, t, closed)
    ensures
      var w := Closed(cfg, st, step);
      Traced(Next(cfg, st, step).core, TraceNext(cfg, st, t, step), if w.Some? then closed.Plus(w.value.book) else closed)
  {
    hide Traced, ProcessAll, Sweep, ItemsOf, ObserveTimes, SequencesIn, ProfilesIn, Ascending, Book.Plus, TraceItems,
      TraceSweep;
    match step
    case Notify(c) =>
      if st.measuring {
        ItemsTraced(cfg, st.core, t, closed, ItemsOf(cfg, c.events, c.observed));
      } else {
        SamePending(st.core, Next(cfg, st, step).core, t, closed);
      }
    case BeginMeasurement => Restarted(st.core, Next(cfg, st, step).core, t, closed);
    case EndMeasurement => SamePending(st.core, Next(cfg, st, step).core, t, closed);
    case TakeWindow(now, expireAll) =>
      SweepTraced(cfg, st.core, t, closed, Ascending(st.core.pending.Keys), now - cfg.timeoutMs * NANOS_PER_MILLI,
                  expireAll);
      WindowClosed(Swept(cfg, st, now, expireAll).core, Next(cfg, st, step).core, TraceNext(cfg, st, t, step), closed);
  }

  lemma SamePending(core: Core, after: Core, t: Trace, closed: Book)
    requires Traced(core, t, closed) && after.pending == core.pending && after.window == core.window
    ensures Traced(after, t, closed)
  {
    hide Ongoing, Dominated, EventsIn, BatchesIn, Book.Plus;
  }

  lemma Restarted(core: Core, after: Core, t: Trace, closed: Book)
    requires Traced(core, t, closed) && after.pending == map[] && after.window == EMPTY_BOOK
    ensures Traced(after, t.(open := map[]), closed.Plus(core.window))
  {
    hide Ongoing, Dominated, EventsIn, BatchesIn, Book.Plus;
    BookPlus(closed.Plus(core.window), EMPTY_BOOK, EMPTY_BOOK);
  }

  lemma WindowClosed(core: Core, after: Core, t: Trace, closed: Book)
    requires Traced(core, t, closed) && after.pending == core.pending && after.window == EMPTY_BOOK
    ensures Traced(after, t, closed.Plus(core.window))
  {
    hide Ongoing, Dominated, EventsIn, BatchesIn, Book.Plus;
    BookPlus(closed.Plus(core.window), EMPTY_BOOK, EMPTY_BOOK);
  }

  lemma {:induction false} RunTraced(cfg: Config, steps: seq<Step>)
    ensures Traced(Run(cfg, steps).core, TraceRun(cfg, steps), SumBooks(ClosedBooks(cfg, steps)))
  {
    hide Traced, Next, TraceNext, Closed, Book.Plus;
    if steps == [] {
      NothingTraced();
    } else {
      var front, step := steps[..|steps| - 1], steps[|steps| - 1];
      RunTraced(cfg, front);
      NextTraced(cfg, Run(cfg, front), TraceRun(cfg, front), SumBooks(ClosedBooks(cfg, front)), step);
      var w := Closed(cfg, Run(cfg, front), step);
      if w.Some? {
        SumAppend(ClosedBooks(cfg, front), w.value.book);
      } else {
        assert ClosedBooks(cfg, steps) == ClosedBooks(cfg, front);
      }
    }
  }

  lemma NothingTraced()
    ensures Traced(INITIAL.core, NO_TRACE, EMPTY_BOOK)
  {
  }

  /** All samples of a run: those of the windows handed out, then those of the current one. */
  function Recorded(cfg: Config, steps: seq<Step>): Book {
    SumBooks(ClosedBooks(cfg, steps)).Plus(Run(cfg, steps).core.window)
  }

  /**
   * In every run, whatever arrives: the recorded samples split into one episode per batch opened, and within an
   * episode the batch latency is at least every event latency, measured from the same publication time.
   */
  lemma BatchDominates(cfg: Config, steps: seq<Step>)
    ensures
      var t, recorded := TraceRun(cfg, steps), Recorded(cfg, steps);
      && multiset(recorded.events) == EventsIn(t.episodes)
      && multiset(recorded.batches) == BatchesIn(t.episodes)
      && t.open.Keys == Run(cfg, steps).core.pending.Keys
      && (forall s :: s in t.open ==> Ongoing(t.episodes[t.open[s]], Run(cfg, steps).core.pending[s]))
      && forall i :: 0 <= i < |t.episodes| ==> Dominated(t.episodes[i])
  {
    hide Run, TraceRun, Ongoing, Dominated, EventsIn, BatchesIn, SumBooks, Book.Plus;
    RunTraced(cfg, steps);
  }

  lemma {:induction false} BatchHasEpisode(episodes: seq<Book>, x: Sample) returns (i: nat, j: nat)
    requires x in BatchesIn(episodes)
    ensures i < |episodes| && j < |episodes[i].batches| && episodes[i].batches[j] == x
  {
    var n := |episodes| - 1;
    if x in multiset(episodes[n].batches) {
      i := n;
      j :| 0 <= j < |episodes[n].batches| && episodes[n].batches[j] == x;
    } else {
      i, j := BatchHasEpisode(episodes[..n], x);
    }
  }

  /** Every recorded batch latency belongs to an episode and is at least each of its event latencies. */
  lemma RecordedBatchDominates(cfg: Config, steps: seq<Step>, x: Sample) returns (i: nat)
    requires x in Recorded(cfg, steps).batches
    ensures
      var episodes := TraceRun(cfg, steps).episodes;
      && i < |episodes| && episodes[i].batches == [x]
      && forall j :: 0 <= j < |episodes[i].events| ==>
           && episodes[i].events[j].publishTime == x.publishTime
           && episodes[i].events[j].latency <= x.latency
  {
    hide Recorded, TraceRun, BatchesIn, EventsIn, Run, Ongoing;
    BatchDominates(cfg, steps);
    assert x in multiset(Recorded(cfg, steps).batches);
    var j;
    i, j := BatchHasEpisode(TraceRun(cfg, steps).episodes, x);
    assert Dominated(TraceRun(cfg, steps).episodes[i]);
  }
}
