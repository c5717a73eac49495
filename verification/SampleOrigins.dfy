/** Every recorded event latency is that of an event and a marker which were heard for one sequence while measuring. */
module SampleOrigins {
  import opened Common
  import opened Events
  import opened CollectorInputs
  import opened CollectorModel
  import opened CollectorRuns
  import Ordered

  /** What was heard while measuring, as it reaches correlation. */
  function HeardItems(cfg: Config, steps: seq<Step>): seq<Item> {
    if steps == [] then [] else
    var front, last := steps[..|steps| - 1], steps[|steps| - 1];
    HeardItems(cfg, front)
    + if last.Notify? && Measuring(front) then ItemsOf(cfg, last.callback.events, last.callback.observed) else []
  }

  ghost predicate HeardMarker(items: seq<Item>, s: int, timestamp: int) {
    exists observed :: Item(s, Marker(timestamp, observed)) in items
  }

  predicate HeardEvent(items: seq<Item>, s: int, e: PendingEvent) {
    Item(s, Event(e)) in items
  }

  /** The sample of an event and a marker. */
  predicate SampleFrom(x: Sample, e: PendingEvent, timestamp: int) {
    x == Sample(e.observed, timestamp, e.observed - timestamp, e.kind, e.symbol) && x.latency >= 0
  }

  ghost predicate Genuine(items: seq<Item>, x: Sample) {
    exists s, e :: HeardEvent(items, s, e) && HeardMarker(items, s, x.publishTime) && SampleFrom(x, e, x.publishTime)
  }

  ghost predicate AllGenuine(items: seq<Item>, samples: seq<Sample>) {
    forall i :: 0 <= i < |samples| ==> Genuine(items, samples[i])
  }

  /** When something was heard for a sequence; zero stands for before anything was. */
  ghost predicate HeardAt(items: seq<Item>, s: int, observed: int) {
    || observed == 0
    || (exists e :: HeardEvent(items, s, e) && e.observed == observed)
    || (exists timestamp :: Item(s, Marker(timestamp, observed)) in items)
  }

  /** The sample of a whole publication bears no event's kind or symbol. */
  ghost predicate GenuineBatch(items: seq<Item>, x: Sample) {
    && x == Sample(x.observed, x.publishTime, x.observed - x.publishTime, Quote, "") && x.latency >= 0
    && exists s :: HeardMarker(items, s, x.publishTime) && HeardAt(items, s, x.observed)
  }

  ghost predicate AllGenuineBatches(items: seq<Item>, samples: seq<Sample>) {
    forall i :: 0 <= i < |samples| ==> GenuineBatch(items, samples[i])
  }

  ghost predicate GenuineBook(items: seq<Item>, b: Book) {
    AllGenuine(items, b.events) && AllGenuineBatches(items, b.batches)
  }

  /** A batch retains heard events only, and takes its time from a heard marker. */
  ghost predicate Grounded(items: seq<Item>, s: int, b: Batch) {
    && (forall i :: 0 <= i < |b.events| ==> HeardEvent(items, s, b.events[i]))
    && (b.timestamp.Some? ==> HeardMarker(items, s, b.timestamp.value))
    && HeardAt(items, s, b.lastObserved)
  }

  ghost predicate AllGrounded(items: seq<Item>, core: Core) {
    && GenuineBook(items, core.window)
    && forall s :: s in core.pending ==> Grounded(items, s, core.pending[s])
  }

  // More may be heard.

  lemma MarkerStays(items: seq<Item>, more: seq<Item>, s: int, timestamp: int)
    requires HeardMarker(items, s, timestamp)
    ensures HeardMarker(items + more, s, timestamp)
  {
    var observed :| Item(s, Marker(timestamp, observed)) in items;
    assert Item(s, Marker(timestamp, observed)) in items + more;
  }

  lemma GenuineStays(items: seq<Item>, more: seq<Item>, x: Sample)
    requires Genuine(items, x)
    ensures Genuine(items + more, x)
  {
    hide HeardMarker;
    var s, e :| HeardEvent(items, s, e) && HeardMarker(items, s, x.publishTime) && SampleFrom(x, e, x.publishTime);
    MarkerStays(items, more, s, x.publishTime);
    assert HeardEvent(items + more, s, e);
  }

  lemma AllGenuineStays(items: seq<Item>, more: seq<Item>, samples: seq<Sample>)
    requires AllGenuine(items, samples)
    ensures AllGenuine(items + more, samples)
  {
    hide Genuine;
    forall i | 0 <= i < |samples| ensures Genuine(items + more, samples[i]) {
      GenuineStays(items, more, samples[i]);
    }
  }

  lemma HeardAtStays(items: seq<Item>, more: seq<Item>, s: int, observed: int)
    requires HeardAt(items, s, observed)
    ensures HeardAt(items + more, s, observed)
  {
    if e :| HeardEvent(items, s, e) && e.observed == observed {
      assert HeardEvent(items + more, s, e);
    } else if timestamp :| Item(s, Marker(timestamp, observed)) in items {
      assert Item(s, Marker(timestamp, observed)) in items + more;
    }
  }

  lemma GenuineBookStays(items: seq<Item>, more: seq<Item>, b: Book)
    requires GenuineBook(items, b)
    ensures GenuineBook(items + more, b)
  {
    hide HeardMarker, HeardAt, AllGenuine;
    AllGenuineStays(items, more, b.events);
    forall i | 0 <= i < |b.batches| ensures GenuineBatch(items + more, b.batches[i]) {
      var x := b.batches[i];
      assert GenuineBatch(items, x);
      var s :| HeardMarker(items, s, x.publishTime) && HeardAt(items, s, x.observed);
      MarkerStays(items, more, s, x.publishTime);
      HeardAtStays(items, more, s, x.observed);
    }
  }

  lemma GroundedStays(items: seq<Item>, more: seq<Item>, s: int, b: Batch)
    requires Grounded(items, s, b)
    ensures Grounded(items + more, s, b)
  {
    hide HeardMarker, HeardAt;
    HeardAtStays(items, more, s, b.lastObserved);
    if b.timestamp.Some? {
      MarkerStays(items, more, s, b.timestamp.value);
    }
    forall i | 0 <= i < |b.events| ensures HeardEvent(items + more, s, b.events[i]) {
      assert HeardEvent(items, s, b.events[i]);
    }
  }

  lemma CoreStays(items: seq<Item>, more: seq<Item>, core: Core)
    requires AllGrounded(items, core)
    ensures AllGrounded(items + more, core)
  {
    hide Grounded, GenuineBook;
    GenuineBookStays(items, more, core.window);
    forall s | s in core.pending ensures Grounded(items + more, s, core.pending[s]) {
      GroundedStays(items, more, s, core.pending[s]);
    }
  }

  lemma GenuineAppend(items: seq<Item>, a: seq<Sample>, b: seq<Sample>)
    requires AllGenuine(items, a) && AllGenuine(items, b)
    ensures AllGenuine(items, a + b)
  {
    hide Genuine;
  }

  lemma GenuinePlus(items: seq<Item>, a: Book, b: Book)
    requires GenuineBook(items, a) && GenuineBook(items, b)
    ensures GenuineBook(items, a.Plus(b))
  {
    hide Genuine, GenuineBatch, Delivery.Plus;
    GenuineAppend(items, a.events, b.events);
  }

  lemma NoSamples(items: seq<Item>)
    ensures AllGenuine(items, []) && AllGenuineBatches(items, [])
  {
  }

  // One sequence.

  lemma {:induction false} PricedGenuine(items: seq<Item>, s: int, events: seq<PendingEvent>, timestamp: int)
    requires forall i :: 0 <= i < |events| ==> HeardEvent(items, s, events[i])
    requires HeardMarker(items, s, timestamp)
    ensures AllGenuine(items, PricedAll(events, timestamp).events)
  {
    hide HeardMarker, HeardEvent, Delivery.Plus;
    if events != [] {
      var front, last := events[..|events| - 1], events[|events| - 1];
      PricedGenuine(items, s, front, timestamp);
      assert HeardEvent(items, s, last);
      if last.observed >= timestamp {
        assert SampleFrom(Priced(last, timestamp).events[0], last, timestamp);
      }
      GenuineAppend(items, PricedAll(front, timestamp).events, Priced(last, timestamp).events);
    }
  }

  lemma {:induction false} PricedBatchless(events: seq<PendingEvent>, timestamp: int)
    ensures PricedAll(events, timestamp).batches == []
  {
    hide Delivery.Plus;
    if events != [] {
      PricedBatchless(events[..|events| - 1], timestamp);
    }
  }

  lemma EmittedGenuine(items: seq<Item>, s: int, b: Batch)
    requires Grounded(items, s, b)
    ensures GenuineBook(items, EmitBook(b)) && Grounded(items, s, Emitted(b))
  {
    hide HeardMarker, HeardEvent, HeardAt, PricedAll;
    NoSamples(items);
    if b.timestamp.Some? {
      PricedGenuine(items, s, b.events, b.timestamp.value);
      PricedBatchless(b.events, b.timestamp.value);
    }
  }

  lemma BatchGenuine(items: seq<Item>, s: int, b: Batch)
    requires Grounded(items, s, b) && b.timestamp.Some?
    ensures GenuineBook(items, BatchBook(b))
  {
    hide HeardMarker, HeardEvent, HeardAt;
    NoSamples(items);
  }

  lemma CountersGenuine(items: seq<Item>, missing: nat, delivery: Delivery)
    ensures GenuineBook(items, Book([], [], 0, missing, delivery))
  {
    NoSamples(items);
  }

  lemma FinishGenuine(cfg: Config, items: seq<Item>, s: int, b: Batch)
    requires Grounded(items, s, b)
    ensures GenuineBook(items, FinishBook(cfg, b))
  {
    hide Grounded, EmitBook, GenuineBook, Settlement, Delivery.Plus, BatchBook, Emitted, Book.Plus;
    CountersGenuine(items, if cfg.allowConflation then 0 else 1, NO_DELIVERY.(uncorrelated := b.received));
    EmittedGenuine(items, s, b);
    EmittedTime(b);
    if b.timestamp.Some? {
      var e := Emitted(b);
      BatchGenuine(items, s, e);
      var counters := Book([], [], 0, if e.byKind != cfg.expected && !cfg.allowConflation then 1 else 0, Settlement(cfg, e));
      CountersGenuine(items, counters.missing, counters.delivery);
      GenuinePlus(items, counters, BatchBook(e));
      GenuinePlus(items, EmitBook(b), SettleBook(cfg, e));
    }
  }

  lemma EmittedTime(b: Batch)
    ensures Emitted(b).timestamp == b.timestamp
  {
  }

  lemma AdvanceGenuine(cfg: Config, items: seq<Item>, s: int, b: Batch)
    requires Grounded(items, s, b)
    ensures
      var r := Advance(cfg, b);
      GenuineBook(items, r.book) && (r.pending.Some? ==> Grounded(items, s, r.pending.value))
  {
    hide Grounded, EmitBook, FinishBook, GenuineBook, Emitted, Delivery.Plus;
    EmittedGenuine(items, s, b);
    FinishGenuine(cfg, items, s, Emitted(b));
    GenuinePlus(items, EmitBook(b), FinishBook(cfg, Emitted(b)));
  }

  lemma ArrivalGrounded(items: seq<Item>, s: int, pending: Option<Batch>, a: Arrival)
    requires pending.Some? ==> Grounded(items, s, pending.value)
    requires Item(s, a) in items
    ensures
      var b := pending.GetOr(NEW_BATCH);
      match a
      case Event(e) => Grounded(items, s, WithEvent(b, e))
      case Marker(timestamp, observed) => Grounded(items, s, WithMarker(b, timestamp, observed))
  {
    var b := pending.GetOr(NEW_BATCH);
    match a
    case Event(e) =>
      assert HeardEvent(items, s, e);
      assert forall i :: 0 <= i < |b.events| ==> WithEvent(b, e).events[i] == b.events[i];
    case Marker(timestamp, observed) => assert HeardMarker(items, s, timestamp);
  }

  lemma ReactGenuine(cfg: Config, items: seq<Item>, s: int, pending: Option<Batch>, a: Arrival)
    requires pending.Some? ==> Grounded(items, s, pending.value)
    requires Item(s, a) in items
    ensures
      var r := React(cfg, pending, a);
      GenuineBook(items, r.book) && (r.pending.Some? ==> Grounded(items, s, r.pending.value))
  {
    hide Grounded, Advance, GenuineBook, WithEvent, WithMarker, Delivery.Plus, Book.Plus;
    ArrivalGrounded(items, s, pending, a);
    var b := pending.GetOr(NEW_BATCH);
    match a
    case Event(e) => AdvanceGenuine(cfg, items, s, WithEvent(b, e));
    case Marker(timestamp, observed) =>
      var r := Advance(cfg, WithMarker(b, timestamp, observed));
      var published := if b.timestamp.None? then cfg.expected else NO_DELIVERY.published;
      AdvanceGenuine(cfg, items, s, WithMarker(b, timestamp, observed));
      CountersGenuine(items, 0, NO_DELIVERY.(published := published));
      GenuinePlus(items, EMPTY_BOOK.(delivery := NO_DELIVERY.(published := published)), r.book);
  }

  // Whole states.

  lemma RecordGrounded(items: seq<Item>, core: Core, s: int, after: Option<Batch>, book: Book)
    requires AllGrounded(items, core) && GenuineBook(items, book)
    requires after.Some? ==> Grounded(items, s, after.value)
    ensures AllGrounded(items, core.Store(s, after).Record(book))
  {
    hide Grounded, GenuineBook, Digest, Totals.Plus, Book.Plus;
    GenuinePlus(items, core.window, book);
  }

  lemma ProcessGrounded(cfg: Config, items: seq<Item>, core: Core, item: Item)
    requires AllGrounded(items, core) && item in items
    ensures AllGrounded(items, Process(cfg, core, item))
  {
    hide Grounded, GenuineBook, React, Core.Record;
    if core.Accepts(item.sequence) {
      ReactGenuine(cfg, items, item.sequence, core.Lookup(item.sequence), item.arrival);
      var r := React(cfg, core.Lookup(item.sequence), item.arrival);
      RecordGrounded(items, core, item.sequence, r.pending, r.book);
    }
  }

  lemma {:induction false} ProcessAllGrounded(cfg: Config, items: seq<Item>, core: Core, more: seq<Item>)
    requires AllGrounded(items, core) && forall x :: x in more ==> x in items
    ensures AllGrounded(items, ProcessAll(cfg, core, more))
  {
    hide AllGrounded, Process;
    if more != [] {
      var front, last := more[..|more| - 1], more[|more| - 1];
      assert forall x :: x in front ==> x in more;
      ProcessAllGrounded(cfg, items, core, front);
      ProcessGrounded(cfg, items, ProcessAll(cfg, core, front), last);
    }
  }

  lemma {:induction false} SweepGrounded(cfg: Config, items: seq<Item>, core: Core, keys: seq<int>, cutoff: int, all: bool)
    requires AllGrounded(items, core)
    ensures AllGrounded(items, Sweep(cfg, core, keys, cutoff, all))
    decreases |keys|
  {
    hide Grounded, GenuineBook, FinishBook, Core.Record, Expired;
    if keys != [] {
      var k := keys[0];
      if k in core.pending && Expired(core.pending[k], cutoff, all) {
        FinishGenuine(cfg, items, k, core.pending[k]);
        RecordGrounded(items, core, k, None, FinishBook(cfg, core.pending[k]));
        SweepGrounded(cfg, items, FinishAt(cfg, core, k), keys[1..], cutoff, all);
      } else {
        SweepGrounded(cfg, items, core, keys[1..], cutoff, all);
      }
    }
  }

  lemma NextGrounded(cfg: Config, items: seq<Item>, st: State, step: Step)
    requires AllGrounded(items, st.core)
    requires step.Notify? && st.measuring ==>
      forall x :: x in ItemsOf(cfg, step.callback.events, step.callback.observed) ==> x in items
    ensures AllGrounded(items, Next(cfg, st, step).core)
    ensures var w := Closed(cfg, st, step); w.Some? ==> GenuineBook(items, w.value.book)
  {
    hide GenuineBook, Grounded, ProcessAll, Sweep, ItemsOf, ObserveTimes, SequencesIn, ProfilesIn, Ordered.Ascending;
    CountersGenuine(items, 0, NO_DELIVERY);
    match step
    case Notify(c) =>
      if st.measuring {
        ProcessAllGrounded(cfg, items, st.core, ItemsOf(cfg, c.events, c.observed));
      }
    case TakeWindow(now, expireAll) =>
      SweepGrounded(cfg, items, st.core, Ordered.Ascending(st.core.pending.Keys), now - cfg.timeoutMs * NANOS_PER_MILLI,
                    expireAll);
    case _ =>
  }

  lemma ClosedLast(cfg: Config, steps: seq<Step>)
    requires steps != []
    ensures
      var front := steps[..|steps| - 1];
      var w, before := Closed(cfg, Run(cfg, front), steps[|steps| - 1]), SumBooks(ClosedBooks(cfg, front));
      SumBooks(ClosedBooks(cfg, steps)) == if w.Some? then before.Plus(w.value.book) else before
  {
    hide Closed, Run, Book.Plus;
    var front := steps[..|steps| - 1];
    var w, books := Closed(cfg, Run(cfg, front), steps[|steps| - 1]), ClosedBooks(cfg, front);
    if w.Some? {
      assert (books + [w.value.book])[..|books|] == books;
    } else {
      assert books + [] == books;
    }
  }

  /**
   * In every run, in the current window and the closed ones: each recorded event latency is the observation time of an
   * event less the time of a marker, both heard for the same sequence while measuring, and bears that event's kind and
   * symbol; and each batch latency is the time of some arrival of a sequence less that of one of its markers.
   */
  lemma {:induction false} SamplesGenuine(cfg: Config, steps: seq<Step>)
    ensures AllGrounded(HeardItems(cfg, steps), Run(cfg, steps).core)
    ensures GenuineBook(HeardItems(cfg, steps), SumBooks(ClosedBooks(cfg, steps)))
  {
    hide AllGrounded, GenuineBook, Next, Closed, ItemsOf, Measuring, SumBooks, ClosedBooks, Book.Plus;
    if steps == [] {
      NothingHeard(cfg);
    } else {
      var front, last := steps[..|steps| - 1], steps[|steps| - 1];
      var st, items := Run(cfg, front), HeardItems(cfg, steps);
      SamplesGenuine(cfg, front);
      Phases(cfg, front);
      var more := if last.Notify? && Measuring(front) then ItemsOf(cfg, last.callback.events, last.callback.observed) else [];
      assert items == HeardItems(cfg, front) + more;
      CoreStays(HeardItems(cfg, front), more, st.core);
      GenuineBookStays(HeardItems(cfg, front), more, SumBooks(ClosedBooks(cfg, front)));
      NextGrounded(cfg, items, st, last);
      ClosedLast(cfg, steps);
      var w := Closed(cfg, st, last);
      if w.Some? {
        GenuinePlus(items, SumBooks(ClosedBooks(cfg, front)), w.value.book);
      }
    }
  }

  lemma NothingHeard(cfg: Config)
    ensures AllGrounded([], INITIAL.core) && GenuineBook([], SumBooks(ClosedBooks(cfg, [])))
  {
  }
}
