/** Books and totals form monoids, and recording respects them. */
module CollectorAlgebra {
  import opened Common
  import opened Events
  import opened CollectorModel

  lemma DeliveryPlus(a: Delivery, b: Delivery, c: Delivery)
    ensures a.Plus(b).Plus(c) == a.Plus(b.Plus(c))
    ensures a.Plus(NO_DELIVERY) == a == NO_DELIVERY.Plus(a)
    ensures a.Plus(b) == b.Plus(a)
  {
  }

  lemma BookPlus(a: Book, b: Book, c: Book)
    ensures a.Plus(b).Plus(c) == a.Plus(b.Plus(c))
    ensures a.Plus(EMPTY_BOOK) == a == EMPTY_BOOK.Plus(a)
  {
    hide Delivery.Plus;
    DeliveryPlus(a.delivery, b.delivery, c.delivery);
    Appended(a.events, b.events, c.events);
    Appended(a.batches, b.batches, c.batches);
    NothingAppended(a.events);
    NothingAppended(a.batches);
  }

  lemma Appended<T>(a: seq<T>, b: seq<T>, c: seq<T>)
    ensures a + b + c == a + (b + c)
  {
  }

  lemma NothingAppended<T>(s: seq<T>)
    ensures s + [] == s == [] + s
  {
  }

  lemma KindsPlus(a: PerKind<seq<int>>, b: PerKind<seq<int>>, c: PerKind<seq<int>>)
    ensures AppendKinds(AppendKinds(a, b), c) == AppendKinds(a, AppendKinds(b, c))
    ensures AppendKinds(a, NO_LATENCIES) == a == AppendKinds(NO_LATENCIES, a)
  {
    NothingAppended(a.quote);
    NothingAppended(a.trade);
    NothingAppended(a.tradeEth);
    NothingAppended(a.summary);
    assert a.quote + b.quote + c.quote == a.quote + (b.quote + c.quote);
    assert a.trade + b.trade + c.trade == a.trade + (b.trade + c.trade);
    assert a.tradeEth + b.tradeEth + c.tradeEth == a.tradeEth + (b.tradeEth + c.tradeEth);
    assert a.summary + b.summary + c.summary == a.summary + (b.summary + c.summary);
  }

  lemma TotalsPlus(a: Totals, b: Totals, c: Totals)
    ensures a.Plus(b).Plus(c) == a.Plus(b.Plus(c))
    ensures a.Plus(NO_TOTALS) == a == NO_TOTALS.Plus(a)
  {
    DeliveryPlus(a.delivery, b.delivery, c.delivery);
    KindsPlus(a.eventsByKind, b.eventsByKind, c.eventsByKind);
    assert a.batches + b.batches + c.batches == a.batches + (b.batches + c.batches);
    hide AppendKinds, Delivery.Plus;
  }

  lemma {:induction false} LatenciesPlus(a: seq<Sample>, b: seq<Sample>, kind: MarketKind)
    ensures LatenciesOf(a + b, kind) == LatenciesOf(a, kind) + LatenciesOf(b, kind)
  {
    if b == [] {
      assert a + b == a;
    } else {
      LatenciesPlus(a, b[..|b| - 1], kind);
      assert (a + b)[..|a + b| - 1] == a + b[..|b| - 1];
    }
  }

  /** Digesting a sum of books is the sum of the digests. */
  lemma DigestPlus(a: Book, b: Book)
    ensures Digest(a.Plus(b)) == Digest(a).Plus(Digest(b))
  {
    LatenciesPlus(a.events, b.events, Quote);
    LatenciesPlus(a.events, b.events, Trade);
    LatenciesPlus(a.events, b.events, TradeEth);
    LatenciesPlus(a.events, b.events, Summary);
    hide LatenciesOf;
    assert Latencies(a.batches + b.batches) == Latencies(a.batches) + Latencies(b.batches);
  }

  lemma DigestEmpty()
    ensures Digest(EMPTY_BOOK) == NO_TOTALS
  {
  }

  lemma RecordNothing(core: Core)
    ensures core.Record(EMPTY_BOOK) == core
  {
    DigestEmpty();
    BookPlus(core.window, EMPTY_BOOK, EMPTY_BOOK);
    TotalsPlus(core.total, NO_TOTALS, NO_TOTALS);
  }

  lemma RecordTwice(core: Core, a: Book, b: Book)
    ensures core.Record(a).Record(b) == core.Record(a.Plus(b))
  {
    DigestPlus(a, b);
    hide Digest;
    BookPlus(core.window, a, b);
    TotalsPlus(core.total, Digest(a), Digest(b));
  }

  lemma RecordAfterStore(core: Core, sequence: int, b: Option<Batch>, book: Book)
    ensures core.Store(sequence, b).Record(book) == core.Record(book).Store(sequence, b)
  {
  }

  lemma SingleLatency(s: Sample, kind: MarketKind)
    ensures LatenciesOf([s], kind) == if s.kind == kind then [s.latency] else []
  {
    assert [s][..0] == [];
  }

  lemma DigestSample(s: Sample)
    ensures Digest(EMPTY_BOOK.(events := [s]))
         == NO_TOTALS.(eventsByKind := NO_LATENCIES.Put(s.kind, [s.latency]))
  {
    SingleLatency(s, Quote);
    SingleLatency(s, Trade);
    SingleLatency(s, TradeEth);
    SingleLatency(s, Summary);
    hide LatenciesOf;
  }

  lemma AppendOne(a: PerKind<seq<int>>, k: MarketKind, x: int)
    ensures AppendKinds(a, NO_LATENCIES.Put(k, [x])) == a.Put(k, a.At(k) + [x])
  {
    NothingAppended(a.quote);
    NothingAppended(a.trade);
    NothingAppended(a.tradeEth);
    NothingAppended(a.summary);
  }

  /** Recording a sample, field by field. */
  lemma RecordSample(core: Core, s: Sample)
    ensures core.Record(EMPTY_BOOK.(events := [s]))
         == core.(window := core.window.(events := core.window.events + [s]),
                  total := core.total.(
                    eventsByKind := core.total.eventsByKind.Put(s.kind, core.total.eventsByKind.At(s.kind) + [s.latency])))
  {
    DigestSample(s);
    AppendOne(core.total.eventsByKind, s.kind, s.latency);
    DeliveryPlus(core.window.delivery, NO_DELIVERY, NO_DELIVERY);
    DeliveryPlus(core.total.delivery, NO_DELIVERY, NO_DELIVERY);
    hide Digest, AppendKinds, Delivery.Plus;
  }

  /** Recording a whole-publication sample, field by field. */
  lemma RecordBatch(core: Core, s: Sample)
    ensures core.Record(EMPTY_BOOK.(batches := [s]))
         == core.(window := core.window.(batches := core.window.batches + [s]),
                  total := core.total.(batches := core.total.batches + [s.latency]))
  {
    DigestEmpty();
    assert Latencies([s]) == [s.latency];
    KindsPlus(core.total.eventsByKind, NO_LATENCIES, NO_LATENCIES);
    DeliveryPlus(core.window.delivery, NO_DELIVERY, NO_DELIVERY);
    DeliveryPlus(core.total.delivery, NO_DELIVERY, NO_DELIVERY);
    hide LatenciesByKind, AppendKinds, Delivery.Plus;
  }

  /** Recording counters only, field by field. */
  lemma RecordCounters(core: Core, negative: nat, missing: nat, delivery: Delivery)
    ensures core.Record(Book([], [], negative, missing, delivery))
         == core.(window := core.window.(negative := core.window.negative + negative,
                                         missing := core.window.missing + missing,
                                         delivery := core.window.delivery.Plus(delivery)),
                  total := core.total.(negative := core.total.negative + negative,
                                       missing := core.total.missing + missing,
                                       delivery := core.total.delivery.Plus(delivery)))
  {
    DigestEmpty();
    KindsPlus(core.total.eventsByKind, NO_LATENCIES, NO_LATENCIES);
    hide LatenciesByKind, AppendKinds, Delivery.Plus;
  }

  lemma PricedStep(events: seq<PendingEvent>, i: nat, publishTime: int)
    requires i < |events|
    ensures PricedAll(events[..i + 1], publishTime)
         == PricedAll(events[..i], publishTime).Plus(Priced(events[i], publishTime))
  {
    assert events[..i + 1][..i] == events[..i];
  }

  lemma PricedNone(publishTime: int)
    ensures PricedAll([], publishTime) == EMPTY_BOOK
  {
  }

  /** Storing twice keeps the second batch. */
  lemma StoreTwice(core: Core, sequence: int, a: Option<Batch>, b: Option<Batch>)
    ensures core.Store(sequence, a).Store(sequence, b) == core.Store(sequence, b)
  {
    var m := core.pending;
    if a.Some? && b.Some? {
      assert m[sequence := a.value][sequence := b.value] == m[sequence := b.value];
    } else if a.Some? {
      assert m[sequence := a.value] - {sequence} == m - {sequence};
    } else if b.Some? {
      assert (m - {sequence})[sequence := b.value] == m[sequence := b.value];
    } else {
      assert m - {sequence} - {sequence} == m - {sequence};
    }
  }

  lemma EmitThenFinish(core: Core, sequence: int, e: Batch, a: Book, b: Book, c: Book)
    ensures core.Record(a).Store(sequence, Some(e)).Record(b).Record(c).Store(sequence, None)
         == core.Store(sequence, None).Record(a.Plus(b.Plus(c)))
  {
    hide Core.Record, Core.Store;
    var d := core.Record(a);
    RecordTwice(d.Store(sequence, Some(e)), b, c);
    RecordAfterStore(d, sequence, Some(e), b.Plus(c));
    StoreTwice(d.Record(b.Plus(c)), sequence, Some(e), None);
    RecordTwice(core, a, b.Plus(c));
    RecordAfterStore(core, sequence, None, a.Plus(b.Plus(c)));
  }

  /** Emitting and finishing step by step is one reaction. */
  lemma AdvanceSteps(cfg: Config, core: Core, sequence: int, b: Batch)
    ensures
      var r := Advance(cfg, b);
      var emitted := core.Store(sequence, Some(b)).Record(EmitBook(b)).Store(sequence, Some(Emitted(b)));
      && emitted.Lookup(sequence) == Some(Emitted(b))
      && core.Store(sequence, r.pending).Record(r.book) ==
         if r.pending.None? then FinishAt(cfg, emitted, sequence) else emitted
  {
    var e := Emitted(b);
    var c := core.Store(sequence, Some(b));
    var emitted := c.Record(EmitBook(b)).Store(sequence, Some(e));
    assert emitted.pending[sequence] == e;
    hide Core.Record, Core.Store, EmitBook, FinishBook, Emitted;
    var f := FinishBook(cfg, e);
    RecordAfterStore(core, sequence, Some(b), EmitBook(b));
    StoreTwice(core.Record(EmitBook(b)), sequence, Some(b), Some(e));
    RecordAfterStore(core, sequence, Some(e), EmitBook(b));
    StoreTwice(core.Record(EmitBook(b)), sequence, Some(e), None);
    RecordAfterStore(core, sequence, None, EmitBook(b));
    RecordTwice(core.Store(sequence, None), EmitBook(b), f);
  }
}
