/** The collector as the client runs it: an object whose methods update its accumulators in place (src/client.cpp). */
module CollectorObject {
  import opened Common
  import opened Events
  import opened Markers
  import opened Ordered
  import opened CollectorModel
  import opened CollectorAlgebra
  import SourceTime

  /** The first n kinds of an array indexed by kind. */
  function Leading(c: Counts, n: nat): Counts {
    PerKind(if n > 0 then c.quote else 0, if n > 1 then c.trade else 0,
            if n > 2 then c.tradeEth else 0, if n > 3 then c.summary else 0)
  }

  /** What settling the first n kinds adds to the delivery counters. */
  function KindsSettled(cfg: Config, byKind: Counts, n: nat): Delivery {
    NO_DELIVERY.(delivered := Leading(byKind, n),
                 deficit := Leading(Shortfalls(cfg.expected, byKind), n),
                 excess := Leading(Shortfalls(byKind, cfg.expected), n))
  }

  function CountDelivered(d: Delivery, k: MarketKind, n: nat): Delivery {
    d.(delivered := d.delivered.Put(k, d.delivered.At(k) + n))
  }

  function CountDeficit(d: Delivery, k: MarketKind, n: nat): Delivery {
    d.(deficit := d.deficit.Put(k, d.deficit.At(k) + n))
  }

  function CountExcess(d: Delivery, k: MarketKind, n: nat): Delivery {
    d.(excess := d.excess.Put(k, d.excess.At(k) + n))
  }

  lemma KindCounted(cfg: Config, byKind: Counts, n: nat, d: Delivery)
    requires n < 4
    ensures
      var k: MarketKind := MARKET_KINDS[n];
      var expected, received := cfg.expected.At(k), byKind.At(k);
      var before, after := d.Plus(KindsSettled(cfg, byKind, n)), d.Plus(KindsSettled(cfg, byKind, n + 1));
      && (received < expected ==> after == CountDeficit(CountDelivered(before, k, received), k, expected - received))
      && (received > expected ==> after == CountExcess(CountDelivered(before, k, received), k, received - expected))
      && (received == expected ==> after == CountDelivered(before, k, received))
  {
    if n == 0 {
    } else if n == 1 {
    } else if n == 2 {
    } else {
    }
  }

  /** A publication counts as full, empty or partial. */
  function Outcome(batch: Batch, complete: bool): Delivery {
    NO_DELIVERY.(full := if complete then 1 else 0, empty := if !complete && batch.received == 0 then 1 else 0,
                 partial := if !complete && batch.received != 0 then 1 else 0)
  }

  lemma KindsThenOutcome(cfg: Config, batch: Batch, d: Delivery)
    ensures d.Plus(KindsSettled(cfg, batch.byKind, 4)).Plus(Outcome(batch, batch.byKind == cfg.expected))
         == d.Plus(Settlement(cfg, batch))
  {
    DeliveryPlus(d, KindsSettled(cfg, batch.byKind, 4), Outcome(batch, batch.byKind == cfg.expected));
  }

  lemma NothingSettled(cfg: Config, byKind: Counts, d: Delivery)
    ensures d.Plus(KindsSettled(cfg, byKind, 0)) == d
  {
    DeliveryPlus(d, NO_DELIVERY, NO_DELIVERY);
  }

  lemma EveryKindCompared(a: Counts, b: Counts)
    ensures (forall j :: 0 <= j < 4 ==> b.At(MARKET_KINDS[j]) == a.At(MARKET_KINDS[j])) <==> b == a
  {
    assert MARKET_KINDS[0] == Quote && MARKET_KINDS[1] == Trade;
    assert MARKET_KINDS[2] == TradeEth && MARKET_KINDS[3] == Summary;
    if forall j :: 0 <= j < 4 ==> b.At(MARKET_KINDS[j]) == a.At(MARKET_KINDS[j]) {
      assert b.At(MARKET_KINDS[0]) == a.At(MARKET_KINDS[0]) && b.At(MARKET_KINDS[1]) == a.At(MARKET_KINDS[1]);
      assert b.At(MARKET_KINDS[2]) == a.At(MARKET_KINDS[2]) && b.At(MARKET_KINDS[3]) == a.At(MARKET_KINDS[3]);
    }
  }

  lemma NothingRevealed(cfg: Config)
    ensures SequencesIn(cfg, []) == {}
  {
  }

  lemma RevealedNext(cfg: Config, events: seq<WireEvent>, e: WireEvent)
    ensures SequencesIn(cfg, events + [e])
         == SequencesIn(cfg, events) + if SequenceOf(cfg, e).Some? then {SequenceOf(cfg, e).value} else {}
  {
    hide SequenceOf;
    assert e in events + [e];
    assert forall x :: x in events + [e] <==> x in events || x == e;
  }

  class Collector {
    const cfg: Config
    const sourceTimeMethods: SourceTime.SourceTimeMethodComparison

    var measuring: bool
    var sourceTimeMeasuring: bool
    var acceptingNewBatches: bool
    var preMeasurementSequences: set<int>
    var eventWindow: seq<Sample>
    var batchWindow: seq<Sample>
    var eventGlobalByKind: PerKind<seq<int>>
    var batchGlobal: seq<int>
    var pending: map<int, Batch>
    var negativeWindow: nat
    var negativeTotal: nat
    var missingWindow: nat
    var missingTotal: nat
    var deliveryWindow: Delivery
    var deliveryTotal: Delivery
    var callbackWindow: CallbackStats
    var callbackTotal: CallbackStats
    var profileSymbolsReceived: set<string>
    var activity: nat

    ghost function WindowBook(): Book
      reads this`eventWindow, this`batchWindow, this`negativeWindow, this`missingWindow, this`deliveryWindow
    {
      Book(eventWindow, batchWindow, negativeWindow, missingWindow, deliveryWindow)
    }

    ghost function TotalBook(): Totals
      reads this`eventGlobalByKind, this`batchGlobal, this`negativeTotal, this`missingTotal, this`deliveryTotal
    {
      Totals(eventGlobalByKind, batchGlobal, negativeTotal, missingTotal, deliveryTotal)
    }

    ghost function Correlation(): Core
      reads this`acceptingNewBatches, this`preMeasurementSequences, this`pending
      reads this`eventWindow, this`batchWindow, this`negativeWindow, this`missingWindow, this`deliveryWindow
      reads this`eventGlobalByKind, this`batchGlobal, this`negativeTotal, this`missingTotal, this`deliveryTotal
    {
      Core(acceptingNewBatches, preMeasurementSequences, pending, WindowBook(), TotalBook())
    }

    ghost function Contents(): State
      reads this, sourceTimeMethods
    {
      State(measuring, sourceTimeMeasuring, Correlation(), callbackWindow, callbackTotal,
            profileSymbolsReceived, activity, sourceTimeMethods.Contents())
    }

    constructor (cfg: Config)
      ensures this.cfg == cfg && Contents() == INITIAL
      ensures fresh(sourceTimeMethods)
    {
      this.cfg := cfg;
      sourceTimeMethods := new SourceTime.SourceTimeMethodComparison();
      measuring, sourceTimeMeasuring, acceptingNewBatches := false, false, false;
      preMeasurementSequences, pending, profileSymbolsReceived, activity := {}, map[], {}, 0;
      eventWindow, batchWindow, eventGlobalByKind, batchGlobal := [], [], NO_LATENCIES, [];
      negativeWindow, negativeTotal, missingWindow, missingTotal := 0, 0, 0, 0;
      deliveryWindow, deliveryTotal := NO_DELIVERY, NO_DELIVERY;
      callbackWindow, callbackTotal := NO_CALLBACKS, NO_CALLBACKS;
    }

    /** Turns the retained events of a marked batch into samples or clock anomalies. */
    method EmitEvents(sequence: int)
      requires sequence in pending
      modifies this`eventWindow, this`eventGlobalByKind, this`negativeWindow, this`negativeTotal, this`pending
      ensures Correlation() == old(Correlation().Record(EmitBook(pending[sequence]))
                                                .Store(sequence, Some(Emitted(pending[sequence]))))
    {
      hide Core.Record, PricedAll;
      var batch := pending[sequence];
      RecordNothing(Correlation());
      if batch.timestamp.None? {
        assert pending == pending[sequence := batch];
        return;
      }
      var publishTime := batch.timestamp.value;
      PricedNone(publishTime);
      assert batch.events[..0] == [];
      for i := 0 to |batch.events|
        invariant pending == old(pending)
        invariant Correlation() == old(Correlation()).Record(PricedAll(batch.events[..i], publishTime))
      {
        var event := batch.events[i];
        PricedStep(batch.events, i, publishTime);
        RecordTwice(old(Correlation()), PricedAll(batch.events[..i], publishTime), Priced(event, publishTime));
        EmitOne(event, publishTime);
      }
      assert batch.events[..|batch.events|] == batch.events;
      pending := pending[sequence := batch.(events := [])];
    }

    method EmitOne(event: PendingEvent, publishTime: int)
      modifies this`eventWindow, this`eventGlobalByKind, this`negativeWindow, this`negativeTotal
      ensures Correlation() == old(Correlation()).Record(Priced(event, publishTime))
    {
      hide Core.Record;
      var delta := event.observed - publishTime;
      if delta < 0 {
        RecordCounters(Correlation(), 1, 0, NO_DELIVERY);
        DeliveryPlus(deliveryWindow, NO_DELIVERY, NO_DELIVERY);
        DeliveryPlus(deliveryTotal, NO_DELIVERY, NO_DELIVERY);
        negativeWindow := negativeWindow + 1;
        negativeTotal := negativeTotal + 1;
      } else {
        var sample := Sample(event.observed, publishTime, delta, event.kind, event.symbol);
        RecordSample(Correlation(), sample);
        eventWindow := eventWindow + [sample];
        eventGlobalByKind := eventGlobalByKind.Put(event.kind, eventGlobalByKind.At(event.kind) + [delta]);
      }
    }

    /** Compares a marked batch with the expected composition, kind by kind. */
    method SettleDelivery(batch: Batch)
      modifies this`deliveryWindow, this`deliveryTotal, this`missingWindow, this`missingTotal
      ensures Correlation() == old(Correlation()).Record(
                Book([], [], 0, if batch.byKind != cfg.expected && !cfg.allowConflation then 1 else 0,
                     Settlement(cfg, batch)))
    {
      hide Core.Record, Delivery.Plus, KindsSettled;
      var complete := SettleKinds(batch);
      CountPublication(batch, complete);
      KindsThenOutcome(cfg, batch, old(deliveryWindow));
      KindsThenOutcome(cfg, batch, old(deliveryTotal));
      if !complete && !cfg.allowConflation {
        missingWindow := missingWindow + 1;
        missingTotal := missingTotal + 1;
      }
      RecordCounters(old(Correlation()), 0, if complete || cfg.allowConflation then 0 else 1, Settlement(cfg, batch));
    }

    method CountPublication(batch: Batch, complete: bool)
      modifies this`deliveryWindow, this`deliveryTotal
      ensures deliveryWindow == old(deliveryWindow).Plus(Outcome(batch, complete))
      ensures deliveryTotal == old(deliveryTotal).Plus(Outcome(batch, complete))
    {
      if complete {
        deliveryWindow := deliveryWindow.(full := deliveryWindow.full + 1);
        deliveryTotal := deliveryTotal.(full := deliveryTotal.full + 1);
      } else if batch.received == 0 {
        deliveryWindow := deliveryWindow.(empty := deliveryWindow.empty + 1);
        deliveryTotal := deliveryTotal.(empty := deliveryTotal.empty + 1);
      } else {
        deliveryWindow := deliveryWindow.(partial := deliveryWindow.partial + 1);
        deliveryTotal := deliveryTotal.(partial := deliveryTotal.partial + 1);
      }
    }

    method SettleKinds(batch: Batch) returns (complete: bool)
      modifies this`deliveryWindow, this`deliveryTotal
      ensures deliveryWindow == old(deliveryWindow).Plus(KindsSettled(cfg, batch.byKind, 4))
      ensures deliveryTotal == old(deliveryTotal).Plus(KindsSettled(cfg, batch.byKind, 4))
      ensures complete <==> batch.byKind == cfg.expected
    {
      hide Delivery.Plus, KindsSettled, CountDelivered, CountDeficit, CountExcess;
      complete := true;
      NothingSettled(cfg, batch.byKind, deliveryWindow);
      NothingSettled(cfg, batch.byKind, deliveryTotal);
      for i := 0 to 4
        invariant deliveryWindow == old(deliveryWindow).Plus(KindsSettled(cfg, batch.byKind, i))
        invariant deliveryTotal == old(deliveryTotal).Plus(KindsSettled(cfg, batch.byKind, i))
        invariant complete <==>
          forall j :: 0 <= j < i ==> batch.byKind.At(MARKET_KINDS[j]) == cfg.expected.At(MARKET_KINDS[j])
      {
        var kind := MARKET_KINDS[i];
        var expected, received := cfg.expected.At(kind), batch.byKind.At(kind);
        KindCounted(cfg, batch.byKind, i, old(deliveryWindow));
        KindCounted(cfg, batch.byKind, i, old(deliveryTotal));
        deliveryWindow := CountDelivered(deliveryWindow, kind, received);
        deliveryTotal := CountDelivered(deliveryTotal, kind, received);
        if received < expected {
          var difference := expected - received;
          deliveryWindow := CountDeficit(deliveryWindow, kind, difference);
          deliveryTotal := CountDeficit(deliveryTotal, kind, difference);
          complete := false;
        } else if received > expected {
          var difference := received - expected;
          deliveryWindow := CountExcess(deliveryWindow, kind, difference);
          deliveryTotal := CountExcess(deliveryTotal, kind, difference);
          complete := false;
        }
      }
      EveryKindCompared(cfg.expected, batch.byKind);
    }

    /** Records the latency of a marked batch that received events. */
    method SampleBatch(batch: Batch)
      requires batch.timestamp.Some?
      modifies this`batchWindow, this`batchGlobal, this`negativeWindow, this`negativeTotal
      ensures Correlation() == old(Correlation()).Record(BatchBook(batch))
    {
      hide Core.Record;
      RecordNothing(Correlation());
      if batch.received != 0 {
        var delta := batch.lastObserved - batch.timestamp.value;
        if delta < 0 {
          RecordCounters(Correlation(), 1, 0, NO_DELIVERY);
          DeliveryPlus(deliveryWindow, NO_DELIVERY, NO_DELIVERY);
          DeliveryPlus(deliveryTotal, NO_DELIVERY, NO_DELIVERY);
          negativeWindow := negativeWindow + 1;
          negativeTotal := negativeTotal + 1;
        } else {
          var sample := Sample(batch.lastObserved, batch.timestamp.value, delta, Quote, "");
          RecordBatch(Correlation(), sample);
          batchWindow := batchWindow + [sample];
          batchGlobal := batchGlobal + [delta];
        }
      }
    }

    /** Removes a batch whose marker never arrived: its events stay uncorrelated. */
    method FinishUnmarked(sequence: int)
      requires sequence in pending && pending[sequence].timestamp.None?
      modifies this`pending, this`missingWindow, this`missingTotal, this`deliveryWindow, this`deliveryTotal
      ensures Correlation() == FinishAt(cfg, old(Correlation()), sequence)
    {
      hide Core.Record, Delivery.Plus;
      var received := pending[sequence].received;
      RecordCounters(Correlation().Store(sequence, None), 0, if cfg.allowConflation then 0 else 1,
                     NO_DELIVERY.(uncorrelated := received));
      UncorrelatedCounted(deliveryWindow, received);
      UncorrelatedCounted(deliveryTotal, received);
      deliveryWindow := deliveryWindow.(uncorrelated := deliveryWindow.uncorrelated + received);
      deliveryTotal := deliveryTotal.(uncorrelated := deliveryTotal.uncorrelated + received);
      if !cfg.allowConflation {
        missingWindow := missingWindow + 1;
        missingTotal := missingTotal + 1;
      }
      pending := pending - {sequence};
    }

    /** Removes a batch and accounts for it. */
    method Finish(sequence: int)
      requires sequence in pending
      modifies this`pending, this`eventWindow, this`batchWindow, this`eventGlobalByKind, this`batchGlobal,
               this`negativeWindow, this`negativeTotal, this`missingWindow, this`missingTotal,
               this`deliveryWindow, this`deliveryTotal
      ensures Correlation() == FinishAt(cfg, old(Correlation()), sequence)
    {
      hide Core.Record, EmitBook, BatchBook, Settlement;
      if pending[sequence].timestamp.None? {
        FinishUnmarked(sequence);
        return;
      }
      var batch := pending[sequence];
      ghost var emission := EmitBook(batch);
      EmitEvents(sequence);
      batch := pending[sequence];
      ghost var counts :=
        Book([], [], 0, if batch.byKind != cfg.expected && !cfg.allowConflation then 1 else 0, Settlement(cfg, batch));
      EmitThenFinish(old(Correlation()), sequence, batch, emission, counts, BatchBook(batch));
      SettleDelivery(batch);
      SampleBatch(batch);
      pending := pending - {sequence};
    }

    predicate AcceptBatch(sequence: int)
      reads this
    {
      sequence !in preMeasurementSequences && (acceptingNewBatches || sequence in pending)
    }

    /** Emits what the marker allows, and finishes the batch once its composition is the expected one. */
    method EmitOrFinish(sequence: int)
      requires sequence in pending
      modifies this`pending, this`eventWindow, this`batchWindow, this`eventGlobalByKind, this`batchGlobal,
               this`negativeWindow, this`negativeTotal, this`missingWindow, this`missingTotal,
               this`deliveryWindow, this`deliveryTotal
      ensures
        var r := Advance(cfg, old(pending[sequence]));
        Correlation() == old(Correlation()).Store(sequence, r.pending).Record(r.book)
    {
      ghost var core, batch := Correlation(), pending[sequence];
      AdvanceSteps(cfg, core, sequence, batch);
      assert core.Store(sequence, Some(batch)) == core by {
        assert pending[sequence := batch] == pending;
      }
      hide Core.Record, EmitBook, FinishBook, FinishAt;
      EmitEvents(sequence);
      if pending[sequence].timestamp.Some? && pending[sequence].byKind == cfg.expected {
        Finish(sequence);
      }
    }

    method AddEvent(sequence: int, event: PendingEvent)
      modifies this`pending, this`eventWindow, this`batchWindow, this`eventGlobalByKind, this`batchGlobal,
               this`negativeWindow, this`negativeTotal, this`missingWindow, this`missingTotal,
               this`deliveryWindow, this`deliveryTotal
      ensures Correlation() == Process(cfg, old(Correlation()), Item(sequence, Event(event)))
    {
      hide Core.Record, Advance;
      ghost var core := Correlation();
      if !AcceptBatch(sequence) {
        return;
      }
      if sequence !in pending {
        pending := pending[sequence := NEW_BATCH];
      }
      var batch := pending[sequence];
      if batch.received == 0 {
        batch := batch.(firstObserved := event.observed);
      }
      batch := batch.(lastObserved := Max(batch.lastObserved, event.observed), received := batch.received + 1);
      batch := batch.(byKind := batch.byKind.Put(event.kind, batch.byKind.At(event.kind) + 1),
                      events := batch.events + [event]);
      pending := pending[sequence := batch];
      assert batch == WithEvent(core.Lookup(sequence).GetOr(NEW_BATCH), event);
      assert Correlation() == core.Store(sequence, Some(batch));
      StoreTwice(core, sequence, Some(batch), Advance(cfg, batch).pending);
      EmitOrFinish(sequence);
    }

    method AddMarker(sequence: int, timestamp: int, observed: int)
      modifies this`pending, this`eventWindow, this`batchWindow, this`eventGlobalByKind, this`batchGlobal,
               this`negativeWindow, this`negativeTotal, this`missingWindow, this`missingTotal,
               this`deliveryWindow, this`deliveryTotal
      ensures Correlation() == Process(cfg, old(Correlation()), Item(sequence, Marker(timestamp, observed)))
    {
      hide Core.Record, Advance, Delivery.Plus;
      ghost var core := Correlation();
      if !AcceptBatch(sequence) {
        return;
      }
      if sequence !in pending {
        pending := pending[sequence := NEW_BATCH];
      }
      var batch := pending[sequence];
      ghost var published := if batch.timestamp.None? then cfg.expected else NONE_OF_EACH;
      if batch.timestamp.None? {
        batch := batch.(timestamp := Some(timestamp));
        PublishedCounted(deliveryWindow, cfg.expected);
        PublishedCounted(deliveryTotal, cfg.expected);
        deliveryWindow := deliveryWindow.(published := PlusCounts(deliveryWindow.published, cfg.expected));
        deliveryTotal := deliveryTotal.(published := PlusCounts(deliveryTotal.published, cfg.expected));
      } else {
        DeliveryPlus(deliveryWindow, NO_DELIVERY, NO_DELIVERY);
        DeliveryPlus(deliveryTotal, NO_DELIVERY, NO_DELIVERY);
      }
      if batch.firstObserved == 0 {
        batch := batch.(firstObserved := observed);
      }
      batch := batch.(lastObserved := Max(batch.lastObserved, observed));
      pending := pending[sequence := batch];

      ghost var r := Advance(cfg, batch);
      ghost var mark := EMPTY_BOOK.(delivery := NO_DELIVERY.(published := published));
      assert batch == WithMarker(core.Lookup(sequence).GetOr(NEW_BATCH), timestamp, observed);
      RecordCounters(core.Store(sequence, Some(batch)), 0, 0, mark.delivery);
      assert Correlation() == core.Store(sequence, Some(batch)).Record(mark);
      MarkThenAdvance(core, sequence, batch, r, mark);
      EmitOrFinish(sequence);
    }

    method NoteProfiles(events: seq<WireEvent>)
      modifies this`profileSymbolsReceived
      ensures profileSymbolsReceived == old(profileSymbolsReceived) + ProfilesIn(events)
    {
      for i := 0 to |events|
        invariant profileSymbolsReceived == old(profileSymbolsReceived) + ProfilesIn(events[..i])
      {
        assert events[..i + 1] == events[..i] + [events[i]];
        if events[i].ProfileEvent? {
          profileSymbolsReceived := profileSymbolsReceived + {events[i].symbol};
        }
      }
      assert events[..|events|] == events;
    }

    /** Before measurement, every sequence seen is excluded from it. */
    method ExcludeSequences(events: seq<WireEvent>)
      modifies this`preMeasurementSequences
      ensures preMeasurementSequences == old(preMeasurementSequences) + SequencesIn(cfg, events)
      ensures Correlation() == old(Correlation()).(excluded := old(preMeasurementSequences) + SequencesIn(cfg, events))
    {
      hide MarkerTimestamp, Describe, SequencesIn;
      NothingRevealed(cfg);
      for i := 0 to |events|
        invariant preMeasurementSequences == old(preMeasurementSequences) + SequencesIn(cfg, events[..i])
      {
        assert events[..i + 1] == events[..i] + [events[i]];
        RevealedNext(cfg, events[..i], events[i]);
        var event := events[i];
        if event.TextMessage? && MarkerTimestamp(event.text).Some? {
          preMeasurementSequences := preMeasurementSequences + {event.sequence};
        } else {
          var description := Describe(event, cfg.maxSequence);
          if description.Some? {
            preMeasurementSequences := preMeasurementSequences + {description.value.sequence};
          }
        }
      }
      assert events[..|events|] == events;
    }

    /** Delivers one event of a measured callback to the source-time filters and to correlation. */
    method Correlate(event: WireEvent, observed: int)
      modifies this`pending, this`eventWindow, this`batchWindow, this`eventGlobalByKind, this`batchGlobal,
               this`negativeWindow, this`negativeTotal, this`missingWindow, this`missingTotal,
               this`deliveryWindow, this`deliveryTotal, sourceTimeMethods
      ensures Correlation() == ProcessOption(cfg, old(Correlation()), ItemOf(cfg, event, observed))
      ensures sourceTimeMethods.Contents() == if sourceTimeMeasuring
        then ObserveTime(cfg, old(sourceTimeMethods.Contents()), event, observed)
        else old(sourceTimeMethods.Contents())
    {
      hide Process, SourceTime.Observed;
      if event.TextMessage? {
        var timestamp := MarkerTimestamp(event.text);
        if timestamp.Some? {
          AddMarker(event.sequence, timestamp.value, observed);
        }
        return;
      }
      var description := Describe(event, cfg.maxSequence);
      if description.None? {
        return;
      }
      var d := description.value;
      if sourceTimeMeasuring && d.sourceMs.Some? {
        sourceTimeMethods.Observe(d.kind, d.symbol, d.sourceMs.value, observed);
      }
      AddEvent(d.sequence, PendingEvent(observed, d.sourceMs, d.kind, d.symbol));
    }

    method CorrelateAll(events: seq<WireEvent>, observed: int)
      modifies this`pending, this`eventWindow, this`batchWindow, this`eventGlobalByKind, this`batchGlobal,
               this`negativeWindow, this`negativeTotal, this`missingWindow, this`missingTotal,
               this`deliveryWindow, this`deliveryTotal, sourceTimeMethods
      ensures Correlation() == ProcessAll(cfg, old(Correlation()), ItemsOf(cfg, events, observed))
      ensures sourceTimeMethods.Contents() == if sourceTimeMeasuring
        then ObserveTimes(cfg, old(sourceTimeMethods.Contents()), events, observed)
        else old(sourceTimeMethods.Contents())
    {
      hide Process, ObserveTime, ItemOf;
      for i := 0 to |events|
        invariant Correlation() == ProcessAll(cfg, old(Correlation()), ItemsOf(cfg, events[..i], observed))
        invariant sourceTimeMethods.Contents() == if sourceTimeMeasuring
          then ObserveTimes(cfg, old(sourceTimeMethods.Contents()), events[..i], observed)
          else old(sourceTimeMethods.Contents())
      {
        assert events[..i + 1][..i] == events[..i];
        ProcessOneMore(cfg, old(Correlation()), ItemsOf(cfg, events[..i], observed), ItemOf(cfg, events[i], observed));
        Correlate(events[i], observed);
      }
      assert events[..|events|] == events;
    }

    method CountCallback()
      modifies this`activity, this`callbackWindow, this`callbackTotal
      ensures activity == old(activity) + 1
      ensures callbackWindow == old(callbackWindow).(callbacks := old(callbackWindow.callbacks) + 1)
      ensures callbackTotal == old(callbackTotal).(callbacks := old(callbackTotal.callbacks) + 1)
    {
      activity := activity + 1;
      callbackWindow := callbackWindow.(callbacks := callbackWindow.callbacks + 1);
      callbackTotal := callbackTotal.(callbacks := callbackTotal.callbacks + 1);
    }

    method MeasureCallback(size: nat, duration: int)
      modifies this`callbackWindow, this`callbackTotal
      ensures callbackWindow == old(callbackWindow).Plus(CallbackStats(0, [size], [duration]))
      ensures callbackTotal == old(callbackTotal).Plus(CallbackStats(0, [size], [duration]))
    {
      callbackWindow := callbackWindow.(sizes := callbackWindow.sizes + [size],
                                        durations := callbackWindow.durations + [duration]);
      callbackTotal := callbackTotal.(sizes := callbackTotal.sizes + [size],
                                      durations := callbackTotal.durations + [duration]);
    }

    /** One listener notification, with the clock readings taken inside it. */
    method HandleCallback(events: seq<WireEvent>, market: bool, observed: int, duration: int)
      modifies this`preMeasurementSequences, this`pending, this`eventWindow, this`batchWindow, this`eventGlobalByKind,
               this`batchGlobal, this`negativeWindow, this`negativeTotal, this`missingWindow, this`missingTotal,
               this`deliveryWindow, this`deliveryTotal, this`activity, this`callbackWindow, this`callbackTotal,
               this`profileSymbolsReceived, sourceTimeMethods
      ensures Contents() == Handle(cfg, old(Contents()), Callback(events, market, observed, duration))
    {
      hide ProcessAll, ItemsOf, ObserveTimes, SequencesIn, ProfilesIn, CallbackStats.Plus;
      NoteProfiles(events);
      if measuring {
        MeasureEvents(events, market, observed, duration);
      } else {
        ExcludeSequences(events);
      }
    }

    /** While measuring, a notification is correlated and counted. */
    method MeasureEvents(events: seq<WireEvent>, market: bool, observed: int, duration: int)
      modifies this`pending, this`eventWindow, this`batchWindow, this`eventGlobalByKind, this`batchGlobal,
               this`negativeWindow, this`negativeTotal, this`missingWindow, this`missingTotal,
               this`deliveryWindow, this`deliveryTotal, this`activity, this`callbackWindow, this`callbackTotal,
               sourceTimeMethods
      ensures
        var stats := CallbackStats(1, if market then [|events|] else [], if market then [duration] else []);
        Contents() == old(Contents()).(
          activity := old(activity) + 1,
          core := ProcessAll(cfg, old(Correlation()), ItemsOf(cfg, events, observed)),
          sourceTimes := if sourceTimeMeasuring
                         then ObserveTimes(cfg, old(sourceTimeMethods.Contents()), events, observed)
                         else old(sourceTimeMethods.Contents()),
          callbackWindow := old(callbackWindow).Plus(stats), callbackTotal := old(callbackTotal).Plus(stats))
    {
      hide ProcessAll, ItemsOf, ObserveTimes, CallbackStats.Plus;
      CorrelateAll(events, observed);
      CountStats(events, market, duration);
    }

    method CountStats(events: seq<WireEvent>, market: bool, duration: int)
      modifies this`activity, this`callbackWindow, this`callbackTotal
      ensures activity == old(activity) + 1
      ensures
        var stats := CallbackStats(1, if market then [|events|] else [], if market then [duration] else []);
        callbackWindow == old(callbackWindow).Plus(stats) && callbackTotal == old(callbackTotal).Plus(stats)
    {
      CountCallback();
      StatsAdded(old(callbackWindow), |events|, duration);
      StatsAdded(old(callbackTotal), |events|, duration);
      if market {
        MeasureCallback(|events|, duration);
      }
    }

    method ClearWindow()
      modifies this`eventWindow, this`batchWindow, this`negativeWindow, this`missingWindow, this`deliveryWindow,
               this`callbackWindow
      ensures Correlation() == old(Correlation()).(window := EMPTY_BOOK) && callbackWindow == NO_CALLBACKS
    {
      eventWindow, batchWindow, callbackWindow := [], [], NO_CALLBACKS;
      negativeWindow, missingWindow := 0, 0;
      deliveryWindow := NO_DELIVERY;
    }

    /** Drops the current window and everything pending, and starts accepting batches. */
    method BeginMeasuring()
      modifies this`eventWindow, this`batchWindow, this`negativeWindow, this`missingWindow, this`deliveryWindow,
               this`callbackWindow, this`pending, this`acceptingNewBatches, this`sourceTimeMeasuring, this`measuring,
               sourceTimeMethods
      ensures Contents() == Begin(old(Contents()))
    {
      ClearWindow();
      pending := map[];
      sourceTimeMethods.Reset();
      acceptingNewBatches, sourceTimeMeasuring, measuring := true, true, true;
    }

    method EndMeasuring()
      modifies this`acceptingNewBatches, this`sourceTimeMeasuring
      ensures Contents() == End(old(Contents()))
    {
      acceptingNewBatches, sourceTimeMeasuring := false, false;
    }

    /** Walks the pending batches in key order and finishes the expired ones. */
    method FinishExpired(cutoff: int, expireAll: bool)
      modifies this`pending, this`eventWindow, this`batchWindow, this`eventGlobalByKind, this`batchGlobal,
               this`negativeWindow, this`negativeTotal, this`missingWindow, this`missingTotal,
               this`deliveryWindow, this`deliveryTotal
      ensures Correlation() == Sweep(cfg, old(Correlation()), Ascending(old(pending.Keys)), cutoff, expireAll)
    {
      hide FinishAt;
      var remaining := pending.Keys;
      while remaining != {}
        invariant Sweep(cfg, Correlation(), Ascending(remaining), cutoff, expireAll)
               == Sweep(cfg, old(Correlation()), Ascending(old(pending.Keys)), cutoff, expireAll)
        decreases remaining
      {
        var sequence := Least(remaining);
        assert Ascending(remaining)[1..] == Ascending(remaining - {sequence});
        if sequence in pending {
          var batch := pending[sequence];
          if expireAll || batch.timestamp.GetOr(batch.firstObserved) < cutoff {
            Finish(sequence);
          }
        }
        remaining := remaining - {sequence};
      }
    }

    /** Hands out the current window, after finishing the expired batches, and starts the next one. */
    method ExtractWindow(now: int, expireAll: bool) returns (result: Window)
      modifies this`pending, this`eventWindow, this`batchWindow, this`eventGlobalByKind, this`batchGlobal,
               this`negativeWindow, this`negativeTotal, this`missingWindow, this`missingTotal,
               this`deliveryWindow, this`deliveryTotal, this`callbackWindow
      ensures Contents() == Reset(Swept(cfg, old(Contents()), now, expireAll))
      ensures result == WindowOf(Swept(cfg, old(Contents()), now, expireAll))
    {
      hide Sweep, Ascending;
      FinishExpired(now - cfg.timeoutMs * NANOS_PER_MILLI, expireAll);
      result := Window(Book(eventWindow, batchWindow, negativeWindow, missingWindow, deliveryWindow),
                       callbackWindow, |pending|);
      ClearWindow();
    }
  }

  lemma UncorrelatedCounted(d: Delivery, n: nat)
    ensures d.Plus(NO_DELIVERY.(uncorrelated := n)) == d.(uncorrelated := d.uncorrelated + n)
  {
  }

  lemma PublishedCounted(d: Delivery, c: Counts)
    ensures d.Plus(NO_DELIVERY.(published := c)) == d.(published := PlusCounts(d.published, c))
  {
  }

  lemma MarkThenAdvance(core: Core, sequence: int, batch: Batch, r: Reaction, mark: Book)
    ensures core.Store(sequence, Some(batch)).Record(mark).Store(sequence, r.pending).Record(r.book)
         == core.Store(sequence, r.pending).Record(mark.Plus(r.book))
  {
    hide Core.Record, Core.Store;
    RecordAfterStore(core, sequence, Some(batch), mark);
    StoreTwice(core.Record(mark), sequence, Some(batch), r.pending);
    RecordAfterStore(core, sequence, r.pending, mark);
    RecordTwice(core.Store(sequence, r.pending), mark, r.book);
  }

  function ProcessOption(cfg: Config, core: Core, item: Option<Item>): Core {
    if item.Some? then Process(cfg, core, item.value) else core
  }

  lemma ProcessOneMore(cfg: Config, core: Core, items: seq<Item>, item: Option<Item>)
    ensures ProcessAll(cfg, core, items + if item.Some? then [item.value] else [])
         == ProcessOption(cfg, ProcessAll(cfg, core, items), item)
  {
    if item.Some? {
      assert (items + [item.value])[..|items|] == items;
    } else {
      assert items + [] == items;
    }
  }

  lemma StatsAdded(c: CallbackStats, size: nat, duration: int)
    ensures c.Plus(CallbackStats(1, [], [])) == c.(callbacks := c.callbacks + 1)
    ensures c.Plus(CallbackStats(1, [size], [duration]))
         == c.(callbacks := c.callbacks + 1).Plus(CallbackStats(0, [size], [duration]))
  {
  }
}
