/** What one publication sequence contributes, as a closed form of the arrivals it got, whatever their order. */
module CollectorClosedForm {
  import opened Common
  import opened Events
  import opened CollectorModel
  import opened CollectorAlgebra
  import opened Tallies
  import opened CollectorOrder

  /** Order-free facts about arrivals, given the publication time. */
  datatype Facts = Facts(counts: Counts, events: Bags, negative: nat, last: int) {
    function Plus(f: Facts): Facts {
      Facts(PlusCounts(counts, f.counts), JoinBags(events, f.events), negative + f.negative, Max(last, f.last))
    }
  }

  const NO_FACTS := Facts(NONE_OF_EACH, NO_BAGS, 0, 0)

  function FactsOfEvent(e: PendingEvent, publishTime: int): Facts {
    var delta := e.observed - publishTime;
    Facts(NONE_OF_EACH.Put(e.kind, 1),
          if delta >= 0 then NO_BAGS.Put(e.kind, multiset{delta}) else NO_BAGS,
          if delta < 0 then 1 else 0,
          Max(0, e.observed))
  }

  function FactsOf(a: Arrival, publishTime: int): Facts {
    match a
    case Event(e) => FactsOfEvent(e, publishTime)
    case Marker(_, observed) => NO_FACTS.(last := Max(0, observed))
  }

  function AllFacts(view: seq<Arrival>, publishTime: int): Facts {
    if view == [] then NO_FACTS
    else AllFacts(view[..|view| - 1], publishTime).Plus(FactsOf(view[|view| - 1], publishTime))
  }

  function MarkerCount(view: seq<Arrival>): nat {
    if view == [] then 0 else MarkerCount(view[..|view| - 1]) + if view[|view| - 1].Marker? then 1 else 0
  }

  /** The timestamp of the first marker. */
  function MarkerTime(view: seq<Arrival>): Option<int> {
    if view == [] then None else
    var before := MarkerTime(view[..|view| - 1]);
    if before.Some? then before
    else if view[|view| - 1].Marker? then Some(view[|view| - 1].timestamp) else None
  }

  predicate AtMost(a: Counts, b: Counts) {
    a.quote <= b.quote && a.trade <= b.trade && a.tradeEth <= b.tradeEth && a.summary <= b.summary
  }

  /** Whether the first marker of any order decides: without one, never complete, or complete exactly once. */
  predicate Tame(cfg: Config, view: seq<Arrival>) {
    var counts := AllFacts(view, 0).counts;
    || MarkerCount(view) == 0
    || !AtMost(cfg.expected, counts)
    || (MarkerCount(view) == 1 && counts == cfg.expected)
  }

  /** The contribution of a sequence: unmarked events stay uncorrelated, marked ones are priced and compared. */
  function ClosedForm(cfg: Config, view: seq<Arrival>): Tally {
    match MarkerTime(view)
    case None =>
      if view == [] then NO_TALLY
      else NO_TALLY.(missing := if cfg.allowConflation then 0 else 1,
                     delivery := NO_DELIVERY.(uncorrelated := |view|))
    case Some(publishTime) => MarkedForm(cfg, AllFacts(view, publishTime), publishTime)
  }

  function MarkedForm(cfg: Config, f: Facts, publishTime: int): Tally {
    var received := SumCounts(f.counts);
    var complete := f.counts == cfg.expected;
    Tally(f.events,
          if received > 0 && f.last >= publishTime then multiset{f.last - publishTime} else multiset{},
          f.negative + (if received > 0 && f.last < publishTime then 1 else 0),
          if complete || cfg.allowConflation then 0 else 1,
          NO_DELIVERY.(published := cfg.expected, delivered := f.counts,
                       deficit := Shortfalls(cfg.expected, f.counts), excess := Shortfalls(f.counts, cfg.expected),
                       full := if complete then 1 else 0,
                       empty := if !complete && received == 0 then 1 else 0,
                       partial := if !complete && received > 0 then 1 else 0))
  }

  // The facts do not depend on the order of arrivals.

  lemma FactsPlus(a: Facts, b: Facts, c: Facts)
    ensures a.Plus(b).Plus(c) == a.Plus(b.Plus(c)) && a.Plus(b) == b.Plus(a)
  {
    BagsPlus(a.events, b.events, c.events);
    hide JoinBags;
  }

  lemma {:induction false} LastNonNegative(view: seq<Arrival>, publishTime: int)
    ensures AllFacts(view, publishTime).last >= 0
  {
    if view != [] {
      LastNonNegative(view[..|view| - 1], publishTime);
    }
  }

  lemma FactsNothing(f: Facts)
    requires f.last >= 0
    ensures f.Plus(NO_FACTS) == f
  {
    BagsPlus(f.events, NO_BAGS, NO_BAGS);
    hide JoinBags;
  }

  lemma {:induction false} FactsAppend(v: seq<Arrival>, w: seq<Arrival>, publishTime: int)
    ensures AllFacts(v + w, publishTime) == AllFacts(v, publishTime).Plus(AllFacts(w, publishTime))
    ensures MarkerCount(v + w) == MarkerCount(v) + MarkerCount(w)
  {
    hide Facts.Plus, FactsOf;
    if w == [] {
      assert v + w == v;
      LastNonNegative(v, publishTime);
      FactsNothing(AllFacts(v, publishTime));
    } else {
      var front := w[..|w| - 1];
      FactsAppend(v, front, publishTime);
      assert (v + w)[..|v + w| - 1] == v + front;
      FactsPlus(AllFacts(v, publishTime), AllFacts(front, publishTime), FactsOf(w[|w| - 1], publishTime));
    }
  }

  lemma OneNonNegative(a: Arrival, publishTime: int)
    ensures FactsOf(a, publishTime).last >= 0
  {
  }

  lemma FactsOne(a: Arrival, publishTime: int)
    ensures AllFacts([a], publishTime) == FactsOf(a, publishTime)
    ensures MarkerCount([a]) == if a.Marker? then 1 else 0
  {
    hide Facts.Plus, FactsOf;
    assert [a][..0] == [];
    OneNonNegative(a, publishTime);
    FactsPlus(NO_FACTS, FactsOf(a, publishTime), NO_FACTS);
    FactsNothing(FactsOf(a, publishTime));
  }

  /** Taking an arrival out of the middle. */
  lemma FactsRemove(v: seq<Arrival>, i: nat, publishTime: int)
    requires i < |v|
    ensures AllFacts(v, publishTime) == AllFacts(v[..i] + v[i + 1..], publishTime).Plus(FactsOf(v[i], publishTime))
    ensures MarkerCount(v) == MarkerCount(v[..i] + v[i + 1..]) + if v[i].Marker? then 1 else 0
  {
    hide Facts.Plus, FactsOf, AllFacts, MarkerCount;
    var a, b, x := v[..i], v[i + 1..], v[i];
    assert v == a + [x] + b;
    FactsAppend(a + [x], b, publishTime);
    FactsAppend(a, [x], publishTime);
    FactsAppend(a, b, publishTime);
    FactsOne(x, publishTime);
    var fa, fb, fx := AllFacts(a, publishTime), AllFacts(b, publishTime), FactsOf(x, publishTime);
    FactsPlus(fa, fx, fb);
    FactsPlus(fx, fb, fa);
    FactsPlus(fa, fb, fx);
  }

  lemma {:induction false} FactsPermute(v: seq<Arrival>, w: seq<Arrival>, publishTime: int)
    requires multiset(v) == multiset(w)
    ensures AllFacts(v, publishTime) == AllFacts(w, publishTime) && MarkerCount(v) == MarkerCount(w)
    decreases |v|
  {
    hide Facts.Plus, FactsOf;
    assert |v| == |multiset(v)| == |multiset(w)| == |w|;
    if v != [] {
      var front, x := v[..|v| - 1], v[|v| - 1];
      assert v == front + [x];
      assert x in multiset(w);
      var i :| 0 <= i < |w| && w[i] == x;
      var rest := w[..i] + w[i + 1..];
      RemoveOne(v, w, i);
      FactsPermute(front, rest, publishTime);
      FactsRemove(w, i, publishTime);
    }
  }

  lemma RemoveOne(v: seq<Arrival>, w: seq<Arrival>, i: nat)
    requires v != [] && i < |w| && w[i] == v[|v| - 1] && multiset(v) == multiset(w)
    ensures multiset(v[..|v| - 1]) == multiset(w[..i] + w[i + 1..])
  {
    var x := w[i];
    assert v == v[..|v| - 1] + [x];
    assert w == w[..i] + [x] + w[i + 1..];
    assert multiset(w) == multiset(w[..i]) + multiset{x} + multiset(w[i + 1..]);
    assert multiset(v[..|v| - 1]) == multiset(v) - multiset{x};
  }

  lemma {:induction false} MarkerTimeMember(v: seq<Arrival>)
    ensures MarkerTime(v).None? <==> MarkerCount(v) == 0
    ensures MarkerTime(v).Some? ==> exists i :: 0 <= i < |v| && v[i].Marker? && v[i].timestamp == MarkerTime(v).value
  {
    if v != [] {
      var front := v[..|v| - 1];
      MarkerTimeMember(front);
      if MarkerTime(front).Some? {
        var i :| 0 <= i < |front| && front[i].Marker? && front[i].timestamp == MarkerTime(front).value;
        assert v[i] == front[i];
      } else if v[|v| - 1].Marker? {
        assert v[|v| - 1].timestamp == MarkerTime(v).value;
      }
    }
  }

  lemma {:induction false} OneMarkerTime(v: seq<Arrival>, i: nat)
    requires i < |v| && v[i].Marker? && MarkerCount(v) <= 1
    ensures MarkerTime(v) == Some(v[i].timestamp)
  {
    var front := v[..|v| - 1];
    MarkerTimeMember(front);
    if i < |front| {
      assert front[i] == v[i];
      OneMarkerTime(front, i);
    }
  }

  /** For tame arrivals the closed form depends only on which arrivals there were. */
  lemma ClosedFormPermute(cfg: Config, v: seq<Arrival>, w: seq<Arrival>)
    requires multiset(v) == multiset(w) && MarkerCount(v) <= 1
    ensures ClosedForm(cfg, v) == ClosedForm(cfg, w)
  {
    hide MarkedForm, AllFacts, MarkerCount, MarkerTime;
    assert |v| == |multiset(v)| == |multiset(w)| == |w|;
    FactsPermute(v, w, 0);
    MarkerTimeMember(v);
    MarkerTimeMember(w);
    if MarkerTime(v).Some? {
      var i :| 0 <= i < |v| && v[i].Marker? && v[i].timestamp == MarkerTime(v).value;
      assert v[i] in multiset(w);
      var j :| 0 <= j < |w| && w[j] == v[i];
      OneMarkerTime(w, j);
      FactsPermute(v, w, MarkerTime(v).value);
    }
  }

  // The collector computes the closed form.

  /** A marked, incomplete sequence has announced its publication and priced what it received. */
  function Open(cfg: Config, f: Facts): Tally {
    NO_TALLY.(events := f.events, negative := f.negative, delivery := NO_DELIVERY.(published := cfg.expected))
  }

  function PricedTally(f: Facts): Tally {
    NO_TALLY.(events := f.events, negative := f.negative)
  }

  function SettleTally(cfg: Config, f: Facts, publishTime: int): Tally {
    var m := MarkedForm(cfg, f, publishTime);
    m.(events := NO_BAGS, negative := m.negative - f.negative, delivery := m.delivery.(published := NONE_OF_EACH))
  }

  lemma OpenPlusSettle(cfg: Config, f: Facts, publishTime: int)
    ensures Open(cfg, f).Plus(SettleTally(cfg, f, publishTime)) == MarkedForm(cfg, f, publishTime)
  {
    hide JoinBags, Shortfalls, SumCounts;
    BagsPlus(f.events, NO_BAGS, NO_BAGS);
  }

  lemma OpenSteps(cfg: Config, f: Facts, g: Facts)
    ensures NO_TALLY.(delivery := NO_DELIVERY.(published := cfg.expected)).Plus(PricedTally(f)) == Open(cfg, f)
    ensures Open(cfg, f).Plus(PricedTally(g)) == Open(cfg, f.Plus(g))
    ensures PricedTally(f).Plus(PricedTally(g)) == PricedTally(f.Plus(g))
  {
    hide JoinBags, Delivery.Plus;
    BagsPlus(f.events, NO_BAGS, NO_BAGS);
    BagsPlus(NO_BAGS, f.events, NO_BAGS);
    var p := NO_DELIVERY.(published := cfg.expected);
    DeliveryPlus(p, NO_DELIVERY, NO_DELIVERY);
    DeliveryPlus(NO_DELIVERY, NO_DELIVERY, NO_DELIVERY);
  }

  lemma PricedOne(e: PendingEvent, publishTime: int)
    ensures TallyOfBook(Priced(e, publishTime)) == PricedTally(FactsOfEvent(e, publishTime))
  {
    hide LatenciesByKind;
    var delta := e.observed - publishTime;
    if delta < 0 {
      DigestEmpty();
    } else {
      DigestSample(Sample(e.observed, publishTime, delta, e.kind, e.symbol));
    }
  }

  /** Retained events, in arrival order. */
  function EventsOf(view: seq<Arrival>): seq<PendingEvent> {
    if view == [] then [] else
    var last := view[|view| - 1];
    EventsOf(view[..|view| - 1]) + if last.Event? then [last.event] else []
  }

  lemma {:induction false} PricedEvents(view: seq<Arrival>, publishTime: int)
    requires MarkerCount(view) == 0
    ensures TallyOfBook(PricedAll(EventsOf(view), publishTime)) == PricedTally(AllFacts(view, publishTime))
    ensures |EventsOf(view)| == |view|
  {
    hide Tally.Plus, Priced, TallyOfBook, Facts.Plus, FactsOfEvent, Book.Plus, PricedTally;
    if view == [] {
      NothingPriced(publishTime);
    } else {
      var front, e := view[..|view| - 1], view[|view| - 1].event;
      PricedEvents(front, publishTime);
      var events := EventsOf(front);
      assert (events + [e])[..|events|] == events;
      TallyOfBooks(PricedAll(events, publishTime), Priced(e, publishTime));
      PricedOne(e, publishTime);
      OpenSteps(Config(NONE_OF_EACH, 0, false, 0), AllFacts(front, publishTime), FactsOfEvent(e, publishTime));
    }
  }

  lemma NothingPriced(publishTime: int)
    ensures TallyOfBook(PricedAll([], publishTime)) == PricedTally(NO_FACTS) == NO_TALLY
  {
    hide TallyOfBook;
    TallyOfEmpty();
  }

  /** Counts and observation bounds do not depend on the publication time. */
  lemma {:induction false} CountsTimeless(view: seq<Arrival>, s: int, t: int)
    ensures AllFacts(view, s).counts == AllFacts(view, t).counts && AllFacts(view, s).last == AllFacts(view, t).last
  {
    if view != [] {
      hide PlusCounts, JoinBags;
      CountsTimeless(view[..|view| - 1], s, t);
    }
  }

  /** A batch that has seen these arrivals. */
  ghost predicate Mirrors(b: Batch, f: Facts) {
    b.byKind == f.counts && b.received == SumCounts(f.counts) && b.lastObserved == f.last
  }

  lemma SettleBookTally(cfg: Config, b: Batch, f: Facts)
    requires b.timestamp.Some? && Mirrors(b, f)
    ensures TallyOfBook(SettleBook(cfg, b)) == SettleTally(cfg, f, b.timestamp.value)
  {
    hide TallyOfBook, BatchBook, Settlement, MarkedForm;
    var counts := Book([], [], 0, if b.byKind != cfg.expected && !cfg.allowConflation then 1 else 0, Settlement(cfg, b));
    TallyOfBooks(counts, BatchBook(b));
    CounterTally(counts.missing, counts.delivery);
    BatchTally(b);
    SettleParts(cfg, b, f);
  }

  lemma CounterTally(missing: nat, delivery: Delivery)
    ensures TallyOfBook(Book([], [], 0, missing, delivery)) == NO_TALLY.(missing := missing, delivery := delivery)
  {
    hide LatenciesByKind;
    DigestEmpty();
  }

  lemma BatchTally(b: Batch)
    requires b.timestamp.Some?
    ensures
      var delta := b.lastObserved - b.timestamp.value;
      TallyOfBook(BatchBook(b)) ==
      NO_TALLY.(batches := if b.received > 0 && delta >= 0 then multiset{delta} else multiset{},
                negative := if b.received > 0 && delta < 0 then 1 else 0)
  {
    hide LatenciesByKind;
    DigestEmpty();
    var delta := b.lastObserved - b.timestamp.value;
    var s := Sample(b.lastObserved, b.timestamp.value, delta, Quote, "");
    assert Latencies([s]) == [s.latency];
  }

  lemma SettleParts(cfg: Config, b: Batch, f: Facts)
    requires b.timestamp.Some? && Mirrors(b, f)
    ensures
      var delta := b.lastObserved - b.timestamp.value;
      NO_TALLY.(missing := if b.byKind != cfg.expected && !cfg.allowConflation then 1 else 0, delivery := Settlement(cfg, b))
      .Plus(NO_TALLY.(batches := if b.received > 0 && delta >= 0 then multiset{delta} else multiset{},
                      negative := if b.received > 0 && delta < 0 then 1 else 0))
      == SettleTally(cfg, f, b.timestamp.value)
  {
    hide Shortfalls, SumCounts, JoinBags, Delivery.Plus;
    BagsPlus(NO_BAGS, NO_BAGS, NO_BAGS);
    DeliveryPlus(Settlement(cfg, b), NO_DELIVERY, NO_DELIVERY);
  }

  lemma FinishTallyOpen(cfg: Config, b: Batch, f: Facts)
    requires b.timestamp.Some? && b.events == [] && Mirrors(b, f)
    ensures TallyOfBook(FinishBook(cfg, b)) == SettleTally(cfg, f, b.timestamp.value)
  {
    hide TallyOfBook, SettleBook, MarkedForm;
    SettleBookTally(cfg, b, f);
    PricedNone(b.timestamp.value);
    BookPlus(SettleBook(cfg, b), EMPTY_BOOK, EMPTY_BOOK);
    assert b.(events := []) == b;
  }

  /** Advancing a marked batch whose retained events are worth `added`. */
  lemma AdvanceTally(cfg: Config, b: Batch, f: Facts, added: Facts)
    requires b.timestamp.Some? && Mirrors(b, f)
    requires TallyOfBook(PricedAll(b.events, b.timestamp.value)) == PricedTally(added)
    ensures
      var r := Advance(cfg, b);
      if f.counts == cfg.expected then
        r.pending == None &&
        TallyOfBook(r.book) == PricedTally(added).Plus(SettleTally(cfg, f, b.timestamp.value))
      else
        r.pending == Some(b.(events := [])) && TallyOfBook(r.book) == PricedTally(added)
  {
    hide TallyOfBook, FinishBook, SettleTally, Book.Plus, Tally.Plus, PricedTally;
    if f.counts == cfg.expected {
      FinishTallyOpen(cfg, Emitted(b), f);
      TallyOfBooks(EmitBook(b), FinishBook(cfg, Emitted(b)));
    }
  }

  /** Where a tame sequence stands after the arrivals of `view`. */
  ghost predicate Tracks(cfg: Config, view: seq<Arrival>, r: Reaction) {
    match MarkerTime(view)
    case None =>
      && r.book == EMPTY_BOOK
      && (if view == [] then r.pending == None
          else r.pending.Some? && r.pending.value.timestamp == None && r.pending.value.events == EventsOf(view)
               && Mirrors(r.pending.value, AllFacts(view, 0)))
    case Some(publishTime) =>
      var f := AllFacts(view, publishTime);
      if f.counts == cfg.expected then
        r.pending == None && TallyOfBook(r.book) == MarkedForm(cfg, f, publishTime)
      else
        && r.pending.Some? && r.pending.value.timestamp == Some(publishTime) && r.pending.value.events == []
        && Mirrors(r.pending.value, f) && TallyOfBook(r.book) == Open(cfg, f)
  }

  lemma MirrorsEvent(b: Batch, f: Facts, e: PendingEvent, publishTime: int)
    requires Mirrors(b, f) && f.last >= 0
    ensures Mirrors(WithEvent(b, e), f.Plus(FactsOfEvent(e, publishTime)))
  {
    hide JoinBags;
  }

  lemma MirrorsMarker(b: Batch, f: Facts, timestamp: int, observed: int, publishTime: int)
    requires Mirrors(b, f) && f.last >= 0
    ensures Mirrors(WithMarker(b, timestamp, observed), f.Plus(FactsOf(Marker(timestamp, observed), publishTime)))
  {
    hide JoinBags;
  }

  lemma MarkerAddsNothing(f: Facts, timestamp: int, observed: int, publishTime: int)
    ensures PricedTally(f.Plus(FactsOf(Marker(timestamp, observed), publishTime))) == PricedTally(f)
  {
    hide PlusCounts;
    BagsPlus(f.events, NO_BAGS, NO_BAGS);
    hide JoinBags;
  }

  lemma AdvanceUnmarked(cfg: Config, b: Batch)
    requires b.timestamp.None?
    ensures Advance(cfg, b) == Reaction(Some(b), EMPTY_BOOK)
  {
  }

  lemma MirrorsCleared(b: Batch, f: Facts)
    requires Mirrors(b, f)
    ensures Mirrors(b.(events := []), f)
  {
  }

  /** An event for a sequence whose marker has not come stays retained. */
  lemma TracksUnmarkedEvent(cfg: Config, view: seq<Arrival>, r: Reaction, e: PendingEvent)
    requires Tracks(cfg, view, r) && MarkerTime(view).None?
    ensures
      var q := React(cfg, r.pending, Event(e));
      Tracks(cfg, view + [Event(e)], Reaction(q.pending, r.book.Plus(q.book)))
  {
    hide AllFacts, Facts.Plus, FactsOfEvent, Mirrors, Advance, Book.Plus, MarkedForm, Open, TallyOfBook, MarkerTime;
    var next := view + [Event(e)];
    assert next[..|view|] == view;
    AdvanceUnmarked(cfg, WithEvent(r.pending.GetOr(NEW_BATCH), e));
    AppendFacts(view, Event(e), 0);
    LastNonNegative(view, 0);
    EmptyFacts();
    MirrorsEvent(r.pending.GetOr(NEW_BATCH), AllFacts(view, 0), e, 0);
    BookPlus(EMPTY_BOOK, EMPTY_BOOK, EMPTY_BOOK);
    assert view == [] ==> EventsOf(view) == [];
  }

  lemma EmptyFacts()
    ensures AllFacts([], 0) == NO_FACTS && Mirrors(NEW_BATCH, NO_FACTS)
  {
  }

  lemma AppendFacts(view: seq<Arrival>, a: Arrival, publishTime: int)
    ensures AllFacts(view + [a], publishTime) == AllFacts(view, publishTime).Plus(FactsOf(a, publishTime))
    ensures MarkerTime(view + [a]) == if MarkerTime(view).Some? then MarkerTime(view)
                                      else if a.Marker? then Some(a.timestamp) else None
  {
    assert (view + [a])[..|view|] == view;
  }

  /** An event for a marked, incomplete sequence is priced at once and may complete it. */
  lemma TracksMarkedEvent(cfg: Config, view: seq<Arrival>, r: Reaction, e: PendingEvent)
    requires Tracks(cfg, view, r) && MarkerTime(view).Some?
    requires AllFacts(view, MarkerTime(view).value).counts != cfg.expected
    ensures
      var q := React(cfg, r.pending, Event(e));
      Tracks(cfg, view + [Event(e)], Reaction(q.pending, r.book.Plus(q.book)))
  {
    hide AllFacts, Facts.Plus, FactsOfEvent, Mirrors, Advance, TallyOfBook, Tally.Plus, Book.Plus, SettleTally, MarkedForm,
         Open, PricedTally, MarkerTime, PricedAll, Priced;
    var t := MarkerTime(view).value;
    var f, g := AllFacts(view, t), FactsOfEvent(e, t);
    var b := WithEvent(r.pending.value, e);
    AppendFacts(view, Event(e), t);
    LastNonNegative(view, t);
    MirrorsEvent(r.pending.value, f, e, t);
    PricedSingle(e, t);
    assert b.events == [e];
    AdvanceTally(cfg, b, f.Plus(g), g);
    MirrorsCleared(b, f.Plus(g));
    TallyOfBooks(r.book, Advance(cfg, b).book);
    OpenSteps(cfg, f, g);
    TallyPlus(Open(cfg, f), PricedTally(g), SettleTally(cfg, f.Plus(g), t));
    OpenPlusSettle(cfg, f.Plus(g), t);
  }

  lemma PricedSingle(e: PendingEvent, publishTime: int)
    ensures TallyOfBook(PricedAll([e], publishTime)) == PricedTally(FactsOfEvent(e, publishTime))
  {
    hide TallyOfBook, FactsOfEvent, PricedTally, Priced;
    assert [e][..0] == [];
    PricedNone(publishTime);
    BookPlus(Priced(e, publishTime), EMPTY_BOOK, EMPTY_BOOK);
    PricedOne(e, publishTime);
  }

  /** The marker prices everything retained and may complete the sequence. */
  lemma TracksMarker(cfg: Config, view: seq<Arrival>, r: Reaction, timestamp: int, observed: int)
    requires Tracks(cfg, view, r) && MarkerTime(view).None?
    ensures
      var q := React(cfg, r.pending, Marker(timestamp, observed));
      Tracks(cfg, view + [Marker(timestamp, observed)], Reaction(q.pending, r.book.Plus(q.book)))
  {
    hide AllFacts, Facts.Plus, FactsOf, Mirrors, Advance, TallyOfBook, Tally.Plus, Book.Plus, SettleTally, MarkedForm,
         Open, PricedTally, MarkerTime, PricedAll, EventsOf;
    var a := Marker(timestamp, observed);
    var f := AllFacts(view, timestamp);
    var f' := f.Plus(FactsOf(a, timestamp));
    var b0 := r.pending.GetOr(NEW_BATCH);
    var b := WithMarker(b0, timestamp, observed);
    AppendFacts(view, a, timestamp);
    LastNonNegative(view, timestamp);
    MarkerTimeMember(view);
    UnmarkedMirrors(cfg, view, r, timestamp);
    MirrorsMarker(b0, f, timestamp, observed, timestamp);
    PricedEvents(view, timestamp);
    MarkerAddsNothing(f, timestamp, observed, timestamp);
    AdvanceTally(cfg, b, f', f');
    MirrorsCleared(b, f');
    MarkerRecords(cfg, r.book, Advance(cfg, b).book);
    OpenSteps(cfg, f', NO_FACTS);
    var announced := NO_TALLY.(delivery := NO_DELIVERY.(published := cfg.expected));
    TallyPlus(announced, PricedTally(f'), SettleTally(cfg, f', timestamp));
    OpenPlusSettle(cfg, f', timestamp);
  }

  lemma UnmarkedMirrors(cfg: Config, view: seq<Arrival>, r: Reaction, publishTime: int)
    requires Tracks(cfg, view, r) && MarkerTime(view).None?
    ensures
      var b := r.pending.GetOr(NEW_BATCH);
      Mirrors(b, AllFacts(view, publishTime)) && b.events == EventsOf(view) && b.timestamp == None
      && r.book == EMPTY_BOOK
  {
    hide AllFacts, PricedAll;
    CountsTimeless(view, 0, publishTime);
    EmptyFacts();
    CountsTimeless([], 0, publishTime);
    assert EventsOf([]) == [];
  }

  lemma MarkerRecords(cfg: Config, before: Book, book: Book)
    requires before == EMPTY_BOOK
    ensures
      var published := EMPTY_BOOK.(delivery := NO_DELIVERY.(published := cfg.expected));
      TallyOfBook(before.Plus(published.Plus(book)))
      == NO_TALLY.(delivery := NO_DELIVERY.(published := cfg.expected)).Plus(TallyOfBook(book))
  {
    hide TallyOfBook, Book.Plus, Tally.Plus;
    var published := EMPTY_BOOK.(delivery := NO_DELIVERY.(published := cfg.expected));
    BookPlus(published.Plus(book), EMPTY_BOOK, EMPTY_BOOK);
    TallyOfBooks(published, book);
    CounterTally(0, published.delivery);
  }

  lemma CountsPrefix(expected: Counts, a: Counts, b: Counts)
    ensures AtMost(expected, a) ==> AtMost(expected, PlusCounts(a, b))
    ensures PlusCounts(a, b) == expected && b != NONE_OF_EACH ==> !AtMost(expected, a)
    ensures AtMost(expected, expected)
  {
  }

  /** A prefix of tame arrivals is tame, and nothing can follow a complete sequence. */
  lemma TamePrefix(cfg: Config, view: seq<Arrival>, a: Arrival)
    requires Tame(cfg, view + [a])
    ensures Tame(cfg, view)
    ensures MarkerTime(view).Some? ==> AllFacts(view, MarkerTime(view).value).counts != cfg.expected
  {
    hide AllFacts, MarkerTime, PlusCounts, AtMost, JoinBags;
    assert (view + [a])[..|view|] == view;
    AppendFacts(view, a, 0);
    CountsPrefix(cfg.expected, AllFacts(view, 0).counts, FactsOf(a, 0).counts);
    MarkerTimeMember(view);
    if MarkerTime(view).Some? {
      CountsTimeless(view, 0, MarkerTime(view).value);
      assert a.Event? ==> FactsOf(a, 0).counts != NONE_OF_EACH;
    }
  }

  /** A further marker leaves an incomplete sequence as it is, except for its observation bounds. */
  lemma TracksRepeatedMarker(cfg: Config, view: seq<Arrival>, r: Reaction, timestamp: int, observed: int)
    requires Tracks(cfg, view, r) && MarkerTime(view).Some?
    requires AllFacts(view, MarkerTime(view).value).counts != cfg.expected
    ensures
      var q := React(cfg, r.pending, Marker(timestamp, observed));
      Tracks(cfg, view + [Marker(timestamp, observed)], Reaction(q.pending, r.book.Plus(q.book)))
  {
    hide AllFacts, Facts.Plus, FactsOf, Mirrors, Advance, TallyOfBook, Book.Plus, MarkedForm, MarkerTime, JoinBags;
    var a := Marker(timestamp, observed);
    var t := MarkerTime(view).value;
    var f := AllFacts(view, t);
    var b := WithMarker(r.pending.value, timestamp, observed);
    AppendFacts(view, a, t);
    LastNonNegative(view, t);
    MirrorsMarker(r.pending.value, f, timestamp, observed, t);
    MarkerKeepsFacts(cfg, f, a, t);
    NothingEmitted(cfg, b, f.Plus(FactsOf(a, t)));
    BookPlus(r.book, EMPTY_BOOK, EMPTY_BOOK);
    BookPlus(EMPTY_BOOK, EMPTY_BOOK, EMPTY_BOOK);
  }

  lemma MarkerKeepsFacts(cfg: Config, f: Facts, a: Arrival, publishTime: int)
    requires a.Marker?
    ensures f.Plus(FactsOf(a, publishTime)).counts == f.counts
    ensures Open(cfg, f.Plus(FactsOf(a, publishTime))) == Open(cfg, f)
  {
    BagsPlus(f.events, NO_BAGS, NO_BAGS);
    hide JoinBags;
  }

  lemma NothingEmitted(cfg: Config, b: Batch, f: Facts)
    requires b.timestamp.Some? && b.events == [] && Mirrors(b, f) && f.counts != cfg.expected
    ensures Advance(cfg, b) == Reaction(Some(b), EMPTY_BOOK)
  {
    assert b.(events := []) == b;
  }

  lemma {:induction false} RunOneTracks(cfg: Config, view: seq<Arrival>)
    requires Tame(cfg, view)
    ensures Tracks(cfg, view, RunOne(cfg, view))
  {
    hide Tracks, Tame, React, AllFacts, MarkerTime;
    if view == [] {
      EmptyTracks(cfg);
    } else {
      var front, a := view[..|view| - 1], view[|view| - 1];
      assert view == front + [a];
      TamePrefix(cfg, front, a);
      RunOneTracks(cfg, front);
      RunOneStep(cfg, front, a);
      match a
      case Event(e) =>
        if MarkerTime(front).Some? {
          TracksMarkedEvent(cfg, front, RunOne(cfg, front), e);
        } else {
          TracksUnmarkedEvent(cfg, front, RunOne(cfg, front), e);
        }
      case Marker(timestamp, observed) =>
        if MarkerTime(front).Some? {
          TracksRepeatedMarker(cfg, front, RunOne(cfg, front), timestamp, observed);
        } else {
          TracksMarker(cfg, front, RunOne(cfg, front), timestamp, observed);
        }
    }
  }

  lemma EmptyTracks(cfg: Config)
    ensures Tracks(cfg, [], RunOne(cfg, []))
  {
  }

  lemma TracksSettles(cfg: Config, view: seq<Arrival>, r: Reaction)
    requires Tracks(cfg, view, r)
    ensures (if r.pending.Some? then TallyOfBook(r.book).Plus(TallyOfBook(FinishBook(cfg, r.pending.value)))
             else TallyOfBook(r.book)) == ClosedForm(cfg, view)
  {
    hide AllFacts, Tally.Plus, TallyOfBook, FinishBook, MarkedForm, Open, SettleTally;
    TallyOfEmpty();
    match MarkerTime(view)
    case None =>
      if view != [] {
        MarkerTimeMember(view);
        PricedEvents(view, 0);
        UncorrelatedTally(cfg, r.pending.value, view);
      }
    case Some(t) =>
      var f := AllFacts(view, t);
      if f.counts != cfg.expected {
        FinishTallyOpen(cfg, r.pending.value, f);
        OpenPlusSettle(cfg, f, t);
      }
  }

  lemma UncorrelatedTally(cfg: Config, b: Batch, view: seq<Arrival>)
    requires b.timestamp.None? && Mirrors(b, AllFacts(view, 0)) && MarkerCount(view) == 0
    ensures
      TallyOfBook(EMPTY_BOOK).Plus(TallyOfBook(FinishBook(cfg, b)))
      == NO_TALLY.(missing := if cfg.allowConflation then 0 else 1, delivery := NO_DELIVERY.(uncorrelated := |view|))
  {
    hide TallyOfBook, Tally.Plus, AllFacts;
    CounterTally(if cfg.allowConflation then 0 else 1, NO_DELIVERY.(uncorrelated := b.received));
    TallyOfEmpty();
    TallyPlus(TallyOfBook(FinishBook(cfg, b)), NO_TALLY, NO_TALLY);
    CountsEvents(view);
  }

  lemma {:induction false} CountsEvents(view: seq<Arrival>)
    requires MarkerCount(view) == 0
    ensures SumCounts(AllFacts(view, 0).counts) == |view|
  {
    if view != [] {
      hide JoinBags;
      CountsEvents(view[..|view| - 1]);
    }
  }

  /** A tame sequence contributes its closed form. */
  lemma SettledClosedForm(cfg: Config, view: seq<Arrival>)
    requires Tame(cfg, view)
    ensures TallyOfBook(Settled(cfg, view)) == ClosedForm(cfg, view)
  {
    hide Tracks, Tame, RunOne, TallyOfBook, ClosedForm, FinishBook, Settled, Tally.Plus;
    RunOneTracks(cfg, view);
    SettledTally(cfg, view);
    TracksSettles(cfg, view, RunOne(cfg, view));
  }
}
