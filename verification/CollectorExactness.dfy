/** Exactly when the order of one sequence's arrivals does not matter. */
module CollectorExactness {
  import opened Common
  import opened Events
  import opened CollectorModel
  import opened Tallies
  import opened CollectorOrder
  import opened CollectorClosedForm

  /** All orders of the same arrivals give the same results. */
  ghost predicate Determined(cfg: Config, view: seq<Arrival>) {
    forall a, b :: multiset(a) == multiset(view) && multiset(b) == multiset(view) ==>
      TallyOfBook(Settled(cfg, a)) == TallyOfBook(Settled(cfg, b))
  }

  /** The choice of the first marker does not matter: no event, one marker time, or everything before all of them. */
  predicate TimesAgree(view: seq<Arrival>) {
    || AllFacts(view, 0).counts == NONE_OF_EACH
    || (forall i, j :: 0 <= i < |view| && 0 <= j < |view| && view[i].Marker? && view[j].Marker? ==>
          view[i].timestamp == view[j].timestamp)
    || (forall i :: 0 <= i < |view| && view[i].Marker? ==> AllFacts(view, 0).last < view[i].timestamp)
  }

  /**
   * Without a marker; or covering the expected composition, exactly and with a single marker (or nothing is expected
   * and no event comes); or never covering it, with marker times that agree.
   */
  predicate OrderFree(cfg: Config, view: seq<Arrival>) {
    var counts := AllFacts(view, 0).counts;
    || MarkerCount(view) == 0
    || (if AtMost(cfg.expected, counts)
        then counts == cfg.expected && (MarkerCount(view) == 1 || counts == NONE_OF_EACH)
        else TimesAgree(view))
  }

  // Order-free arrivals are determined.

  lemma TamePermute(cfg: Config, v: seq<Arrival>, w: seq<Arrival>)
    requires multiset(v) == multiset(w) && Tame(cfg, v)
    ensures Tame(cfg, w)
  {
    hide AllFacts, MarkerCount;
    FactsPermute(v, w, 0);
  }

  lemma OneMarkerDetermined(cfg: Config, view: seq<Arrival>)
    requires Tame(cfg, view) && MarkerCount(view) <= 1
    ensures Determined(cfg, view)
  {
    hide Tame, Settled, TallyOfBook, ClosedForm, AllFacts, MarkerCount;
    forall a, b | multiset(a) == multiset(view) && multiset(b) == multiset(view)
      ensures TallyOfBook(Settled(cfg, a)) == TallyOfBook(Settled(cfg, b))
    {
      FactsPermute(view, a, 0);
      TamePermute(cfg, view, a);
      TamePermute(cfg, view, b);
      SettledClosedForm(cfg, a);
      SettledClosedForm(cfg, b);
      ClosedFormPermute(cfg, a, b);
    }
  }

  predicate IsMarkerTime(view: seq<Arrival>, t: int) {
    exists i :: 0 <= i < |view| && view[i].Marker? && view[i].timestamp == t
  }

  /** The settled result of a marked sequence that never completes depends on the first marker's time only. */
  lemma FirstMarkerDecides(cfg: Config, view: seq<Arrival>, a: seq<Arrival>)
    requires multiset(a) == multiset(view) && MarkerCount(view) > 0 && !AtMost(cfg.expected, AllFacts(view, 0).counts)
    ensures MarkerTime(a).Some? && IsMarkerTime(view, MarkerTime(a).value)
    ensures TallyOfBook(Settled(cfg, a))
         == MarkedForm(cfg, AllFacts(view, MarkerTime(a).value), MarkerTime(a).value)
  {
    hide AllFacts, MarkerCount, MarkerTime, MarkedForm, Settled, TallyOfBook, AtMost;
    FactsPermute(view, a, 0);
    MarkerTimeMember(a);
    var i :| 0 <= i < |a| && a[i].Marker? && a[i].timestamp == MarkerTime(a).value;
    assert a[i] in multiset(view);
    FactsPermute(view, a, MarkerTime(a).value);
    SettledClosedForm(cfg, a);
  }

  lemma {:induction false} EventlessFacts(view: seq<Arrival>, t: int)
    requires AllFacts(view, 0).counts == NONE_OF_EACH
    ensures AllFacts(view, t).events == NO_BAGS && AllFacts(view, t).negative == 0
    ensures AllFacts(view, t).counts == NONE_OF_EACH
  {
    hide FactsOf, PlusCounts, Facts.Plus, JoinBags;
    if view != [] {
      var front, last := EventlessLast(view);
      EventlessFacts(front, t);
      MarkerFacts(AllFacts(front, t), last, t);
    }
  }

  lemma MarkerFacts(f: Facts, a: Arrival, t: int)
    requires a.Marker?
    ensures
      var g := f.Plus(FactsOf(a, t));
      g.counts == f.counts && g.events == f.events && g.negative == f.negative
  {
    BagsPlus(f.events, NO_BAGS, NO_BAGS);
    hide JoinBags;
  }

  /** Without event counts, the last arrival is a marker. */
  lemma EventlessLast(view: seq<Arrival>) returns (front: seq<Arrival>, last: Arrival)
    requires view != [] && AllFacts(view, 0).counts == NONE_OF_EACH
    ensures front == view[..|view| - 1] && last == view[|view| - 1]
    ensures AllFacts(front, 0).counts == NONE_OF_EACH && last.Marker?
  {
    hide AllFacts, FactsOf, PlusCounts;
    front, last := view[..|view| - 1], view[|view| - 1];
    assert view == front + [last];
    CountOf(front, last);
    NoneAdded(AllFacts(front, 0).counts, FactsOf(last, 0).counts);
    if last.Event? {
      EventCounts(last);
    }
  }

  lemma NoneAdded(a: Counts, b: Counts)
    requires PlusCounts(a, b) == NONE_OF_EACH
    ensures a == NONE_OF_EACH && b == NONE_OF_EACH
  {
  }

  lemma {:induction false} EarlyFacts(view: seq<Arrival>, t: int)
    requires AllFacts(view, 0).last < t
    ensures AllFacts(view, t).events == NO_BAGS
    ensures AllFacts(view, t).negative == SumCounts(AllFacts(view, t).counts)
  {
    CountsTimeless(view, 0, t);
    if view != [] {
      EarlyFacts(view[..|view| - 1], t);
    }
  }

  lemma SameForm(cfg: Config, view: seq<Arrival>, s: int, t: int)
    requires TimesAgree(view) && IsMarkerTime(view, s) && IsMarkerTime(view, t)
    ensures MarkedForm(cfg, AllFacts(view, s), s) == MarkedForm(cfg, AllFacts(view, t), t)
  {
    hide AllFacts;
    CountsTimeless(view, s, t);
    CountsTimeless(view, s, 0);
    if AllFacts(view, 0).counts == NONE_OF_EACH {
      EventlessFacts(view, s);
      EventlessFacts(view, t);
    } else if s != t {
      EarlyFacts(view, s);
      EarlyFacts(view, t);
    }
  }

  lemma IncompleteDetermined(cfg: Config, view: seq<Arrival>)
    requires MarkerCount(view) > 0 && !AtMost(cfg.expected, AllFacts(view, 0).counts) && TimesAgree(view)
    ensures Determined(cfg, view)
  {
    hide AllFacts, MarkerCount, MarkerTime, MarkedForm, Settled, TallyOfBook, AtMost, TimesAgree, IsMarkerTime;
    forall a, b | multiset(a) == multiset(view) && multiset(b) == multiset(view)
      ensures TallyOfBook(Settled(cfg, a)) == TallyOfBook(Settled(cfg, b))
    {
      FirstMarkerDecides(cfg, view, a);
      FirstMarkerDecides(cfg, view, b);
      SameForm(cfg, view, MarkerTime(a).value, MarkerTime(b).value);
    }
  }

  predicate OnlyMarkers(view: seq<Arrival>) {
    forall i :: 0 <= i < |view| ==> view[i].Marker?
  }

  /** When nothing is expected, every marker completes a publication of its own. */
  lemma {:induction false} NothingExpected(cfg: Config, view: seq<Arrival>)
    requires cfg.expected == NONE_OF_EACH && OnlyMarkers(view)
    ensures RunOne(cfg, view) == Reaction(None, EMPTY_BOOK.(delivery := NO_DELIVERY.(full := |view|)))
  {
    if view != [] {
      NothingExpected(cfg, view[..|view| - 1]);
      OneMoreFull(cfg, view[|view| - 1], |view| - 1);
    }
  }

  lemma OneMoreFull(cfg: Config, a: Arrival, n: nat)
    requires cfg.expected == NONE_OF_EACH && a.Marker?
    ensures
      var r := React(cfg, None, a);
      && r.pending == None
      && EMPTY_BOOK.(delivery := NO_DELIVERY.(full := n)).Plus(r.book)
         == EMPTY_BOOK.(delivery := NO_DELIVERY.(full := n + 1))
  {
  }

  lemma {:induction false} EventlessMarkers(view: seq<Arrival>)
    requires AllFacts(view, 0).counts == NONE_OF_EACH
    ensures OnlyMarkers(view)
  {
    hide AllFacts;
    if view != [] {
      var front, last := EventlessLast(view);
      EventlessMarkers(front);
    }
  }

  lemma NothingExpectedDetermined(cfg: Config, view: seq<Arrival>)
    requires AllFacts(view, 0).counts == cfg.expected == NONE_OF_EACH
    ensures Determined(cfg, view)
  {
    hide AllFacts, RunOne, TallyOfBook, FinishBook;
    forall a, b | multiset(a) == multiset(view) && multiset(b) == multiset(view)
      ensures TallyOfBook(Settled(cfg, a)) == TallyOfBook(Settled(cfg, b))
    {
      FactsPermute(view, a, 0);
      FactsPermute(view, b, 0);
      EventlessMarkers(a);
      EventlessMarkers(b);
      NothingExpected(cfg, a);
      NothingExpected(cfg, b);
      assert |a| == |multiset(a)| == |multiset(b)| == |b|;
    }
  }

  // Other arrivals are not: two orders that differ.

  predicate OnlyEvents(view: seq<Arrival>) {
    forall i :: 0 <= i < |view| ==> view[i].Event?
  }

  lemma {:induction false} EventsUnmarked(view: seq<Arrival>)
    requires OnlyEvents(view)
    ensures MarkerCount(view) == 0 && MarkerTime(view) == None
  {
    if view != [] {
      EventsUnmarked(view[..|view| - 1]);
    }
  }

  /** Markers and events apart. */
  lemma Apart(view: seq<Arrival>) returns (markers: seq<Arrival>, events: seq<Arrival>)
    ensures OnlyMarkers(markers) && OnlyEvents(events) && |markers| == MarkerCount(view)
    ensures multiset(view) == multiset(events) + multiset(markers)
    ensures AllFacts(events, 0).counts == AllFacts(view, 0).counts
  {
    hide AllFacts, MarkerCount;
    markers, events := Sorted(view);
    assert multiset(events + markers) == multiset(view);
    FactsPermute(view, events + markers, 0);
    MarkersCountNothing(events, markers);
  }

  lemma {:induction false} Sorted(view: seq<Arrival>) returns (markers: seq<Arrival>, events: seq<Arrival>)
    ensures OnlyMarkers(markers) && OnlyEvents(events) && |markers| == MarkerCount(view)
    ensures multiset(view) == multiset(events) + multiset(markers)
  {
    if view == [] {
      markers, events := [], [];
    } else {
      var front, last := view[..|view| - 1], view[|view| - 1];
      assert view == front + [last];
      markers, events := Sorted(front);
      if last.Marker? {
        markers := markers + [last];
      } else {
        events := events + [last];
      }
    }
  }

  lemma {:induction false} MarkersCountNothing(events: seq<Arrival>, markers: seq<Arrival>)
    requires OnlyMarkers(markers)
    ensures AllFacts(events + markers, 0).counts == AllFacts(events, 0).counts
  {
    hide AllFacts, FactsOf, PlusCounts;
    if markers == [] {
      assert events + markers == events;
    } else {
      var front, last := markers[..|markers| - 1], markers[|markers| - 1];
      MarkersCountNothing(events, front);
      assert events + markers == events + front + [last];
      CountOf(events + front, last);
      MarkerCountsNothing(last, AllFacts(events + front, 0).counts);
    }
  }

  lemma CountOf(view: seq<Arrival>, a: Arrival)
    ensures AllFacts(view + [a], 0).counts == PlusCounts(AllFacts(view, 0).counts, FactsOf(a, 0).counts)
    ensures MarkerCount(view + [a]) == MarkerCount(view) + if a.Marker? then 1 else 0
  {
    assert (view + [a])[..|view|] == view;
  }

  lemma MarkerCountsNothing(a: Arrival, counts: Counts)
    requires a.Marker?
    ensures PlusCounts(counts, FactsOf(a, 0).counts) == counts
  {
  }

  /** Events can be picked to reach any composition they cover. */
  lemma {:induction false} Picked(events: seq<Arrival>, need: Counts) returns (chosen: seq<Arrival>, rest: seq<Arrival>)
    requires OnlyEvents(events) && AtMost(need, AllFacts(events, 0).counts)
    ensures OnlyEvents(chosen) && AllFacts(chosen, 0).counts == need
    ensures multiset(events) == multiset(chosen) + multiset(rest)
  {
    hide AllFacts, AtMost, PlusCounts, FactsOf;
    if events == [] {
      NothingNeeded(need);
      chosen, rest := [], [];
    } else {
      var front, last := events[..|events| - 1], events[|events| - 1];
      assert events == front + [last];
      CountOf(front, last);
      if AtMost(need, AllFacts(front, 0).counts) {
        chosen, rest := Picked(front, need);
        rest := rest + [last];
      } else {
        var less := Fewer(need, AllFacts(front, 0).counts, last);
        chosen, rest := Picked(front, less);
        CountOf(chosen, last);
        chosen := chosen + [last];
      }
    }
  }

  lemma NothingNeeded(need: Counts)
    requires AtMost(need, AllFacts([], 0).counts)
    ensures need == AllFacts([], 0).counts
  {
  }

  lemma Fewer(need: Counts, have: Counts, last: Arrival) returns (less: Counts)
    requires last.Event? && AtMost(need, PlusCounts(have, FactsOf(last, 0).counts)) && !AtMost(need, have)
    ensures AtMost(less, have) && PlusCounts(less, FactsOf(last, 0).counts) == need
  {
    var kind := last.event.kind;
    assert need.At(kind) > 0;
    less := need.Put(kind, need.At(kind) - 1);
  }

  /** What is recorded about deliveries only grows. */
  lemma {:induction false} DeliveryGrows(cfg: Config, view: seq<Arrival>, more: seq<Arrival>, k: MarketKind)
    ensures RunOne(cfg, view + more).book.delivery.full >= RunOne(cfg, view).book.delivery.full
    ensures RunOne(cfg, view + more).book.delivery.published.At(k) >= RunOne(cfg, view).book.delivery.published.At(k)
  {
    hide React;
    if more == [] {
      assert view + more == view;
    } else {
      DeliveryGrows(cfg, view, more[..|more| - 1], k);
      assert (view + more)[..|view + more| - 1] == view + more[..|more| - 1];
    }
  }

  lemma SettledDelivery(cfg: Config, view: seq<Arrival>, k: MarketKind)
    ensures TallyOfBook(Settled(cfg, view)).delivery.full >= RunOne(cfg, view).book.delivery.full
    ensures TallyOfBook(Settled(cfg, view)).delivery.published.At(k) >= RunOne(cfg, view).book.delivery.published.At(k)
    ensures TallyOfBook(RunOne(cfg, view).book).delivery == RunOne(cfg, view).book.delivery
  {
    hide RunOne, FinishBook;
  }

  /** Markers after events: the first one fixes the time, and while incomplete the others change nothing. */
  lemma {:induction false} MarkersLast(cfg: Config, events: seq<Arrival>, markers: seq<Arrival>)
    requires OnlyEvents(events) && OnlyMarkers(markers) && markers != []
    requires |markers| > 1 ==> AllFacts(events, 0).counts != cfg.expected
    ensures
      var view := events + markers;
      && MarkerTime(view) == Some(markers[0].timestamp)
      && Tracks(cfg, view, RunOne(cfg, view))
      && AllFacts(view, markers[0].timestamp).counts == AllFacts(events, 0).counts
  {
    hide Tracks, AllFacts, MarkerTime, MarkerCount, React, RunOne, PlusCounts, FactsOf, Tame;
    var front, last := events + markers[..|markers| - 1], markers[|markers| - 1];
    var t := markers[0].timestamp;
    assert events + markers == front + [last];
    RunOneStep(cfg, front, last);
    AppendFacts(front, last, t);
    CountOf(front, last);
    MarkerCountsNothing(last, AllFacts(front, 0).counts);
    CountsTimeless(front, 0, t);
    CountsTimeless(front + [last], 0, t);
    if |markers| == 1 {
      assert front == events;
      EventsUnmarked(events);
      UnmarkedTame(cfg, events);
      RunOneTracks(cfg, events);
      TracksMarker(cfg, events, RunOne(cfg, events), last.timestamp, last.observed);
    } else {
      MarkersLast(cfg, events, markers[..|markers| - 1]);
      TracksRepeatedMarker(cfg, front, RunOne(cfg, front), last.timestamp, last.observed);
    }
  }

  lemma UnmarkedTame(cfg: Config, view: seq<Arrival>)
    requires MarkerCount(view) == 0
    ensures Tame(cfg, view)
  {
  }

  /** With the markers last, a composition other than the expected one is not full. */
  lemma LateNotFull(cfg: Config, events: seq<Arrival>, markers: seq<Arrival>)
    requires OnlyEvents(events) && OnlyMarkers(markers) && markers != [] && AllFacts(events, 0).counts != cfg.expected
    ensures TallyOfBook(Settled(cfg, events + markers)).delivery.full == 0
  {
    hide AllFacts, TallyOfBook, RunOne, Tracks, Settled, FinishBook, Tally.Plus, MarkerTime;
    MarkersLast(cfg, events, markers);
    var view := events + markers;
    SettledTally(cfg, view);
    TracksSettles(cfg, view, RunOne(cfg, view));
  }

  /** With a marker as soon as the expected composition is reached, it is. */
  lemma EarlyFull(cfg: Config, chosen: seq<Arrival>, marker: Arrival, rest: seq<Arrival>)
    requires OnlyEvents(chosen) && marker.Marker? && AllFacts(chosen, 0).counts == cfg.expected
    ensures TallyOfBook(Settled(cfg, chosen + [marker] + rest)).delivery.full >= 1
  {
    hide AllFacts, TallyOfBook, RunOne, Settled, FinishBook, Open, MarkerTime;
    MarkersLast(cfg, chosen, [marker]);
    SettledDelivery(cfg, chosen + [marker], Quote);
    SettledDelivery(cfg, chosen + [marker] + rest, Quote);
    DeliveryGrows(cfg, chosen + [marker], rest, Quote);
  }

  lemma OvershootMatters(cfg: Config, view: seq<Arrival>)
    requires MarkerCount(view) >= 1
    requires AtMost(cfg.expected, AllFacts(view, 0).counts) && AllFacts(view, 0).counts != cfg.expected
    ensures !Determined(cfg, view)
  {
    hide AllFacts, TallyOfBook, Settled, MarkerCount, PlusCounts, FactsOf, AtMost;
    var markers, events := Apart(view);
    assert multiset(events + markers) == multiset(view);
    var chosen, rest := Picked(events, cfg.expected);
    assert markers == [markers[0]] + markers[1..];
    assert multiset(chosen + [markers[0]] + (rest + markers[1..])) == multiset(view);
    LateNotFull(cfg, events, markers);
    EarlyFull(cfg, chosen, markers[0], rest + markers[1..]);
  }

  /** A second marker after completion publishes the sequence again. */
  lemma PublishedTwice(cfg: Config, events: seq<Arrival>, first: Arrival, second: Arrival, rest: seq<Arrival>, k: MarketKind)
    requires OnlyEvents(events) && first.Marker? && second.Marker? && AllFacts(events, 0).counts == cfg.expected
    ensures TallyOfBook(Settled(cfg, events + [first] + [second] + rest)).delivery.published.At(k)
         >= 2 * cfg.expected.At(k)
  {
    hide AllFacts, TallyOfBook, RunOne, Settled, FinishBook, Open, MarkerTime, React, JoinBags;
    MarkersLast(cfg, events, [first]);
    SettledDelivery(cfg, events + [first], k);
    RunOneStep(cfg, events + [first], second);
    MarkerPublishes(cfg, RunOne(cfg, events + [first]).book, second, k);
    SettledDelivery(cfg, events + [first] + [second] + rest, k);
    DeliveryGrows(cfg, events + [first] + [second], rest, k);
  }

  lemma MarkerPublishes(cfg: Config, before: Book, a: Arrival, k: MarketKind)
    requires a.Marker?
    ensures before.Plus(React(cfg, None, a).book).delivery.published.At(k)
         >= before.delivery.published.At(k) + cfg.expected.At(k)
  {
    hide Advance;
  }

  lemma {:induction false} MarkersFirst(view: seq<Arrival>, marker: Arrival)
    requires marker.Marker?
    ensures MarkerTime([marker] + view) == Some(marker.timestamp)
  {
    if view != [] {
      MarkersFirst(view[..|view| - 1], marker);
      assert ([marker] + view)[..|view|] == [marker] + view[..|view| - 1];
    } else {
      assert ([marker] + view)[..0] == [];
    }
  }

  /** With the markers first, the last event completes the sequence, which is published once. */
  lemma PublishedOnce(cfg: Config, markers: seq<Arrival>, events: seq<Arrival>, view: seq<Arrival>)
    requires OnlyMarkers(markers) && markers != [] && OnlyEvents(events) && events != []
    requires view == markers + events && AllFacts(view, 0).counts == cfg.expected
    ensures TallyOfBook(Settled(cfg, view)).delivery.published == cfg.expected
  {
    hide AllFacts, TallyOfBook, RunOne, Settled, FinishBook, Tracks, MarkerTime, React, PlusCounts, FactsOf, AtMost,
      MarkerCount, Tally.Plus;
    var front, last := markers + events[..|events| - 1], events[|events| - 1];
    assert view == front + [last];
    assert front == [markers[0]] + (markers[1..] + events[..|events| - 1]);
    assert view == [markers[0]] + (markers[1..] + events);
    MarkersFirst(markers[1..] + events[..|events| - 1], markers[0]);
    MarkersFirst(markers[1..] + events, markers[0]);
    CountOf(front, last);
    EventCounts(last);
    CountsPrefix(cfg.expected, AllFacts(front, 0).counts, FactsOf(last, 0).counts);
    CountsTimeless(front, 0, markers[0].timestamp);
    CountsTimeless(view, 0, markers[0].timestamp);
    IncompleteTame(cfg, front);
    RunOneTracks(cfg, front);
    RunOneStep(cfg, front, last);
    TracksMarkedEvent(cfg, front, RunOne(cfg, front), last.event);
    SettledTally(cfg, view);
    TracksSettles(cfg, view, RunOne(cfg, view));
    CompleteFormPublishes(cfg, view);
  }

  lemma CompleteFormPublishes(cfg: Config, view: seq<Arrival>)
    requires MarkerTime(view).Some?
    ensures ClosedForm(cfg, view).delivery.published == cfg.expected
  {
    hide AllFacts, MarkerTime;
  }

  lemma EventCounts(a: Arrival)
    requires a.Event?
    ensures FactsOf(a, 0).counts != NONE_OF_EACH
  {
  }

  lemma IncompleteTame(cfg: Config, view: seq<Arrival>)
    requires !AtMost(cfg.expected, AllFacts(view, 0).counts)
    ensures Tame(cfg, view)
  {
  }

  lemma SomeExpected(counts: Counts) returns (k: MarketKind)
    requires counts != NONE_OF_EACH
    ensures counts.At(k) > 0
  {
    k := if counts.quote > 0 then Quote else if counts.trade > 0 then Trade
         else if counts.tradeEth > 0 then TradeEth else Summary;
  }

  lemma RepetitionMatters(cfg: Config, view: seq<Arrival>)
    requires MarkerCount(view) >= 2 && AllFacts(view, 0).counts == cfg.expected && cfg.expected != NONE_OF_EACH
    ensures !Determined(cfg, view)
  {
    hide AllFacts, TallyOfBook, Settled, MarkerCount, PlusCounts, FactsOf, PerKind.At;
    var markers, events := Apart(view);
    var k := SomeExpected(cfg.expected);
    assert events != [] by { NoEventsCount(); }
    assert markers == [markers[0]] + [markers[1]] + markers[2..];
    assert multiset(events + [markers[0]] + [markers[1]] + markers[2..]) == multiset(view);
    assert multiset(markers + events) == multiset(view);
    FactsPermute(view, markers + events, 0);
    PublishedTwice(cfg, events, markers[0], markers[1], markers[2..], k);
    PublishedOnce(cfg, markers, events, markers + events);
  }

  lemma NoEventsCount()
    ensures AllFacts([], 0).counts == NONE_OF_EACH
  {
  }

  lemma BatchesDiffer(cfg: Config, f: Facts, g: Facts, s: int, t: int)
    requires f.counts == g.counts != NONE_OF_EACH && f.last == g.last && s != t && s <= f.last
    ensures MarkedForm(cfg, f, s) != MarkedForm(cfg, g, t)
  {
    hide JoinBags;
    assert SumCounts(f.counts) > 0;
    var a, b := MarkedForm(cfg, f, s).batches, MarkedForm(cfg, g, t).batches;
    assert a == multiset{f.last - s};
    assert (f.last - s) !in b;
  }

  /** Any marker can come first. */
  lemma MovedFirst(view: seq<Arrival>, i: nat) returns (a: seq<Arrival>)
    requires i < |view| && view[i].Marker?
    ensures multiset(a) == multiset(view) && MarkerTime(a) == Some(view[i].timestamp)
  {
    hide MarkerTime;
    var rest := view[..i] + view[i + 1..];
    a := [view[i]] + rest;
    assert view == view[..i] + [view[i]] + view[i + 1..];
    MarkersFirst(rest, view[i]);
  }

  lemma TimesMatter(cfg: Config, view: seq<Arrival>)
    requires MarkerCount(view) >= 1 && !AtMost(cfg.expected, AllFacts(view, 0).counts) && !TimesAgree(view)
    ensures !Determined(cfg, view)
  {
    hide AllFacts, TallyOfBook, Settled, MarkerCount, MarkedForm, MarkerTime, IsMarkerTime, AtMost;
    var i :| 0 <= i < |view| && view[i].Marker? && AllFacts(view, 0).last >= view[i].timestamp;
    var x, y :| 0 <= x < |view| && 0 <= y < |view| && view[x].Marker? && view[y].Marker?
                && view[x].timestamp != view[y].timestamp;
    var j := if view[x].timestamp != view[i].timestamp then x else y;
    var a := MovedFirst(view, i);
    var b := MovedFirst(view, j);
    var s, t := view[i].timestamp, view[j].timestamp;
    FirstMarkerDecides(cfg, view, a);
    FirstMarkerDecides(cfg, view, b);
    CountsTimeless(view, 0, s);
    CountsTimeless(view, 0, t);
    BatchesDiffer(cfg, AllFacts(view, s), AllFacts(view, t), s, t);
  }

  /** For every sequence of arrivals, the order is irrelevant exactly when the arrivals are order-free. */
  lemma OrderIrrelevantIff(cfg: Config, view: seq<Arrival>)
    ensures Determined(cfg, view) <==> OrderFree(cfg, view)
  {
    hide AllFacts, MarkerCount, Determined, AtMost, TimesAgree;
    var counts := AllFacts(view, 0).counts;
    CountsPrefix(cfg.expected, counts, NONE_OF_EACH);
    if MarkerCount(view) == 0 {
      OneMarkerDetermined(cfg, view);
    } else if AtMost(cfg.expected, counts) {
      if counts != cfg.expected {
        OvershootMatters(cfg, view);
      } else if MarkerCount(view) == 1 {
        OneMarkerDetermined(cfg, view);
      } else if counts == NONE_OF_EACH {
        NothingExpectedDetermined(cfg, view);
      } else {
        RepetitionMatters(cfg, view);
      }
    } else if TimesAgree(view) {
      IncompleteDetermined(cfg, view);
    } else {
      TimesMatter(cfg, view);
    }
  }

  /** In particular at most one marker, and no kind beyond its expected count, is enough. */
  lemma WithinExpectedOrderFree(cfg: Config, view: seq<Arrival>)
    requires MarkerCount(view) <= 1 && AtMost(AllFacts(view, 0).counts, cfg.expected)
    ensures OrderFree(cfg, view)
  {
    hide AllFacts;
    if MarkerCount(view) == 1 {
      OneTime(view);
    }
  }

  lemma {:induction false} OneTime(view: seq<Arrival>)
    requires MarkerCount(view) <= 1
    ensures forall i, j :: 0 <= i < j < |view| && view[i].Marker? ==> view[j].Event?
  {
    if view != [] {
      OneTime(view[..|view| - 1]);
      if view[|view| - 1].Marker? {
        NoMarker(view[..|view| - 1]);
      }
    }
  }

  lemma {:induction false} NoMarker(view: seq<Arrival>)
    requires MarkerCount(view) == 0
    ensures OnlyEvents(view)
  {
    if view != [] {
      NoMarker(view[..|view| - 1]);
    }
  }
}
