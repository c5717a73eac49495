/** What wire events are worth to the collector, per publication sequence, whenever and in whatever order they arrive. */
module WireWorth {
  import opened Events
  import opened CollectorModel
  import opened CollectorOrder
  import opened CollectorClosedForm
  import opened CollectorTheorems

  datatype Worth = Worth(counts: Counts, markers: nat) {
    function Plus(w: Worth): Worth {
      Worth(PlusCounts(counts, w.counts), markers + w.markers)
    }
  }

  const NO_WORTH := Worth(NONE_OF_EACH, 0)

  lemma WorthPlus(a: Worth, b: Worth, c: Worth)
    ensures a.Plus(b).Plus(c) == a.Plus(b.Plus(c)) && a.Plus(b) == b.Plus(a)
    ensures a.Plus(NO_WORTH) == a && NO_WORTH.Plus(a) == a
  {
  }

  function WorthOfItem(item: Item, s: int): Worth {
    if item.sequence != s then NO_WORTH else
    match item.arrival
    case Event(e) => Worth(NONE_OF_EACH.Put(e.kind, 1), 0)
    case Marker(_, _) => Worth(NONE_OF_EACH, 1)
  }

  function WorthOf(cfg: Config, e: WireEvent, s: int): Worth {
    var item := ItemOf(cfg, e, 0);
    if item.Some? then WorthOfItem(item.value, s) else NO_WORTH
  }

  function WorthAll(cfg: Config, events: seq<WireEvent>, s: int): Worth {
    if events == [] then NO_WORTH
    else WorthAll(cfg, events[..|events| - 1], s).Plus(WorthOf(cfg, events[|events| - 1], s))
  }

  lemma {:induction false} WorthAppend(cfg: Config, a: seq<WireEvent>, b: seq<WireEvent>, s: int)
    ensures WorthAll(cfg, a + b, s) == WorthAll(cfg, a, s).Plus(WorthAll(cfg, b, s))
  {
    hide Worth.Plus, WorthOf;
    if b == [] {
      assert a + b == a;
      WorthPlus(WorthAll(cfg, a, s), NO_WORTH, NO_WORTH);
    } else {
      var front := b[..|b| - 1];
      WorthAppend(cfg, a, front, s);
      assert (a + b)[..|a + b| - 1] == a + front;
      WorthPlus(WorthAll(cfg, a, s), WorthAll(cfg, front, s), WorthOf(cfg, b[|b| - 1], s));
    }
  }

  lemma WorthSingle(cfg: Config, e: WireEvent, s: int)
    ensures WorthAll(cfg, [e], s) == WorthOf(cfg, e, s)
  {
    hide Worth.Plus, WorthOf;
    assert [e][..0] == [];
    WorthPlus(WorthOf(cfg, e, s), NO_WORTH, NO_WORTH);
  }

  lemma WorthRemove(cfg: Config, events: seq<WireEvent>, i: nat, s: int)
    requires i < |events|
    ensures WorthAll(cfg, events, s) == WorthAll(cfg, events[..i] + events[i + 1..], s).Plus(WorthOf(cfg, events[i], s))
  {
    hide Worth.Plus, WorthOf, WorthAll;
    var a, b := events[..i], events[i + 1..];
    assert events == a + [events[i]] + b;
    WorthAppend(cfg, a + [events[i]], b, s);
    WorthAppend(cfg, a, [events[i]], s);
    WorthSingle(cfg, events[i], s);
    WorthAppend(cfg, a, b, s);
    WorthPlus(WorthAll(cfg, a, s), WorthOf(cfg, events[i], s), WorthAll(cfg, b, s));
    WorthPlus(WorthAll(cfg, a, s), WorthAll(cfg, b, s), WorthOf(cfg, events[i], s));
    WorthPlus(WorthOf(cfg, events[i], s), WorthAll(cfg, b, s), NO_WORTH);
  }

  lemma {:induction false} WorthPermute(cfg: Config, a: seq<WireEvent>, b: seq<WireEvent>, s: int)
    requires multiset(a) == multiset(b)
    ensures WorthAll(cfg, a, s) == WorthAll(cfg, b, s)
    decreases |a|
  {
    hide Worth.Plus, WorthOf;
    assert |a| == |multiset(a)| == |multiset(b)| == |b|;
    if a != [] {
      var i, rest := SameLast(a, b);
      WorthPermute(cfg, a[..|a| - 1], rest, s);
      WorthRemove(cfg, b, i, s);
    }
  }

  lemma SameLast(a: seq<WireEvent>, b: seq<WireEvent>) returns (i: nat, rest: seq<WireEvent>)
    requires a != [] && multiset(a) == multiset(b)
    ensures i < |b| && b[i] == a[|a| - 1] && rest == b[..i] + b[i + 1..]
    ensures multiset(a[..|a| - 1]) == multiset(rest)
  {
    var x := a[|a| - 1];
    assert a == a[..|a| - 1] + [x];
    assert x in multiset(b);
    i :| 0 <= i < |b| && b[i] == x;
    rest := b[..i] + b[i + 1..];
    assert b == b[..i] + [x] + b[i + 1..];
    assert multiset(b) == multiset(b[..i]) + multiset{x} + multiset(b[i + 1..]);
    assert multiset(a[..|a| - 1]) == multiset(a) - multiset{x};
  }

  // The client's side.

  function ViewWorth(view: seq<Arrival>): Worth {
    Worth(AllFacts(view, 0).counts, MarkerCount(view))
  }

  lemma ViewWorthAppend(v: seq<Arrival>, w: seq<Arrival>)
    ensures ViewWorth(v + w) == ViewWorth(v).Plus(ViewWorth(w))
  {
    hide AllFacts, MarkerCount;
    FactsAppend(v, w, 0);
  }

  lemma {:induction false} ViewAppend(a: seq<Item>, b: seq<Item>, s: int)
    ensures View(a + b, s) == View(a, s) + View(b, s)
  {
    if b == [] {
      assert a + b == a;
    } else {
      ViewAppend(a, b[..|b| - 1], s);
      assert (a + b)[..|a + b| - 1] == a + b[..|b| - 1];
    }
  }

  lemma ItemWorth(item: Item, s: int)
    ensures ViewWorth(View([item], s)) == WorthOfItem(item, s)
  {
    assert [item][..0] == [];
    FactsOne(item.arrival, 0);
    if item.sequence == s {
      assert View([item], s) == [item.arrival];
    }
  }

  lemma ObservedWorth(cfg: Config, e: WireEvent, observed: int, s: int)
    ensures
      var item := ItemOf(cfg, e, observed);
      WorthOf(cfg, e, s) == if item.Some? then WorthOfItem(item.value, s) else NO_WORTH
  {
  }

  /** A callback's items are worth what its events are worth, whenever it is observed. */
  lemma {:induction false} ItemsWorth(cfg: Config, events: seq<WireEvent>, observed: int, s: int)
    ensures ViewWorth(View(ItemsOf(cfg, events, observed), s)) == WorthAll(cfg, events, s)
  {
    hide ViewWorth, WorthOf, WorthOfItem, ItemOf, View, Worth.Plus;
    if events == [] {
      NothingWorth(s);
    } else {
      var front, last := events[..|events| - 1], events[|events| - 1];
      ItemsWorth(cfg, front, observed, s);
      ObservedWorth(cfg, last, observed, s);
      var item := ItemOf(cfg, last, observed);
      var before := ItemsOf(cfg, front, observed);
      if item.Some? {
        ViewAppend(before, [item.value], s);
        ViewWorthAppend(View(before, s), View([item.value], s));
        ItemWorth(item.value, s);
      } else {
        assert before + [] == before;
        WorthPlus(WorthAll(cfg, front, s), NO_WORTH, NO_WORTH);
      }
    }
  }

  lemma NothingWorth(s: int)
    ensures ViewWorth(View([], s)) == NO_WORTH
  {
  }

  /** All events that a run's callbacks carry. */
  function Heard(steps: seq<Step>): seq<WireEvent> {
    if steps == [] then [] else
    var step := steps[|steps| - 1];
    Heard(steps[..|steps| - 1]) + if step.Notify? then step.callback.events else []
  }

  /** Callback boundaries and observation times do not change what the delivered events are worth. */
  lemma {:induction false} DeliveredWorth(cfg: Config, steps: seq<Step>, s: int)
    ensures ViewWorth(View(Delivered(cfg, steps), s)) == WorthAll(cfg, Heard(steps), s)
  {
    hide ViewWorth, View, WorthAll, ItemsOf, Worth.Plus;
    if steps == [] {
      NothingWorth(s);
      NoEvents(cfg, s);
    } else {
      var front, step := steps[..|steps| - 1], steps[|steps| - 1];
      DeliveredWorth(cfg, front, s);
      if step.Notify? {
        var c := step.callback;
        ViewAppend(Delivered(cfg, front), ItemsOf(cfg, c.events, c.observed), s);
        ViewWorthAppend(View(Delivered(cfg, front), s), View(ItemsOf(cfg, c.events, c.observed), s));
        ItemsWorth(cfg, c.events, c.observed, s);
        WorthAppend(cfg, Heard(front), c.events, s);
      } else {
        assert Delivered(cfg, front) + [] == Delivered(cfg, front) && Heard(front) + [] == Heard(front);
      }
    }
  }

  lemma NoEvents(cfg: Config, s: int)
    ensures WorthAll(cfg, [], s) == NO_WORTH
  {
  }

  /** A sequence got some arrival exactly when it is worth something. */
  lemma {:induction false} WorthlessView(view: seq<Arrival>)
    ensures SumCounts(ViewWorth(view).counts) + ViewWorth(view).markers == |view|
  {
    if view != [] {
      var front, a := view[..|view| - 1], view[|view| - 1];
      WorthlessView(front);

    }
  }
}
