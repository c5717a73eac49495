/** What one publication contains, and what it adds to the retained records. */
module PublicationLaws {
  import opened Arithmetic
  import opened Common
  import opened Events
  import opened Publication
  import opened SymbolUniverse
  import opened TaskPattern
  import opened GeneratorModel

  // Composition.

  function CountKind(slots: seq<Slot>, kind: EventKind): nat {
    if slots == [] then 0
    else CountKind(slots[..|slots| - 1], kind) + if slots[|slots| - 1].kind == kind then 1 else 0
  }

  lemma {:induction false} CountKindAppend(a: seq<Slot>, b: seq<Slot>, kind: EventKind)
    ensures CountKind(a + b, kind) == CountKind(a, kind) + CountKind(b, kind)
  {
    if b == [] {
      assert a + b == a;
    } else {
      CountKindAppend(a, b[..|b| - 1], kind);
      assert (a + b)[..|a + b| - 1] == a + b[..|b| - 1];
    }
  }

  lemma {:induction false} CountKindUniform(slots: seq<Slot>, own: EventKind, kind: EventKind)
    requires forall i :: 0 <= i < |slots| ==> slots[i].kind == own
    ensures CountKind(slots, kind) == if own == kind then |slots| else 0
  {
    if slots != [] {
      CountKindUniform(slots[..|slots| - 1], own, kind);
    }
  }

  predicate InRange(t: Task, order: seq<nat>) {
    forall k :: 0 <= k < |order| ==> order[k] < |t.pattern.items|
  }

  lemma {:induction false} KindsInOrder(t: Task, publications: nat, order: seq<nat>, random: Random, pool: nat)
    requires InRange(t, order) && Distinct(order) && pool < |t.pattern.items|
    ensures CountKind(SlotsInOrder(t, publications, order, random), t.pattern.items[pool].kind)
         == if pool in order then t.pattern.items[pool].quantity else 0
  {
    hide SlotAt;
    if order != [] {
      var front, last := order[..|order| - 1], order[|order| - 1];
      assert order == front + [last];
      KindsInOrder(t, publications, front, random, pool);
      var block := BlockSlots(t, publications, last, random);
      BlockKind(t, publications, last, random);
      CountKindAppend(SlotsInOrder(t, publications, front, random), block, t.pattern.items[pool].kind);
      CountKindUniform(block, t.pattern.items[last].kind, t.pattern.items[pool].kind);
      if last == pool {
        assert pool !in front;
      }
    }
  }

  lemma BlockKind(t: Task, publications: nat, pool: nat, random: Random)
    requires pool < |t.pattern.items|
    ensures
      var block := BlockSlots(t, publications, pool, random);
      |block| == t.pattern.items[pool].quantity
      && forall i :: 0 <= i < |block| ==> block[i].kind == t.pattern.items[pool].kind
  {
    hide Key, Symbols, BaseAt, SourceAt;
  }

  lemma {:induction false} AbsentKind(t: Task, publications: nat, order: seq<nat>, random: Random, kind: EventKind)
    requires InRange(t, order) && t.pattern.Quantity(kind).None?
    ensures CountKind(SlotsInOrder(t, publications, order, random), kind) == 0
  {
    hide SlotAt;
    if order != [] {
      var front, last := order[..|order| - 1], order[|order| - 1];
      AbsentKind(t, publications, front, random, kind);
      var block := BlockSlots(t, publications, last, random);
      BlockKind(t, publications, last, random);
      CountKindAppend(SlotsInOrder(t, publications, front, random), block, kind);
      CountKindUniform(block, t.pattern.items[last].kind, kind);
    }
  }

  /** Whatever is drawn, a publication has exactly the pattern's quantity of every kind. */
  lemma Composition(t: Task, publications: nat, random: Random, kind: EventKind)
    ensures CountKind(PublicationSlots(t, publications, random), kind) == t.pattern.Quantity(kind).GetOr(0)
  {
    hide SlotsInOrder, CountKind, PoolOrder;
    var order := OrderOf(t, publications, random);
    PoolOrderPermutes(|t.pattern.items|, t.pattern.seed, publications, random);
    if t.pattern.Quantity(kind).Some? {
      var pool := IndexOf(t.pattern.items, kind);
      KindsInOrder(t, publications, order, random, pool);
    } else {
      AbsentKind(t, publications, order, random, kind);
    }
  }

  // No record key twice.

  lemma KeysDiffer(count: nat, a: nat, s: nat, b: nat, r: nat)
    requires a < count && b < count && a != b && s <= MAX_REGIONS && r <= MAX_REGIONS
    ensures Key(Names(count)[a], s) != Key(Names(count)[b], r)
  {
    hide Name, Key;
    NamesDistinct(count);
    NamesPlain(count, a);
    NamesPlain(count, b);
    if Key(Names(count)[a], s) == Key(Names(count)[b], r) {
      KeyIdentifies(Names(count)[a], s, Names(count)[b], r);
    }
  }

  lemma BasesDiffer(t: Task, publications: nat, pool: nat, i: nat, j: nat)
    requires pool < |t.pattern.items| && i < j < t.pattern.items[pool].quantity
    ensures BaseAt(t, publications, pool, i) != BaseAt(t, publications, pool, j)
  {
    hide Symbols, BaseIndex;
    var quantity := t.pattern.items[pool].quantity;
    assert quantity <= t.active;
    BlockPicksDistinct(publications, quantity, t.active);
    var picks := BlockPicks(publications, quantity, t.active);
    assert picks[i] != picks[j];
  }

  lemma SlotsDiffer(t: Task, publications: nat, pool: nat, random: Random, i: nat, j: nat)
    requires pool < |t.pattern.items| && i < j < t.pattern.items[pool].quantity
    ensures SlotAt(t, publications, pool, i, random).symbol != SlotAt(t, publications, pool, j, random).symbol
  {
    BasesDiffer(t, publications, pool, i, j);
    hide Names, Key, BaseAt, SourceAt;
    KeysDiffer(t.pattern.SymbolCount(),
               BaseAt(t, publications, pool, i), SourceAt(t, publications, pool, i, random),
               BaseAt(t, publications, pool, j), SourceAt(t, publications, pool, j, random));
  }

  ghost predicate DistinctSlots(slots: seq<Slot>) {
    forall i, j :: 0 <= i < j < |slots| && slots[i].kind == slots[j].kind ==> slots[i].symbol != slots[j].symbol
  }

  lemma BlockDistinct(t: Task, publications: nat, pool: nat, random: Random)
    requires pool < |t.pattern.items|
    ensures DistinctSlots(BlockSlots(t, publications, pool, random))
  {
    hide SlotAt;
    var block := BlockSlots(t, publications, pool, random);
    forall i, j | 0 <= i < j < |block| ensures block[i].symbol != block[j].symbol {
      SlotsDiffer(t, publications, pool, random, i, j);
    }
  }

  lemma {:induction false} SlotsFromPools(t: Task, publications: nat, order: seq<nat>, random: Random, i: nat)
    requires InRange(t, order) && i < |SlotsInOrder(t, publications, order, random)|
    ensures exists k :: 0 <= k < |order|
              && SlotsInOrder(t, publications, order, random)[i].kind == t.pattern.items[order[k]].kind
  {
    hide SlotAt;
    var front, last := order[..|order| - 1], order[|order| - 1];
    var before := SlotsInOrder(t, publications, front, random);
    BlockKind(t, publications, last, random);
    if i < |before| {
      SlotsFromPools(t, publications, front, random, i);
      var k :| 0 <= k < |front| && before[i].kind == t.pattern.items[front[k]].kind;
      assert order[k] == front[k];
    } else {
      assert order[|order| - 1] == last;
    }
  }

  /** No event of a kind is used twice in a publication, so reusing event objects never overwrites one. */
  lemma {:induction false} OrderDistinct(t: Task, publications: nat, order: seq<nat>, random: Random)
    requires InRange(t, order) && Distinct(order)
    ensures DistinctSlots(SlotsInOrder(t, publications, order, random))
  {
    hide SlotAt;
    if order != [] {
      var front, last := order[..|order| - 1], order[|order| - 1];
      var before, block := SlotsInOrder(t, publications, front, random), BlockSlots(t, publications, last, random);
      OrderDistinct(t, publications, front, random);
      BlockDistinct(t, publications, last, random);
      BlockKind(t, publications, last, random);
      forall i | 0 <= i < |before| ensures before[i].kind != t.pattern.items[last].kind {
        SlotsFromPools(t, publications, front, random, i);
        var k :| 0 <= k < |front| && before[i].kind == t.pattern.items[front[k]].kind;
        assert order[k] == front[k] && order[|order| - 1] == last;
      }
    }
  }

  lemma PublicationDistinct(t: Task, publications: nat, random: Random)
    ensures DistinctSlots(PublicationSlots(t, publications, random))
  {
    hide SlotsInOrder, PoolOrder;
    PoolOrderPermutes(|t.pattern.items|, t.pattern.seed, publications, random);
    OrderDistinct(t, publications, OrderOf(t, publications, random), random);
  }

  /** The k-th event a pool ever publishes updates base symbol k modulo the active count; TimeAndSale is composite. */
  lemma SlotRoundRobin(t: Task, publications: nat, pool: nat, i: nat, random: Random)
    requires pool < |t.pattern.items| && i < t.pattern.items[pool].quantity
    ensures t.active > 0
    ensures
      var slots := BlockSlots(t, publications, pool, random);
      var k := publications * t.pattern.items[pool].quantity + i;
      var source := SourceAt(t, publications, pool, i, random);
      && k % t.active < |Symbols(t.pattern)|
      && slots[i] == Slot(t.pattern.items[pool].kind, Key(Symbols(t.pattern)[k % t.active], source), source > 0)
      && (t.pattern.items[pool].kind.TimeAndSale? ==> source == 0)
  {
    hide Key, Symbols;
    var quantity := t.pattern.items[pool].quantity;
    var base := BaseAt(t, publications, pool, i);
    ModSum(i, publications * quantity, t.active);
  }

  // Wire events.

  /** The events of slots, without TimeAndSale events of unsubscribed symbols. */
  function Emitted(slots: seq<Slot>, stamp: Stamp, subscribed: set<string>): seq<WireEvent> {
    if slots == [] then [] else
    var last := slots[|slots| - 1];
    Emitted(slots[..|slots| - 1], stamp, subscribed)
    + if last.kind.TimeAndSale? && last.symbol !in subscribed then [] else [EventFor(last.kind, last.symbol, stamp)]
  }

  lemma {:induction false} FilledEvents(d: Draft, slots: seq<Slot>, stamp: Stamp, subscribed: set<string>)
    ensures FillSlots(d, slots, stamp, subscribed).events == d.events + Emitted(slots, stamp, subscribed)
  {
    hide EventFor;
    if slots == [] {
      assert d.events + [] == d.events;
    } else {
      FilledEvents(d, slots[..|slots| - 1], stamp, subscribed);
    }
  }

  // Retained records.

  predicate Ticks(slots: seq<Slot>, symbol: string) {
    exists i :: 0 <= i < |slots| && slots[i].kind.TimeAndSale? && slots[i].symbol == symbol
  }

  /** A publication adds one record to the log of each TimeAndSale symbol it updates, and nothing to other logs. */
  lemma {:induction false} FilledLogs(d: Draft, slots: seq<Slot>, stamp: Stamp, subscribed: set<string>, symbol: string)
    requires DistinctSlots(slots)
    ensures LogOf(FillSlots(d, slots, stamp, subscribed).logs, symbol)
         == LogOf(d.logs, symbol) + if Ticks(slots, symbol) then [RecordOf(stamp)] else []
  {
    hide EventFor;
    if slots == [] {
      assert LogOf(d.logs, symbol) + [] == LogOf(d.logs, symbol);
    } else {
      var front, last := slots[..|slots| - 1], slots[|slots| - 1];
      FilledLogs(d, front, stamp, subscribed, symbol);
      LastTicks(slots, symbol);
      if last.kind.TimeAndSale? && last.symbol == symbol {
        assert LogOf(d.logs, symbol) + [] == LogOf(d.logs, symbol);
      }
    }
  }

  lemma LastTicks(slots: seq<Slot>, symbol: string)
    requires slots != [] && DistinctSlots(slots)
    ensures
      var front, last := slots[..|slots| - 1], slots[|slots| - 1];
      var here := last.kind.TimeAndSale? && last.symbol == symbol;
      (Ticks(slots, symbol) <==> Ticks(front, symbol) || here) && !(Ticks(front, symbol) && here)
  {
    var front, last := slots[..|slots| - 1], slots[|slots| - 1];
    forall i | 0 <= i < |front| ensures front[i] == slots[i] {
    }
    if Ticks(front, symbol) {
      var i :| 0 <= i < |front| && front[i].kind.TimeAndSale? && front[i].symbol == symbol;
      assert slots[i] == front[i];
    }
    assert slots[|slots| - 1] == last;
  }

  lemma PublishedLogs(config: Config, a: Active, subscribed: set<string>, nowNanos: nat, symbol: string)
    ensures
      var slots := PublicationSlots(a.task, a.publications, config.random);
      LogOf(Published(config, a, subscribed, nowNanos).logs, symbol)
      == LogOf(a.logs, symbol) + if Ticks(slots, symbol) then [RecordOf(NextStamp(config, a, nowNanos))] else []
  {
    hide PublicationSlots, LastKind, FillSlots, LogOf;
    PublicationDistinct(a.task, a.publications, config.random);
    FilledLogs(Draft([], a.logs, a.routes), PublicationSlots(a.task, a.publications, config.random),
               NextStamp(config, a, nowNanos), subscribed, symbol);
  }

  // Counters.

  lemma {:induction false} FilledRoutes(d: Draft, slots: seq<Slot>, stamp: Stamp, subscribed: set<string>)
    ensures
      var r := FillSlots(d, slots, stamp, subscribed).routes;
      r.composite + r.regional == d.routes.composite + d.routes.regional + |slots|
  {
    hide EventFor;
    if slots != [] {
      FilledRoutes(d, slots[..|slots| - 1], stamp, subscribed);
    }
  }

  function QuantitySum(t: Task, order: seq<nat>): nat
    requires InRange(t, order)
  {
    if order == [] then 0
    else QuantitySum(t, order[..|order| - 1]) + t.pattern.items[order[|order| - 1]].quantity
  }

  lemma {:induction false} SlotTotal(t: Task, publications: nat, order: seq<nat>, random: Random)
    requires InRange(t, order)
    ensures |SlotsInOrder(t, publications, order, random)| == QuantitySum(t, order)
  {
    hide SlotAt;
    if order != [] {
      SlotTotal(t, publications, order[..|order| - 1], random);
      BlockKind(t, publications, order[|order| - 1], random);
    }
  }

  lemma {:induction false} QuantitySumAppend(t: Task, a: seq<nat>, b: seq<nat>)
    requires InRange(t, a) && InRange(t, b)
    ensures InRange(t, a + b) && QuantitySum(t, a + b) == QuantitySum(t, a) + QuantitySum(t, b)
  {
    if b == [] {
      assert a + b == a;
    } else {
      QuantitySumAppend(t, a, b[..|b| - 1]);
      assert (a + b)[..|a + b| - 1] == a + b[..|b| - 1];
    }
  }

  lemma QuantitySumOne(t: Task, pool: nat)
    requires pool < |t.pattern.items|
    ensures InRange(t, [pool]) && QuantitySum(t, [pool]) == t.pattern.items[pool].quantity
  {
    assert [pool][..0] == [];
  }

  lemma {:induction false} QuantitySumPermute(t: Task, a: seq<nat>, b: seq<nat>)
    requires InRange(t, a) && InRange(t, b) && multiset(a) == multiset(b)
    ensures QuantitySum(t, a) == QuantitySum(t, b)
    decreases |a|
  {
    hide QuantitySum, Runnable;
    if a == [] {
      assert |b| == |multiset(b)| == 0;
      assert b == a;
    } else {
      var n := |a| - 1;
      BagOfFront(a);
      var j := IndexIn(b, a[n], a);
      var rest := b[..j] + b[j + 1..];
      BagWithout(b, j);
      QuantitySumPermute(t, a[..n], rest);
      SplitSums(t, a[..n], [], a[n]);
      SplitSums(t, b[..j], b[j + 1..], b[j]);
      assert a[..n] + [a[n]] + [] == a && a[..n] + [] == a[..n];
    }
  }

  lemma BagWithout(s: seq<nat>, j: nat)
    requires j < |s|
    ensures s == s[..j] + [s[j]] + s[j + 1..]
    ensures multiset(s[..j] + s[j + 1..]) == multiset(s) - multiset{s[j]}
  {
    assert s == s[..j] + [s[j]] + s[j + 1..];
  }

  lemma SplitSums(t: Task, a: seq<nat>, b: seq<nat>, x: nat)
    requires InRange(t, a) && InRange(t, b) && x < |t.pattern.items|
    ensures InRange(t, a + [x] + b) && InRange(t, a + b)
    ensures QuantitySum(t, a + [x] + b) == QuantitySum(t, a + b) + t.pattern.items[x].quantity
  {
    hide QuantitySum, Runnable;
    QuantitySumOne(t, x);
    QuantitySumAppend(t, a, [x]);
    QuantitySumAppend(t, a + [x], b);
    QuantitySumAppend(t, a, b);
  }

  lemma {:induction false} IotaSum(t: Task, n: nat)
    requires n <= |t.pattern.items|
    ensures InRange(t, Iota(n)) && QuantitySum(t, Iota(n)) == Total(t.pattern.items[..n])
  {
    hide Runnable;
    if n > 0 {
      IotaSum(t, n - 1);
      assert Iota(n)[..n - 1] == Iota(n - 1);
      assert t.pattern.items[..n][..n - 1] == t.pattern.items[..n - 1];
    }
  }

  /** A publication has as many events as the pattern says, counting those retained but not published. */
  lemma PublicationSize(t: Task, publications: nat, random: Random)
    ensures |PublicationSlots(t, publications, random)| == t.pattern.EventCount()
  {
    hide Total, SlotsInOrder, QuantitySum, PoolOrder, Runnable;
    var n := |t.pattern.items|;
    var order := OrderOf(t, publications, random);
    PoolOrderPermutes(n, t.pattern.seed, publications, random);
    SlotTotal(t, publications, order, random);
    IotaSum(t, n);
    QuantitySumPermute(t, order, Iota(n));
    assert t.pattern.items[..n] == t.pattern.items;
  }
}
