/** One publication's shape: block order, round-robin base symbols and event pools (src/server.cpp). */
module Publication {
  import opened Common
  import opened Arithmetic
  import opened Events
  import opened TaskPattern
  import opened SymbolUniverse

  // Block order.

  function Iota(n: nat): seq<nat> {
    seq(n, i => i)
  }

  function Swapped<T>(s: seq<T>, i: nat, j: nat): (r: seq<T>)
    requires i < |s| && j < |s|
    ensures |r| == |s| && r[i] == s[j] && r[j] == s[i]
  {
    s[i := s[j]][j := s[i]]
  }

  /** The position exchanged with position n - 1. */
  function Selected(draw: nat -> nat, n: nat): (j: nat)
    requires n > 0
    ensures j < n
  {
    draw(n) % n
  }

  /** A Fisher-Yates pass that settles positions n - 1 down to 1; draw(i) is the random number behind position i - 1. */
  function Shuffled<T>(order: seq<T>, n: nat, draw: nat -> nat): (r: seq<T>)
    requires n <= |order|
    ensures |r| == |order|
    decreases n
  {
    if n <= 1 then order else Shuffled(Swapped(order, n - 1, Selected(draw, n)), n - 1, draw)
  }

  method Shuffle(order: array<nat>, draw: nat -> nat)
    modifies order
    ensures order[..] == Shuffled(old(order[..]), order.Length, draw)
  {
    var i := order.Length;
    while i > 1
      invariant 0 <= i <= order.Length
      invariant Shuffled(order[..], i, draw) == Shuffled(old(order[..]), order.Length, draw)
    {
      var selected := Selected(draw, i);
      ghost var before := order[..];
      order[i - 1], order[selected] := order[selected], order[i - 1];
      assert order[..] == Swapped(before, i - 1, selected);
      i := i - 1;
    }
  }

  lemma SwappedBag<T>(s: seq<T>, i: nat, j: nat)
    requires i < |s| && j < |s|
    ensures multiset(Swapped(s, i, j)) == multiset(s)
  {
  }

  /** Shuffling only reorders. */
  lemma {:induction false} ShuffledPermutes<T>(order: seq<T>, n: nat, draw: nat -> nat)
    requires n <= |order|
    ensures multiset(Shuffled(order, n, draw)) == multiset(order)
    decreases n
  {
    hide Swapped;
    if n > 1 {
      SwappedBag(order, n - 1, Selected(draw, n));
      ShuffledPermutes(Swapped(order, n - 1, Selected(draw, n)), n - 1, draw);
    }
  }

  lemma {:induction false} DrawsAgree<T>(order: seq<T>, n: nat, a: nat -> nat, b: nat -> nat)
    requires n <= |order| && forall i :: 2 <= i <= n ==> a(i) == b(i)
    ensures Shuffled(order, n, a) == Shuffled(order, n, b)
    decreases n
  {
    if n > 1 {
      DrawsAgree(Swapped(order, n - 1, Selected(a, n)), n - 1, a, b);
    }
  }

  /** A pass over the first n positions leaves the others alone. */
  lemma {:induction false} ShuffledFront<T>(front: seq<T>, back: seq<T>, n: nat, draw: nat -> nat)
    requires n <= |front|
    ensures Shuffled(front + back, n, draw) == Shuffled(front, n, draw) + back
    decreases n
  {
    if n > 1 {
      var j := Selected(draw, n);
      assert Swapped(front + back, n - 1, j) == Swapped(front, n - 1, j) + back;
      ShuffledFront(Swapped(front, n - 1, j), back, n - 1, draw);
    }
  }

  /** Every reordering is the outcome of some draws: the shuffle reaches all block orders. */
  lemma {:induction false} ShuffleReachesAll(order: seq<nat>, target: seq<nat>)
    requires multiset(order) == multiset(target)
    ensures exists draw: nat -> nat :: Shuffled(order, |order|, draw) == target
    decreases |order|, 1
  {
    var n := |order|;
    assert n == |multiset(order)| == |multiset(target)| == |target|;
    if n <= 1 {
      ShortBags(order, target);
      var zero := (i: nat) => 0;
      assert Shuffled(order, n, zero) == target;
    } else {
      ReachStep(order, target);
    }
  }

  lemma ReachStep(order: seq<nat>, target: seq<nat>)
    requires 1 < |order| == |target| && multiset(order) == multiset(target)
    ensures exists draw: nat -> nat :: Shuffled(order, |order|, draw) == target
    decreases |order|, 0
  {
    hide Swapped, Shuffled;
    var n := |order|;
    var j := Chosen(order, target);
    var front, last := Swapped(order, n - 1, j)[..n - 1], target[n - 1];
    ShuffleReachesAll(front, target[..n - 1]);
    var rest: nat -> nat :| Shuffled(front, n - 1, rest) == target[..n - 1];
    var draw := (i: nat) => if i == n then j else rest(i);
    ModWrap(j, n);
    DrawsAgree(front, n - 1, draw, rest);
    ShuffledLast(order, n, front, last, draw);
    assert target == target[..n - 1] + [last];
  }

  lemma ShuffledStep<T>(order: seq<T>, n: nat, draw: nat -> nat)
    requires 1 < n <= |order|
    ensures Shuffled(order, n, draw) == Shuffled(Swapped(order, n - 1, Selected(draw, n)), n - 1, draw)
  {
  }

  lemma ShuffledLast(order: seq<nat>, n: nat, front: seq<nat>, last: nat, draw: nat -> nat)
    requires 1 < n == |order| && |front| == n - 1
    requires Swapped(order, n - 1, Selected(draw, n)) == front + [last]
    ensures Shuffled(order, n, draw) == Shuffled(front, n - 1, draw) + [last]
  {
    hide Swapped, Shuffled, Selected;
    ShuffledStep(order, n, draw);
    ShuffledFront(front, [last], n - 1, draw);
  }

  lemma ShortBags(a: seq<nat>, b: seq<nat>)
    requires |a| == |b| <= 1 && multiset(a) == multiset(b)
    ensures a == b
  {
    if |a| == 1 {
      assert a == [a[0]] && b == [b[0]];
      assert a[0] in multiset(b);
    }
  }

  lemma Chosen(order: seq<nat>, target: seq<nat>) returns (j: nat)
    requires 1 < |order| == |target| && multiset(order) == multiset(target)
    ensures j < |order|
    ensures
      var n := |order|;
      var next := Swapped(order, n - 1, j);
      next == next[..n - 1] + [target[n - 1]] && multiset(next[..n - 1]) == multiset(target[..n - 1])
  {
    hide Swapped;
    var n := |order|;
    j := IndexIn(order, target[n - 1], target);
    var next := Swapped(order, n - 1, j);
    SwappedBag(order, n - 1, j);
    LastOfBag(next, target);
  }

  lemma IndexIn(s: seq<nat>, x: nat, t: seq<nat>) returns (j: nat)
    requires multiset(s) == multiset(t) && x in t
    ensures j < |s| && s[j] == x
  {
    assert x in multiset(t);
    assert x in s;
    j :| 0 <= j < |s| && s[j] == x;
  }

  lemma LastOfBag(a: seq<nat>, b: seq<nat>)
    requires a != [] && b != [] && a[|a| - 1] == b[|b| - 1] && multiset(a) == multiset(b)
    ensures multiset(a[..|a| - 1]) == multiset(b[..|b| - 1])
    ensures a == a[..|a| - 1] + [b[|b| - 1]]
  {
    BagOfFront(a);
    BagOfFront(b);
  }

  lemma BagOfFront(s: seq<nat>)
    requires s != []
    ensures s == s[..|s| - 1] + [s[|s| - 1]]
    ensures multiset(s[..|s| - 1]) == multiset(s) - multiset{s[|s| - 1]}
  {
    assert s == s[..|s| - 1] + [s[|s| - 1]];
  }

  // Random numbers.

  /**
   * The generator's random numbers: `order` by seed, publication and position, `region` by seed, publication, pool and
   * slot. Nothing is assumed about the values.
   */
  datatype Random = Random(order: (nat, nat, nat) -> nat, region: (nat, nat, nat, nat) -> nat)

  /** Seed of the regional draws when the pattern has none. */
  const DEFAULT_REGION_SEED := 0x22805

  /** Order of the event blocks of a publication. */
  function PoolOrder(n: nat, seed: Option<nat>, publications: nat, random: Random): (order: seq<nat>)
    ensures |order| == n
  {
    match seed
    case None => Iota(n)
    case Some(s) => Shuffled(Iota(n), n, (i: nat) => random.order(s, publications, i))
  }

  /** Resets the pool order and shuffles it in place when the pattern is seeded. */
  method ArrangePools(order: array<nat>, seed: Option<nat>, publications: nat, random: Random)
    modifies order
    ensures order[..] == PoolOrder(order.Length, seed, publications, random)
  {
    for i := 0 to order.Length
      invariant order[..i] == Iota(i)
    {
      order[i] := i;
      assert order[..i + 1] == order[..i] + [i];
    }
    assert order[..] == Iota(order.Length);
    if seed.Some? {
      Shuffle(order, (i: nat) => random.order(seed.value, publications, i));
    }
  }

  /** Whatever is drawn, the block order names every pool exactly once. */
  lemma PoolOrderPermutes(n: nat, seed: Option<nat>, publications: nat, random: Random)
    ensures
      var order := PoolOrder(n, seed, publications, random);
      && multiset(order) == multiset(Iota(n))
      && Distinct(order)
      && forall p :: p in order <==> 0 <= p < n
  {
    var order := PoolOrder(n, seed, publications, random);
    if seed.Some? {
      ShuffledPermutes(Iota(n), n, (i: nat) => random.order(seed.value, publications, i));
    }
    forall p ensures p in order <==> 0 <= p < n {
      assert p in order <==> p in multiset(order);
      assert p in Iota(n) <==> p in multiset(Iota(n));
      if 0 <= p < n {
        assert Iota(n)[p] == p;
      }
    }
    forall i, j | 0 <= i < j < n ensures order[i] != order[j] {
      if order[i] == order[j] {
        TwiceInBag(order, i, j);
        IotaOnce(n, order[i]);
      }
    }
  }

  lemma TwiceInBag<T>(s: seq<T>, i: nat, j: nat)
    requires i < j < |s| && s[i] == s[j]
    ensures multiset(s)[s[i]] >= 2
  {
    assert s == s[..i] + [s[i]] + s[i + 1..j] + [s[j]] + s[j + 1..];
  }

  lemma {:induction false} IotaOnce(n: nat, x: nat)
    ensures multiset(Iota(n))[x] == if x < n then 1 else 0
  {
    if n > 0 {
      IotaOnce(n - 1, x);
      assert Iota(n) == Iota(n - 1) + [n - 1];
    }
  }

  // Base symbols.

  /** Base symbol of slot i of a block. */
  function BaseIndex(publications: nat, quantity: nat, i: nat, active: nat): (b: nat)
    requires active > 0
    ensures b < active
  {
    (publications * quantity % active + i) % active
  }

  function BlockPicks(publications: nat, quantity: nat, active: nat): seq<nat>
    requires active > 0
  {
    seq(quantity, i requires 0 <= i < quantity => BaseIndex(publications, quantity, i, active))
  }

  /** Base symbols of a pool's events over the first n publications. */
  function Picks(n: nat, quantity: nat, active: nat): seq<nat>
    requires active > 0
  {
    if n == 0 then [] else Picks(n - 1, quantity, active) + BlockPicks(n - 1, quantity, active)
  }

  /** The symbols of one block are pairwise distinct when there are enough of them. */
  lemma BlockPicksDistinct(publications: nat, quantity: nat, active: nat)
    requires 0 < quantity <= active
    ensures Distinct(BlockPicks(publications, quantity, active))
  {
    var first := publications * quantity % active;
    forall i, j | 0 <= i < j < quantity
      ensures BaseIndex(publications, quantity, i, active) != BaseIndex(publications, quantity, j, active)
    {
      ModWrap(first + i, active);
      ModWrap(first + j, active);
    }
  }

  /** Of the base symbols picked for a pool by successive publications, the k-th is symbol k modulo their number. */
  lemma {:induction false} PicksRoundRobin(n: nat, quantity: nat, active: nat)
    requires active > 0
    ensures |Picks(n, quantity, active)| == n * quantity
    ensures forall k :: 0 <= k < n * quantity ==> Picks(n, quantity, active)[k] == k % active
  {
    if n > 0 {
      PicksRoundRobin(n - 1, quantity, active);
      Distribute(n - 1, 1, quantity);
      var before := (n - 1) * quantity;
      forall k | before <= k < n * quantity ensures Picks(n, quantity, active)[k] == k % active {
        ModSum(k - before, before, active);
      }
    }
  }

  function Count(s: seq<nat>, b: nat): nat {
    if s == [] then 0 else Count(s[..|s| - 1], b) + if s[|s| - 1] == b then 1 else 0
  }

  lemma {:induction false} RoundRobinCount(s: seq<nat>, active: nat, b: nat)
    requires active > 0 && b < active && forall k :: 0 <= k < |s| ==> s[k] == k % active
    ensures Count(s, b) == |s| / active + if b < |s| % active then 1 else 0
  {
    if s == [] {
      DivModUnique(0, 0, 0, active);
    } else {
      var n := |s| - 1;
      RoundRobinCount(s[..n], active, b);
      DivMod(n, active);
      var q, r := n / active, n % active;
      if r + 1 < active {
        DivModUnique(n + 1, q, r + 1, active);
      } else {
        Distribute(q, 1, active);
        DivModUnique(n + 1, q + 1, 0, active);
      }
    }
  }

  /** After any number of publications, the base symbols' event counts within a pool differ by at most one. */
  lemma Fairness(n: nat, quantity: nat, active: nat, a: nat, b: nat)
    requires a < active && b < active
    ensures Count(Picks(n, quantity, active), a) <= Count(Picks(n, quantity, active), b) + 1
  {
    var picks := Picks(n, quantity, active);
    PicksRoundRobin(n, quantity, active);
    RoundRobinCount(picks, active, a);
    RoundRobinCount(picks, active, b);
  }

  // Active symbols and event pools.

  predicate Suitable(p: Pattern, count: nat) {
    count <= p.SymbolCount() && forall i :: 0 <= i < |p.items| ==> p.items[i].quantity <= count
  }

  /** The number of base symbols that receive publications, unless the configured one does not suit the pattern. */
  method ResolveActiveSymbolCount(configured: Option<nat>, p: Pattern) returns (r: Option<nat>)
    ensures
      var count := configured.GetOr(p.SymbolCount());
      r == if Suitable(p, count) then Some(count) else None
  {
    var count := configured.GetOr(p.SymbolCount());
    if count > p.SymbolCount() {
      return None;
    }
    for i := 0 to |p.items|
      invariant forall j :: 0 <= j < i ==> p.items[j].quantity <= count
    {
      if p.items[i].quantity > count {
        return None;
      }
    }
    r := Some(count);
  }

  /** The default count always suits a valid pattern, and a suitable count is never zero. */
  lemma DefaultSuits(p: Pattern, count: nat)
    requires p.Valid()
    ensures Suitable(p, p.SymbolCount())
    ensures Suitable(p, count) ==> count > 0
  {
    forall i | 0 <= i < |p.items| ensures p.items[i].quantity <= p.SymbolCount() {
      LargestBounds(p.items, i);
    }
    assert p.items[0].quantity > 0;
  }

  datatype Pool = Pool(kind: EventKind, quantity: nat, symbols: seq<string>)

  function LeadingNames(p: Pattern, active: nat): seq<string>
    requires active <= p.SymbolCount()
  {
    Symbols(p)[..active]
  }

  function PoolOf(item: Item, p: Pattern, active: nat): Pool
    requires active <= p.SymbolCount() && p.regions <= MAX_REGIONS
  {
    var names := LeadingNames(p, active);
    Pool(item.kind, item.quantity, if item.kind.TimeAndSale? then names else Keys(names, p.regions))
  }

  function Pools(p: Pattern, active: nat): seq<Pool>
    requires active <= p.SymbolCount() && p.regions <= MAX_REGIONS
  {
    seq(|p.items|, i requires 0 <= i < |p.items| => PoolOf(p.items[i], p, active))
  }

  method MakeEventPools(p: Pattern, active: nat) returns (pools: seq<Pool>)
    requires active <= p.SymbolCount() && p.regions <= MAX_REGIONS
    ensures pools == Pools(p, active)
  {
    hide Keys;
    var baseSymbols := GenerateSymbols(p);
    baseSymbols := baseSymbols[..active];
    var marketSymbols := GenerateKeys(baseSymbols, p.regions);
    pools := [];
    for i := 0 to |p.items|
      invariant |pools| == i
      invariant forall j :: 0 <= j < i ==> pools[j] == PoolOf(p.items[j], p, active)
    {
      var item := p.items[i];
      var symbols := if item.kind.TimeAndSale? then baseSymbols else marketSymbols;
      pools := pools + [Pool(item.kind, item.quantity, symbols)];
    }
  }

  /** The source of a slot: TimeAndSale is always composite. */
  function SourceOf(kind: EventKind, regions: nat, draw: nat): (source: nat)
    ensures source <= regions
  {
    if kind.TimeAndSale? || regions == 0 then 0 else draw % (regions + 1)
  }

  /** Every slot's pool index is in range and holds the key of its base symbol at its source. */
  lemma SlotInPool(item: Item, p: Pattern, active: nat, source: nat, base: nat)
    requires active <= p.SymbolCount() && p.regions <= MAX_REGIONS && base < active
    requires source <= p.regions && (item.kind.TimeAndSale? ==> source == 0)
    ensures 0 <= source * active + base < |PoolOf(item, p, active).symbols|
    ensures PoolOf(item, p, active).symbols[source * active + base] == Key(Symbols(p)[base], source)
  {
    var names := LeadingNames(p, active);
    if !item.kind.TimeAndSale? {
      KeysAt(names, p.regions, source, base);
    }
  }

  /** Pools use only symbols that the task requires subscriptions for. */
  lemma PoolSymbolsCovered(item: Item, p: Pattern, active: nat, i: nat)
    requires active <= p.SymbolCount() && p.regions <= MAX_REGIONS
    requires i < |PoolOf(item, p, active).symbols|
    ensures PoolOf(item, p, active).symbols[i] in (if item.kind.TimeAndSale? then Symbols(p) else MarketSymbols(p))
  {
    if !item.kind.TimeAndSale? {
      LeadingKeys(Symbols(p), active, p.regions, i);
    }
  }
}
