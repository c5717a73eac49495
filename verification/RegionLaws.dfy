/** Which record keys a publication updates: composite and regional ones, by the numbers drawn. */
module RegionLaws {
  import opened Arithmetic
  import opened Common
  import opened Events
  import opened GeneratorLaws
  import opened GeneratorModel
  import opened Publication
  import opened PublicationLaws
  import opened RunFairness
  import opened ServerStreams
  import opened SymbolUniverse
  import opened TaskPattern

  /** The number drawn for a slot. */
  function Drawn(t: Task, publications: nat, pool: nat, i: nat, random: Random): nat {
    random.region(t.pattern.seed.GetOr(DEFAULT_REGION_SEED), publications, pool, i)
  }

  lemma RemainderOf(q: nat, n: nat, r: nat, draw: nat)
    requires r < n && draw == q * n + r
    ensures draw % n == r
  {
    DivModUnique(draw, q, r, n);
  }

  /** The record key of base symbol k modulo the active count, at the drawn number modulo the number of sources. */
  lemma SlotKey(t: Task, publications: nat, pool: nat, i: nat, random: Random, q: nat, source: nat)
    requires pool < |t.pattern.items| && i < t.pattern.items[pool].quantity
    requires !t.pattern.items[pool].kind.TimeAndSale? && source <= t.pattern.regions
    requires Drawn(t, publications, pool, i, random) == q * (t.pattern.regions + 1) + source
    ensures t.active > 0
    ensures
      var base := (publications * t.pattern.items[pool].quantity + i) % t.active;
      && base < |Symbols(t.pattern)|
      && BlockSlots(t, publications, pool, random)[i].kind == t.pattern.items[pool].kind
      && BlockSlots(t, publications, pool, random)[i].symbol == Key(Symbols(t.pattern)[base], source)
  {
    hide Key, Symbols, BlockSlots;
    RemainderOf(q, t.pattern.regions + 1, source, Drawn(t, publications, pool, i, random));
    SlotRoundRobin(t, publications, pool, i, random);
  }

  /** TimeAndSale always updates the composite record key. */
  lemma CompositeKey(t: Task, publications: nat, pool: nat, i: nat, random: Random)
    requires pool < |t.pattern.items| && i < t.pattern.items[pool].quantity
    requires t.pattern.items[pool].kind.TimeAndSale?
    ensures t.active > 0
    ensures
      var base := (publications * t.pattern.items[pool].quantity + i) % t.active;
      base < |Symbols(t.pattern)| && BlockSlots(t, publications, pool, random)[i].symbol == Symbols(t.pattern)[base]
  {
    hide Symbols, BlockSlots;
    SlotRoundRobin(t, publications, pool, i, random);
  }

  predicate MarketSlot(t: Task, pool: int, i: int) {
    && 0 <= pool < |t.pattern.items| && 0 <= i < t.pattern.items[pool].quantity
    && !t.pattern.items[pool].kind.TimeAndSale?
  }

  /** Every choice of a source for each slot is drawn by some random numbers. */
  lemma RegionsReachAll(t: Task, publications: nat, order: (nat, nat, nat) -> nat, choice: (nat, nat) -> nat)
    returns (random: Random)
    requires forall pool, i :: choice(pool, i) <= t.pattern.regions
    ensures random.order == order
    ensures forall pool, i :: MarketSlot(t, pool, i) ==> HasKey(t, publications, pool, i, random, choice(pool, i))
  {
    random := Random(order, (seed: nat, p: nat, pool: nat, i: nat) => choice(pool, i));
    forall pool, i | MarketSlot(t, pool, i)
      ensures HasKey(t, publications, pool, i, random, choice(pool, i))
    {
      assert Drawn(t, publications, pool, i, random) == 0 * (t.pattern.regions + 1) + choice(pool, i);
      SlotKey(t, publications, pool, i, random, 0, choice(pool, i));
    }
  }

  /** Slot i of a pool's block updates its base symbol's record key at this source. */
  predicate HasKey(t: Task, publications: nat, pool: nat, i: nat, random: Random, source: nat)
    requires pool < |t.pattern.items| && i < t.pattern.items[pool].quantity
  {
    && source <= MAX_REGIONS && t.active > 0
    && var base := (publications * t.pattern.items[pool].quantity + i) % t.active;
    && base < |Symbols(t.pattern)|
    && BlockSlots(t, publications, pool, random)[i].symbol == Key(Symbols(t.pattern)[base], source)
  }

  // Counting.

  predicate IsRegional(symbol: string) {
    '&' in symbol
  }

  lemma KeyRegional(name: string, source: nat)
    requires NoAmpersand(name) && source <= MAX_REGIONS
    ensures IsRegional(Key(name, source)) <==> source > 0
  {
    if source > 0 {
      assert Key(name, source)[|name|] == '&';
    }
  }

  /** Slots whose record key carries a region suffix. */
  function RegionalSlots(slots: seq<Slot>): nat {
    if slots == [] then 0
    else RegionalSlots(slots[..|slots| - 1]) + if IsRegional(slots[|slots| - 1].symbol) then 1 else 0
  }

  predicate HonestSlots(slots: seq<Slot>) {
    forall i :: 0 <= i < |slots| ==> HonestSlot(slots[i])
  }

  /** The slot is marked as regional exactly when its key is, which TimeAndSale's never is. */
  predicate HonestSlot(slot: Slot) {
    (slot.regional <==> IsRegional(slot.symbol)) && (slot.kind.TimeAndSale? ==> !IsRegional(slot.symbol))
  }

  lemma SlotHonest(t: Task, publications: nat, pool: nat, i: nat, random: Random)
    requires pool < |t.pattern.items| && i < t.pattern.items[pool].quantity
    ensures HonestSlot(SlotAt(t, publications, pool, i, random))
  {
    hide Key, Names, SourceAt, IsRegional, BaseAt;
    var source, base := SourceAt(t, publications, pool, i, random), BaseAt(t, publications, pool, i);
    SlotRoundRobin(t, publications, pool, i, random);
    NamesPlain(t.pattern.SymbolCount(), base);
    KeyRegional(Names(t.pattern.SymbolCount())[base], source);
  }

  lemma {:induction false} OrderHonest(t: Task, publications: nat, order: seq<nat>, random: Random)
    requires InRange(t, order)
    ensures HonestSlots(SlotsInOrder(t, publications, order, random))
  {
    hide SlotAt, HonestSlot;
    if order != [] {
      var front, last := order[..|order| - 1], order[|order| - 1];
      OrderHonest(t, publications, front, random);
      forall i | 0 <= i < t.pattern.items[last].quantity ensures HonestSlot(SlotAt(t, publications, last, i, random)) {
        SlotHonest(t, publications, last, i, random);
      }
    }
  }

  lemma {:induction false} FilledRegional(d: Draft, slots: seq<Slot>, stamp: Stamp, subscribed: set<string>)
    requires HonestSlots(slots)
    ensures FillSlots(d, slots, stamp, subscribed).routes.regional == d.routes.regional + RegionalSlots(slots)
  {
    hide EventFor, IsRegional;
    if slots != [] {
      FilledRegional(d, slots[..|slots| - 1], stamp, subscribed);
      assert HonestSlot(slots[|slots| - 1]);
    }
  }

  /** A published event of a market kind for a regional record key. */
  predicate IsRegionalEvent(e: WireEvent) {
    match e
    case QuoteEvent(symbol, _) => IsRegional(symbol)
    case TradeEvent(symbol, _, _) => IsRegional(symbol)
    case TradeEthEvent(symbol, _, _) => IsRegional(symbol)
    case SummaryEvent(symbol, _) => IsRegional(symbol)
    case _ => false
  }

  function RegionalEvents(events: seq<WireEvent>): nat {
    if events == [] then 0
    else RegionalEvents(events[..|events| - 1]) + if IsRegionalEvent(events[|events| - 1]) then 1 else 0
  }

  lemma {:induction false} RegionalAppend(a: seq<WireEvent>, b: seq<WireEvent>)
    ensures RegionalEvents(a + b) == RegionalEvents(a) + RegionalEvents(b)
  {
    hide IsRegionalEvent;
    if b == [] {
      assert a + b == a;
    } else {
      RegionalAppend(a, b[..|b| - 1]);
      assert (a + b)[..|a + b| - 1] == a + b[..|b| - 1];
    }
  }

  lemma {:induction false} NoneRegional(events: seq<WireEvent>)
    requires Irrelevant(events) || (|events| == 1 && events[0].TextMessage?)
    ensures RegionalEvents(events) == 0
  {
    if events != [] {
      NoneRegional(events[..|events| - 1]);
    }
  }

  lemma SlotEventsRegional(slot: Slot, stamp: Stamp, subscribed: set<string>)
    requires HonestSlot(slot)
    ensures RegionalEvents(SlotEvents(slot, stamp, subscribed)) == if IsRegional(slot.symbol) then 1 else 0
  {
    hide IsRegional;
    assert [EventFor(slot.kind, slot.symbol, stamp)][..0] == [];
  }

  lemma {:induction false} EmittedRegional(slots: seq<Slot>, stamp: Stamp, subscribed: set<string>)
    requires HonestSlots(slots)
    ensures RegionalEvents(Emitted(slots, stamp, subscribed)) == RegionalSlots(slots)
  {
    hide EventFor, IsRegional, HonestSlot, IsRegionalEvent;
    if slots != [] {
      var front, last := slots[..|slots| - 1], slots[|slots| - 1];
      EmittedRegional(front, stamp, subscribed);
      RegionalAppend(Emitted(front, stamp, subscribed), SlotEvents(last, stamp, subscribed));
      SlotEventsRegional(last, stamp, subscribed);
    }
  }

  /** A publication counts as regional exactly the events that it sends for regional record keys. */
  lemma PublicationRegional(config: Config, a: Active, subscribed: set<string>, nowNanos: nat)
    ensures Published(config, a, subscribed, nowNanos).routes.regional
         == a.routes.regional + RegionalEvents(PublicationEvents(config, a, subscribed, nowNanos))
  {
    hide FillSlots, SlotsInOrder, Emitted, PoolOrder, LastKind, HonestSlots, RegionalEvents, RegionalSlots;
    var t := a.task;
    var slots, stamp := PublicationSlots(t, a.publications, config.random), NextStamp(config, a, nowNanos);
    OrderHonest(t, a.publications, OrderOf(t, a.publications, config.random), config.random);
    FilledRegional(Draft([], a.logs, a.routes), slots, stamp, subscribed);
    FilledEvents(Draft([], a.logs, a.routes), slots, stamp, subscribed);
    assert [] + Emitted(slots, stamp, subscribed) == Emitted(slots, stamp, subscribed);
    EmittedRegional(slots, stamp, subscribed);
    RegionalAppend(DraftOf(config, a, subscribed, nowNanos).events, [MarkerOf(stamp)]);
    NoneRegional([MarkerOf(stamp)]);
  }

  lemma StepRegional(config: Config, s: Server, step: Step, t: Task)
    requires Serving(s, t) && Unstopped(s, step)
    ensures
      var after := Next(config, s, step);
      && Serving(after, t)
      && after.active.value.routes.regional
         == s.active.value.routes.regional + RegionalEvents(Appended(config, s, step))
  {
    hide RegionalEvents, Published, PublicationEvents, SkippedDeadlines;
    if Publishes(s, step) {
      PublishedFields(config, s.active.value, s.subscribed.timeAndSale, step.clock.nowNanos);
      PublicationRegional(config, s.active.value, s.subscribed.timeAndSale, step.clock.nowNanos);
    } else {
      CommandServing(config, s, step, t);
      NoneRegional(Appended(config, s, step));
    }
  }

  lemma {:induction false} SentRegional(config: Config, s: Server, t: Task, steps: seq<Step>)
    requires Serving(s, t) && UnstoppedRun(config, s, steps)
    ensures
      var after := Run(config, s, steps);
      && Serving(after, t)
      && after.active.value.routes.regional
         == s.active.value.routes.regional + RegionalEvents(Sent(config, s, steps))
  {
    hide RegionalEvents, Next, Appended, Unstopped;
    if steps == [] {
      NoneRegional([]);
    } else {
      var front, last := steps[..|steps| - 1], steps[|steps| - 1];
      SentRegional(config, s, t, front);
      StepRegional(config, Run(config, s, front), last, t);
      RegionalAppend(Sent(config, s, front), Appended(config, Run(config, s, front), last));
    }
  }

  /** While a task stays active, its regional counter grows by the regional events that the wire gains. */
  lemma RunRegional(config: Config, s: Server, t: Task, steps: seq<Step>)
    requires Serving(s, t) && UnstoppedRun(config, s, steps)
    ensures
      var after := Run(config, s, steps);
      && Serving(after, t)
      && after.active.value.routes.regional
         == s.active.value.routes.regional + RegionalEvents(WireSince(s, after))
  {
    hide RegionalEvents, Run, UnstoppedRun, Sent, WireSince;
    SentRegional(config, s, t, steps);
    SentIsWire(config, s, steps);
  }
}
