/** Fairness over whole runs: how often the generator publishes each base symbol. */
module RunFairness {
  import opened Common
  import opened Events
  import opened Publication
  import opened SymbolUniverse
  import opened TaskPattern
  import opened GeneratorModel
  import opened GeneratorLaws
  import opened PublicationLaws
  import opened ServerStreams

  // Which base symbol an event belongs to.

  /** The base symbol of a record key: what precedes the region suffix. */
  function BaseName(key: string): string {
    if key == "" || key[0] == '&' then "" else [key[0]] + BaseName(key[1..])
  }

  lemma {:induction false} BaseNamePlain(name: string, suffix: string)
    requires NoAmpersand(name) && (suffix == "" || suffix[0] == '&')
    ensures BaseName(name + suffix) == name
  {
    if name == "" {
      assert name + suffix == suffix;
    } else {
      BaseNamePlain(name[1..], suffix);
      assert (name + suffix)[1..] == name[1..] + suffix;
    }
  }

  lemma BaseNameOf(name: string, source: nat)
    requires NoAmpersand(name) && source <= MAX_REGIONS
    ensures BaseName(Key(name, source)) == name
  {
    if source == 0 {
      BaseNamePlain(name, "");
      assert name + "" == name;
    } else {
      var suffix := "&" + [('A' as int + source - 1) as char];
      BaseNamePlain(name, suffix);
      assert Key(name, source) == name + suffix;
    }
  }

  /** An event of a market kind for some record key of a base symbol. */
  predicate IsFor(e: WireEvent, kind: MarketKind, name: string) {
    match e
    case QuoteEvent(symbol, _) => kind == Quote && BaseName(symbol) == name
    case TradeEvent(symbol, _, _) => kind == Trade && BaseName(symbol) == name
    case TradeEthEvent(symbol, _, _) => kind == TradeEth && BaseName(symbol) == name
    case SummaryEvent(symbol, _) => kind == Summary && BaseName(symbol) == name
    case _ => false
  }

  function EventsFor(events: seq<WireEvent>, kind: MarketKind, name: string): nat {
    if events == [] then 0
    else EventsFor(events[..|events| - 1], kind, name) + if IsFor(events[|events| - 1], kind, name) then 1 else 0
  }

  lemma {:induction false} EventsForAppend(a: seq<WireEvent>, b: seq<WireEvent>, kind: MarketKind, name: string)
    ensures EventsFor(a + b, kind, name) == EventsFor(a, kind, name) + EventsFor(b, kind, name)
  {
    hide IsFor;
    if b == [] {
      assert a + b == a;
    } else {
      EventsForAppend(a, b[..|b| - 1], kind, name);
      assert (a + b)[..|a + b| - 1] == a + b[..|b| - 1];
    }
  }

  lemma {:induction false} NoneFor(events: seq<WireEvent>, kind: MarketKind, name: string)
    requires forall i :: 0 <= i < |events| ==> !IsFor(events[i], kind, name)
    ensures EventsFor(events, kind, name) == 0
  {
    hide IsFor;
    if events != [] {
      NoneFor(events[..|events| - 1], kind, name);
    }
  }

  // One publication.

  predicate SlotFor(slot: Slot, kind: EventKind, name: string) {
    slot.kind == kind && BaseName(slot.symbol) == name
  }

  function SlotsFor(slots: seq<Slot>, kind: EventKind, name: string): nat {
    if slots == [] then 0
    else SlotsFor(slots[..|slots| - 1], kind, name) + if SlotFor(slots[|slots| - 1], kind, name) then 1 else 0
  }

  lemma {:induction false} SlotsForAppend(a: seq<Slot>, b: seq<Slot>, kind: EventKind, name: string)
    ensures SlotsFor(a + b, kind, name) == SlotsFor(a, kind, name) + SlotsFor(b, kind, name)
  {
    hide SlotFor;
    if b == [] {
      assert a + b == a;
    } else {
      SlotsForAppend(a, b[..|b| - 1], kind, name);
      assert (a + b)[..|a + b| - 1] == a + b[..|b| - 1];
    }
  }

  lemma {:induction false} OtherKindSlots(slots: seq<Slot>, own: EventKind, kind: EventKind, name: string)
    requires own != kind && forall i :: 0 <= i < |slots| ==> slots[i].kind == own
    ensures SlotsFor(slots, kind, name) == 0
  {
    if slots != [] {
      OtherKindSlots(slots[..|slots| - 1], own, kind, name);
    }
  }

  lemma SlotEventsFor(slot: Slot, stamp: Stamp, subscribed: set<string>, kind: MarketKind, name: string)
    ensures EventsFor(SlotEvents(slot, stamp, subscribed), kind, name) == if SlotFor(slot, kind, name) then 1 else 0
  {
    hide BaseName;
    assert [EventFor(slot.kind, slot.symbol, stamp)][..0] == [];
  }

  lemma {:induction false} EmittedFor(slots: seq<Slot>, stamp: Stamp, subscribed: set<string>, kind: MarketKind, name: string)
    ensures EventsFor(Emitted(slots, stamp, subscribed), kind, name) == SlotsFor(slots, kind, name)
  {
    hide EventFor, SlotFor, IsFor;
    if slots != [] {
      var front, last := slots[..|slots| - 1], slots[|slots| - 1];
      EmittedFor(front, stamp, subscribed, kind, name);
      EventsForAppend(Emitted(front, stamp, subscribed), SlotEvents(last, stamp, subscribed), kind, name);
      SlotEventsFor(last, stamp, subscribed, kind, name);
    }
  }

  /** Slot i of a block is for base symbol b exactly when the block picks b there. */
  lemma SlotPicks(t: Task, publications: nat, pool: nat, i: nat, random: Random, b: nat)
    requires pool < |t.pattern.items| && i < t.pattern.items[pool].quantity && b < t.active
    ensures b < |Symbols(t.pattern)|
    ensures SlotFor(SlotAt(t, publications, pool, i, random), t.pattern.items[pool].kind, Symbols(t.pattern)[b])
        <==> BlockPicks(publications, t.pattern.items[pool].quantity, t.active)[i] == b
  {
    hide Key, Names, BaseName, BaseIndex, SourceAt;
    var count, base := t.pattern.SymbolCount(), BaseAt(t, publications, pool, i);
    assert Symbols(t.pattern) == Names(count);
    NamesPlain(count, base);
    NamesDistinct(count);
    BaseNameOf(Names(count)[base], SourceAt(t, publications, pool, i, random));
    assert Names(count)[base] == Names(count)[b] <==> base == b;
  }

  lemma {:induction false} BlockFor(t: Task, publications: nat, pool: nat, random: Random, b: nat, n: nat)
    requires pool < |t.pattern.items| && n <= t.pattern.items[pool].quantity && b < t.active <= |Symbols(t.pattern)|
    ensures
      var quantity, kind := t.pattern.items[pool].quantity, t.pattern.items[pool].kind;
      SlotsFor(BlockSlots(t, publications, pool, random)[..n], kind, Symbols(t.pattern)[b])
      == Count(BlockPicks(publications, quantity, t.active)[..n], b)
  {
    hide Symbols, SlotAt, SlotFor, BaseIndex, Runnable;
    if n > 0 {
      BlockFor(t, publications, pool, random, b, n - 1);
      SlotPicks(t, publications, pool, n - 1, random, b);
      var slots := BlockSlots(t, publications, pool, random);
      var picks := BlockPicks(publications, t.pattern.items[pool].quantity, t.active);
      assert slots[..n][..n - 1] == slots[..n - 1] && picks[..n][..n - 1] == picks[..n - 1];
      assert slots[..n][n - 1] == slots[n - 1] && picks[..n][n - 1] == picks[n - 1];
    }
  }

  lemma WholeBlockFor(t: Task, publications: nat, pool: nat, random: Random, b: nat)
    requires pool < |t.pattern.items| && b < t.active <= |Symbols(t.pattern)|
    ensures
      var quantity, kind := t.pattern.items[pool].quantity, t.pattern.items[pool].kind;
      SlotsFor(BlockSlots(t, publications, pool, random), kind, Symbols(t.pattern)[b])
      == Count(BlockPicks(publications, quantity, t.active), b)
  {
    hide Symbols, SlotAt, SlotFor, BaseIndex, Runnable, SlotsFor, Count;
    var quantity := t.pattern.items[pool].quantity;
    var slots, picks := BlockSlots(t, publications, pool, random), BlockPicks(publications, quantity, t.active);
    BlockFor(t, publications, pool, random, b, quantity);
    assert slots[..quantity] == slots && picks[..quantity] == picks;
  }

  lemma {:induction false} OrderFor(t: Task, publications: nat, order: seq<nat>, random: Random, pool: nat, b: nat)
    requires InRange(t, order) && Distinct(order) && pool < |t.pattern.items| && b < t.active <= |Symbols(t.pattern)|
    ensures
      var quantity, kind := t.pattern.items[pool].quantity, t.pattern.items[pool].kind;
      SlotsFor(SlotsInOrder(t, publications, order, random), kind, Symbols(t.pattern)[b])
      == if pool in order then Count(BlockPicks(publications, quantity, t.active), b) else 0
  {
    hide Symbols, SlotAt, SlotFor, BaseIndex, BlockPicks, SlotsFor, Count;
    var kind, name := t.pattern.items[pool].kind, Symbols(t.pattern)[b];
    if order == [] {
      NoSlotsFor(kind, name);
    } else {
      var front, last := order[..|order| - 1], order[|order| - 1];
      assert order == front + [last];
      OrderFor(t, publications, front, random, pool, b);
      SlotsForAppend(SlotsInOrder(t, publications, front, random), BlockSlots(t, publications, last, random), kind, name);
      BlockKind(t, publications, last, random);
      if last == pool {
        WholeBlockFor(t, publications, pool, random, b);
        assert pool !in front;
      } else {
        OtherKindSlots(BlockSlots(t, publications, last, random), t.pattern.items[last].kind, kind, name);
      }
    }
  }

  lemma NoSlotsFor(kind: EventKind, name: string)
    ensures SlotsFor([], kind, name) == 0
  {
  }

  lemma PublicationFor(config: Config, a: Active, subscribed: set<string>, nowNanos: nat, pool: nat, b: nat)
    requires pool < |a.task.pattern.items| && !a.task.pattern.items[pool].kind.TimeAndSale?
    requires b < a.task.active <= |Symbols(a.task.pattern)|
    ensures
      var item := a.task.pattern.items[pool];
      EventsFor(PublicationEvents(config, a, subscribed, nowNanos), item.kind, Symbols(a.task.pattern)[b])
      == Count(BlockPicks(a.publications, item.quantity, a.task.active), b)
  {
    hide Symbols, FillSlots, SlotsInOrder, Emitted, PoolOrder, EventsFor, SlotsFor, BlockPicks, Count;
    var t, item := a.task, a.task.pattern.items[pool];
    var name := Symbols(t.pattern)[b];
    var order := OrderOf(t, a.publications, config.random);
    var slots, stamp := PublicationSlots(t, a.publications, config.random), NextStamp(config, a, nowNanos);
    FilledEvents(Draft([], a.logs, a.routes), slots, stamp, subscribed);
    assert [] + Emitted(slots, stamp, subscribed) == Emitted(slots, stamp, subscribed);
    EventsForAppend(DraftOf(config, a, subscribed, nowNanos).events, [MarkerOf(stamp)], item.kind, name);
    NoneFor([MarkerOf(stamp)], item.kind, name);
    EmittedFor(slots, stamp, subscribed, item.kind, name);
    PoolOrderPermutes(|t.pattern.items|, t.pattern.seed, a.publications, config.random);
    OrderFor(t, a.publications, order, config.random, pool, b);
  }

  // Runs.

  lemma {:induction false} CountAppend(a: seq<nat>, b: seq<nat>, x: nat)
    ensures Count(a + b, x) == Count(a, x) + Count(b, x)
  {
    if b == [] {
      assert a + b == a;
    } else {
      CountAppend(a, b[..|b| - 1], x);
      assert (a + b)[..|a + b| - 1] == a + b[..|b| - 1];
    }
  }

  /** A run in which the active task is not stopped. */
  ghost predicate UnstoppedRun(config: Config, s: Server, steps: seq<Step>) {
    if steps == [] then true else
    var front := steps[..|steps| - 1];
    UnstoppedRun(config, s, front) && Unstopped(Run(config, s, front), steps[|steps| - 1])
  }

  lemma StepFor(config: Config, s: Server, step: Step, t: Task, pool: nat, b: nat)
    requires Serving(s, t) && Unstopped(s, step)
    requires pool < |t.pattern.items| && !t.pattern.items[pool].kind.TimeAndSale? && b < t.active <= |Symbols(t.pattern)|
    ensures
      var item, after := t.pattern.items[pool], Next(config, s, step);
      && Serving(after, t)
      && s.active.value.publications <= after.active.value.publications
      && EventsFor(Appended(config, s, step), item.kind, Symbols(t.pattern)[b])
         + Count(Picks(s.active.value.publications, item.quantity, t.active), b)
         == Count(Picks(after.active.value.publications, item.quantity, t.active), b)
  {
    hide Symbols, EventsFor, Count, BlockPicks, Published, PublicationEvents, SkippedDeadlines;
    var item, a := t.pattern.items[pool], s.active.value;
    if Publishes(s, step) {
      PublishedFields(config, a, s.subscribed.timeAndSale, step.clock.nowNanos);
      PublicationFor(config, a, s.subscribed.timeAndSale, step.clock.nowNanos, pool, b);
      CountAppend(Picks(a.publications, item.quantity, t.active), BlockPicks(a.publications, item.quantity, t.active), b);
    } else {
      CommandServing(config, s, step, t);
      IrrelevantFor(Appended(config, s, step), item.kind, Symbols(t.pattern)[b]);
    }
  }

  lemma IrrelevantFor(events: seq<WireEvent>, kind: MarketKind, name: string)
    requires Irrelevant(events)
    ensures EventsFor(events, kind, name) == 0
  {
    hide EventsFor;
    NoneFor(events, kind, name);
  }

  /** What a run sends for a base symbol is what its pool's round robin picks between the publication counts. */
  lemma {:induction false} SentFor(config: Config, s: Server, t: Task, steps: seq<Step>, pool: nat, b: nat)
    requires Serving(s, t) && UnstoppedRun(config, s, steps)
    requires pool < |t.pattern.items| && !t.pattern.items[pool].kind.TimeAndSale? && b < t.active <= |Symbols(t.pattern)|
    ensures
      var item, after := t.pattern.items[pool], Run(config, s, steps);
      && Serving(after, t)
      && s.active.value.publications <= after.active.value.publications
      && EventsFor(Sent(config, s, steps), item.kind, Symbols(t.pattern)[b])
         + Count(Picks(s.active.value.publications, item.quantity, t.active), b)
         == Count(Picks(after.active.value.publications, item.quantity, t.active), b)
  {
    hide Symbols, EventsFor, Count, Picks, Next, Appended, Unstopped;
    var kind, name := t.pattern.items[pool].kind, Symbols(t.pattern)[b];
    if steps == [] {
      NoneFor([], kind, name);
    } else {
      var front, last := steps[..|steps| - 1], steps[|steps| - 1];
      SentFor(config, s, t, front, pool, b);
      StepFor(config, Run(config, s, front), last, t, pool, b);
      EventsForAppend(Sent(config, s, front), Appended(config, Run(config, s, front), last), kind, name);
    }
  }

  /**
   * In every stretch of every run during which a task stays active, the numbers of events of one kind sent for any two
   * of its active base symbols, over all their record keys, differ by at most one.
   */
  lemma RunFair(config: Config, s: Server, t: Task, steps: seq<Step>, pool: nat, a: nat, b: nat)
    requires Serving(s, t) && UnstoppedRun(config, s, steps)
    requires pool < |t.pattern.items| && !t.pattern.items[pool].kind.TimeAndSale?
    requires a < t.active && b < t.active <= |Symbols(t.pattern)|
    ensures
      var kind, names := t.pattern.items[pool].kind, Symbols(t.pattern);
      var sent := WireSince(s, Run(config, s, steps));
      EventsFor(sent, kind, names[a]) <= EventsFor(sent, kind, names[b]) + 1
  {
    hide Symbols, EventsFor, Picks, Run, UnstoppedRun, Sent, Count, Runnable, WireSince;
    SentIsWire(config, s, steps);
    var quantity := t.pattern.items[pool].quantity;
    SentFor(config, s, t, steps, pool, a);
    SentFor(config, s, t, steps, pool, b);
    var from, to := s.active.value.publications, Run(config, s, steps).active.value.publications;
    PicksRoundRobin(from, quantity, t.active);
    PicksRoundRobin(to, quantity, t.active);
    RoundRobinCount(Picks(from, quantity, t.active), t.active, a);
    RoundRobinCount(Picks(from, quantity, t.active), t.active, b);
    RoundRobinCount(Picks(to, quantity, t.active), t.active, a);
    RoundRobinCount(Picks(to, quantity, t.active), t.active, b);
  }
}
