/** What the server's generator does, as functions on values (src/server.cpp). */
module GeneratorModel {
  import opened Common
  import opened Events
  import opened History
  import opened Publication
  import opened SymbolUniverse
  import opened TaskPattern
  import TaskParser
  import Markers
  import RoundTrip = TaskRoundTrip

  /** What a publisher subscription observes. */
  datatype Topic = Market(kind: EventKind) | Profiles

  datatype PerTopic<T> = PerTopic(market: PerKind<T>, timeAndSale: T, profiles: T) {
    function At(t: Topic): T {
      match t
      case Profiles => profiles
      case Market(kind) => if kind.TimeAndSale? then timeAndSale else market.At(kind)
    }

    function Put(t: Topic, value: T): PerTopic<T> {
      match t
      case Profiles => this.(profiles := value)
      case Market(kind) =>
        if kind.TimeAndSale? then this.(timeAndSale := value) else this.(market := market.Put(kind, value))
    }
  }

  const TIME_SERIES := Market(TimeAndSale)

  type Subscriptions = PerTopic<set<string>>

  const NO_SUBSCRIPTIONS: Subscriptions := PerTopic(PerKind({}, {}, {}, {}), {}, {})

  /** Subscribed symbols paired with the requested lower bounds of time-series requests. */
  type Requests = seq<(string, int)>

  datatype Command =
    | Start(text: string)
    | Stop(text: string)
    | Added(topic: Topic, symbols: seq<string>, requests: Requests)
    | Removed(topic: Topic, symbols: seq<string>, requests: Requests)
    | Closed(topic: Topic)

  type Positive = n: int | n > 0 witness 1

  /** `maxSequence` bounds publication sequences; it is a constant of the event library. */
  datatype Config = Config(historyLimit: nat, activeSymbols: Option<nat>, maxSequence: Positive, random: Random)

  /** A parsed task and the number of base symbols that receive its publications. */
  datatype TaskData = Task(command: string, pattern: Pattern, active: nat)

  predicate Runnable(t: TaskData) {
    t.pattern.Valid() && Suitable(t.pattern, t.active)
  }

  const SMALLEST_TASK := Task("Q1", Pattern([TaskPattern.Item(Quote, 1)], DEFAULT_PERIOD_MS, None, 0, None), 1)

  type Task = t: TaskData | Runnable(t) witness SMALLEST_TASK

  function PeriodNanos(t: Task): Positive {
    t.pattern.periodMs * NANOS_PER_MILLI
  }

  // One publication.

  /** What all events of one publication share. */
  datatype Stamp = Stamp(sequence: int, nowNanos: nat, price: real)

  function StampOf(config: Config, tick: nat, nowNanos: nat): Stamp {
    Stamp(tick % config.maxSequence, nowNanos, 100.0 + (tick % 100) as real)
  }

  function EventFor(kind: EventKind, symbol: string, stamp: Stamp): WireEvent {
    match kind
    case Quote => QuoteEvent(symbol, Finite(stamp.sequence as real))
    case Trade => TradeEvent(symbol, stamp.sequence, stamp.nowNanos)
    case TradeEth => TradeEthEvent(symbol, stamp.sequence, stamp.nowNanos)
    case Summary => SummaryEvent(symbol, stamp.sequence)
    case TimeAndSale => TimeAndSaleEvent(symbol, stamp.nowNanos, stamp.sequence, stamp.price, NO_FLAGS)
  }

  /** Slot i of a pool's block: which record key it updates, and whether that is a regional one. */
  datatype Slot = Slot(kind: EventKind, symbol: string, regional: bool)

  function SourceAt(t: Task, publications: nat, pool: nat, i: nat, random: Random): (source: nat)
    requires pool < |t.pattern.items|
    ensures source <= t.pattern.regions
  {
    var seed := t.pattern.seed.GetOr(DEFAULT_REGION_SEED);
    SourceOf(t.pattern.items[pool].kind, t.pattern.regions, random.region(seed, publications, pool, i))
  }

  function BaseAt(t: Task, publications: nat, pool: nat, i: nat): (base: nat)
    requires pool < |t.pattern.items|
    ensures base < t.active <= |Symbols(t.pattern)|
  {
    assert t.pattern.items[pool].quantity > 0;
    BaseIndex(publications, t.pattern.items[pool].quantity, i, t.active)
  }

  function SlotAt(t: Task, publications: nat, pool: nat, i: nat, random: Random): Slot
    requires pool < |t.pattern.items|
  {
    var source := SourceAt(t, publications, pool, i, random);
    Slot(t.pattern.items[pool].kind, Key(Symbols(t.pattern)[BaseAt(t, publications, pool, i)], source), source > 0)
  }

  /** Every record ever retained, by base symbol. */
  type Logs = map<string, seq<Record>>

  function LogOf(logs: Logs, symbol: string): seq<Record> {
    if symbol in logs then logs[symbol] else []
  }

  datatype Routes = Routes(composite: nat, regional: nat)

  /** A publication being assembled. */
  datatype Draft = Draft(events: seq<WireEvent>, logs: Logs, routes: Routes)

  function RecordOf(stamp: Stamp): Record {
    Record(stamp.nowNanos, stamp.sequence, stamp.price)
  }

  /** TimeAndSale is retained for every active symbol but published only to subscribed ones. */
  function Fill(d: Draft, slot: Slot, stamp: Stamp, subscribed: set<string>): Draft {
    var timeAndSale := slot.kind.TimeAndSale?;
    Draft(
      if timeAndSale && slot.symbol !in subscribed then d.events
      else d.events + [EventFor(slot.kind, slot.symbol, stamp)],
      if timeAndSale then d.logs[slot.symbol := LogOf(d.logs, slot.symbol) + [RecordOf(stamp)]] else d.logs,
      if slot.regional then d.routes.(regional := d.routes.regional + 1)
      else d.routes.(composite := d.routes.composite + 1))
  }

  function FillSlots(d: Draft, slots: seq<Slot>, stamp: Stamp, subscribed: set<string>): Draft {
    if slots == [] then d
    else Fill(FillSlots(d, slots[..|slots| - 1], stamp, subscribed), slots[|slots| - 1], stamp, subscribed)
  }

  function BlockSlots(t: Task, publications: nat, pool: nat, random: Random): (slots: seq<Slot>)
    requires pool < |t.pattern.items|
  {
    seq(t.pattern.items[pool].quantity, i requires 0 <= i => SlotAt(t, publications, pool, i, random))
  }

  /** The slots of a publication, block after block. */
  function SlotsInOrder(t: Task, publications: nat, order: seq<nat>, random: Random): seq<Slot>
    requires forall k :: 0 <= k < |order| ==> order[k] < |t.pattern.items|
  {
    if order == [] then []
    else SlotsInOrder(t, publications, order[..|order| - 1], random)
         + BlockSlots(t, publications, order[|order| - 1], random)
  }

  function OrderOf(t: Task, publications: nat, random: Random): (order: seq<nat>)
    ensures |order| == |t.pattern.items|
    ensures forall k :: 0 <= k < |order| ==> order[k] < |t.pattern.items|
  {
    var n := |t.pattern.items|;
    var order := PoolOrder(n, t.pattern.seed, publications, random);
    PoolOrderPermutes(n, t.pattern.seed, publications, random);
    assert forall k :: 0 <= k < |order| ==> order[k] in order;
    order
  }

  function PublicationSlots(t: Task, publications: nat, random: Random): seq<Slot> {
    SlotsInOrder(t, publications, OrderOf(t, publications, random), random)
  }

  // The active task.

  /** `firstTick` is the deadline of the first publication. */
  datatype Active = Active(
    task: Task, logs: Logs, tick: nat, publications: nat, skipped: nat, routes: Routes, lastBlocks: PerTopic<nat>,
    firstTick: int)

  const TICK_MODULUS := 0x1_0000_0000

  function NewActive(t: Task, firstTick: int): Active {
    Active(t, map[], 0, 0, 0, Routes(0, 0), PerTopic(NONE_OF_EACH, 0, 0), firstTick)
  }

  function NextStamp(config: Config, a: Active, nowNanos: nat): Stamp {
    StampOf(config, (a.tick + 1) % TICK_MODULUS, nowNanos)
  }

  function DraftOf(config: Config, a: Active, subscribed: set<string>, nowNanos: nat): Draft {
    FillSlots(Draft([], a.logs, a.routes), PublicationSlots(a.task, a.publications, config.random),
              NextStamp(config, a, nowNanos), subscribed)
  }

  function MarkerOf(stamp: Stamp): WireEvent {
    TextMessage(stamp.sequence, Markers.MarkerText(stamp.nowNanos))
  }

  /** The wire events of the next publication: its blocks and then its marker. */
  function PublicationEvents(config: Config, a: Active, subscribed: set<string>, nowNanos: nat): seq<WireEvent> {
    DraftOf(config, a, subscribed, nowNanos).events + [MarkerOf(NextStamp(config, a, nowNanos))]
  }

  function LastKind(t: Task, publications: nat, random: Random): EventKind {
    var order := OrderOf(t, publications, random);
    t.pattern.items[order[|order| - 1]].kind
  }

  function Published(config: Config, a: Active, subscribed: set<string>, nowNanos: nat): Active {
    var d := DraftOf(config, a, subscribed, nowNanos);
    var last := Market(LastKind(a.task, a.publications, config.random));
    a.(logs := d.logs, routes := d.routes, lastBlocks := a.lastBlocks.Put(last, a.lastBlocks.At(last) + 1),
       tick := (a.tick + 1) % TICK_MODULUS, publications := a.publications + 1)
  }

  /** The wire events answering time-series requests, request after request. */
  function SnapshotEvents(logs: Logs, limit: nat, requests: Requests): seq<WireEvent> {
    if requests == [] then [] else
    var (symbol, fromTime) := requests[|requests| - 1];
    SnapshotEvents(logs, limit, requests[..|requests| - 1])
    + SnapshotBlock(symbol, RetainedAll(LogOf(logs, symbol), limit), fromTime)
  }

  // The server.

  datatype Server = Server(
    commands: seq<Command>, subscribed: Subscriptions, pending: Option<Task>, active: Option<Active>, nextTick: int,
    wire: seq<WireEvent>)

  function Initial(now: int): Server {
    Server([], NO_SUBSCRIPTIONS, None, None, now, [])
  }

  predicate ContainsAll(subscribed: set<string>, symbols: seq<string>) {
    forall i :: 0 <= i < |symbols| ==> symbols[i] in subscribed
  }

  /** All profile symbols, and all market symbols of every kind except TimeAndSale, are subscribed. */
  predicate Ready(subscribed: Subscriptions, t: Task) {
    && ContainsAll(subscribed.profiles, Symbols(t.pattern))
    && forall i :: 0 <= i < |t.pattern.items| && !t.pattern.items[i].kind.TimeAndSale? ==>
         ContainsAll(subscribed.At(Market(t.pattern.items[i].kind)), MarketSymbols(t.pattern))
  }

  function ProfileEvents(symbols: seq<string>): seq<WireEvent> {
    seq(|symbols|, i requires 0 <= i < |symbols| => ProfileEvent(symbols[i]))
  }

  function StartWhenReady(s: Server, now: int): Server {
    if s.pending.None? || s.active.Some? || !Ready(s.subscribed, s.pending.value) then s else
    var t := s.pending.value;
    s.(wire := s.wire + ProfileEvents(Symbols(t.pattern)), active := Some(NewActive(t, now)), nextTick := now,
       pending := None)
  }

  /** A task becomes pending only when no other is pending or active. */
  function Requested(config: Config, text: string): Option<Task> {
    match TaskParser.ParseTask(text)
    case Err(_) => None
    case Ok(pattern) =>
      ParsedValid(text);
      var count := config.activeSymbols.GetOr(pattern.SymbolCount());
      if Suitable(pattern, count) then Some(Task(text, pattern, count)) else None
  }

  lemma ParsedValid(text: string)
    requires TaskParser.ParseTask(text).Ok?
    ensures TaskParser.ParseTask(text).value.Valid()
  {
    RoundTrip.ParseSound(text);
  }

  predicate Stops(text: string, command: string) {
    text == "" || command == text
  }

  function Subscribed(subscribed: Subscriptions, c: Command): Subscriptions {
    match c
    case Added(topic, symbols, _) => subscribed.Put(topic, subscribed.At(topic) + (set s | s in symbols))
    case Removed(topic, symbols, _) => subscribed.Put(topic, subscribed.At(topic) - (set s | s in symbols))
    case Closed(topic) => subscribed.Put(topic, {})
    case _ => subscribed
  }

  /** Time-series requests are answered at once, but only while a task is active. */
  function Answered(config: Config, s: Server, c: Command): seq<WireEvent> {
    if c.Added? && c.topic == TIME_SERIES && s.active.Some?
    then SnapshotEvents(s.active.value.logs, config.historyLimit, c.requests) else []
  }

  function Apply(config: Config, s: Server, c: Command): Server {
    match c
    case Start(text) =>
      if s.active.None? && s.pending.None? then s.(pending := Requested(config, text)) else s
    case Stop(text) =>
      s.(pending := if s.pending.Some? && Stops(text, s.pending.value.command) then None else s.pending,
         active := if s.active.Some? && Stops(text, s.active.value.task.command) then None else s.active)
    case _ => s.(subscribed := Subscribed(s.subscribed, c), wire := s.wire + Answered(config, s, c))
  }

  /** Deadlines that have already passed are skipped rather than caught up with. */
  function SkippedDeadlines(nextTick: int, period: Positive, after: int): nat {
    if nextTick < after then (after - nextTick) / period + 1 else 0
  }

  function PublishDue(config: Config, s: Server, a: Active, nowNanos: nat, after: int): Server {
    var period := PeriodNanos(a.task);
    var skipped := SkippedDeadlines(s.nextTick + period, period, after);
    var published := Published(config, a, s.subscribed.timeAndSale, nowNanos);
    s.(wire := s.wire + PublicationEvents(config, a, s.subscribed.timeAndSale, nowNanos),
       active := Some(published.(skipped := a.skipped + skipped)),
       nextTick := s.nextTick + period + period * skipped)
  }

  /**
   * The clock readings of one pass of the worker loop: the steady clock when a command or deadline is considered, the
   * wall clock of a publication, and the steady clock after it.
   */
  datatype Clock = Clock(now: int, nowNanos: nat, after: int)

  /** One pass of the worker loop: a command if there is one, else a publication if it is due. */
  function Pass(config: Config, s: Server, clock: Clock): Server {
    if s.commands != [] then
      StartWhenReady(Apply(config, s.(commands := s.commands[1..]), s.commands[0]), clock.now)
    else if s.active.Some? && clock.now >= s.nextTick then
      PublishDue(config, s, s.active.value, clock.nowNanos, clock.after)
    else s
  }

  datatype Step =
    | Enqueue(command: Command)
    | Work(clock: Clock)

  function Next(config: Config, s: Server, step: Step): Server {
    match step
    case Enqueue(c) => s.(commands := s.commands + [c])
    case Work(clock) => Pass(config, s, clock)
  }

  function Run(config: Config, s: Server, steps: seq<Step>): Server {
    if steps == [] then s else Next(config, Run(config, s, steps[..|steps| - 1]), steps[|steps| - 1])
  }
}
