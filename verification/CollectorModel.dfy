/** What the client's collector does, as functions on values (src/client.cpp). */
module CollectorModel {
  import opened Common
  import opened Events
  import opened Markers
  import opened Ordered
  import SourceTime

  /** An event retained until its marker supplies the publication time. */
  datatype PendingEvent = PendingEvent(observed: int, sourceMs: Option<int>, kind: MarketKind, symbol: string)

  datatype Batch = Batch(
    timestamp: Option<int>, received: nat, byKind: Counts, firstObserved: int, lastObserved: int,
    events: seq<PendingEvent>)

  const NEW_BATCH := Batch(None, 0, NONE_OF_EACH, 0, 0, [])

  datatype Config = Config(expected: Counts, timeoutMs: int, allowConflation: bool, maxSequence: int)

  datatype Sample = Sample(observed: int, publishTime: int, latency: int, kind: MarketKind, symbol: string)

  datatype Delivery = Delivery(
    published: Counts, delivered: Counts, deficit: Counts, excess: Counts,
    full: nat, partial: nat, empty: nat, uncorrelated: nat)
  {
    function Plus(d: Delivery): Delivery {
      Delivery(PlusCounts(published, d.published), PlusCounts(delivered, d.delivered),
               PlusCounts(deficit, d.deficit), PlusCounts(excess, d.excess),
               full + d.full, partial + d.partial, empty + d.empty, uncorrelated + d.uncorrelated)
    }

    /** Publications settled with a marker. */
    function Settled(): nat {
      full + partial + empty
    }
  }

  const NO_DELIVERY := Delivery(NONE_OF_EACH, NONE_OF_EACH, NONE_OF_EACH, NONE_OF_EACH, 0, 0, 0, 0)

  /** Everything a reporting window accumulates, and equally what one step adds to it. */
  datatype Book = Book(events: seq<Sample>, batches: seq<Sample>, negative: nat, missing: nat, delivery: Delivery) {
    function Plus(b: Book): Book {
      Book(events + b.events, batches + b.batches, negative + b.negative, missing + b.missing,
           delivery.Plus(b.delivery))
    }
  }

  const EMPTY_BOOK := Book([], [], 0, 0, NO_DELIVERY)

  function AppendKinds(a: PerKind<seq<int>>, b: PerKind<seq<int>>): PerKind<seq<int>> {
    PerKind(a.quote + b.quote, a.trade + b.trade, a.tradeEth + b.tradeEth, a.summary + b.summary)
  }

  /** The whole-run accumulators, which keep bare latencies, by kind. */
  datatype Totals = Totals(
    eventsByKind: PerKind<seq<int>>, batches: seq<int>, negative: nat, missing: nat, delivery: Delivery)
  {
    function Plus(t: Totals): Totals {
      Totals(AppendKinds(eventsByKind, t.eventsByKind), batches + t.batches, negative + t.negative,
             missing + t.missing, delivery.Plus(t.delivery))
    }
  }

  const NO_LATENCIES: PerKind<seq<int>> := PerKind([], [], [], [])
  const NO_TOTALS := Totals(NO_LATENCIES, [], 0, 0, NO_DELIVERY)

  /** Latencies of the samples of one kind, in order. */
  function LatenciesOf(samples: seq<Sample>, kind: MarketKind): seq<int> {
    if samples == [] then [] else
    var last := samples[|samples| - 1];
    LatenciesOf(samples[..|samples| - 1], kind) + if last.kind == kind then [last.latency] else []
  }

  function LatenciesByKind(samples: seq<Sample>): PerKind<seq<int>> {
    PerKind(LatenciesOf(samples, Quote), LatenciesOf(samples, Trade),
            LatenciesOf(samples, TradeEth), LatenciesOf(samples, Summary))
  }

  function Latencies(samples: seq<Sample>): seq<int> {
    seq(|samples|, i requires 0 <= i < |samples| => samples[i].latency)
  }

  /** A window's contribution to the whole-run accumulators. */
  function Digest(b: Book): Totals {
    Totals(LatenciesByKind(b.events), Latencies(b.batches), b.negative, b.missing, b.delivery)
  }

  // One publication sequence.

  datatype Arrival =
    | Event(event: PendingEvent)
    | Marker(timestamp: int, observed: int)

  /** A retained event priced at its publication time: a sample, or a clock anomaly if it precedes it. */
  function Priced(e: PendingEvent, publishTime: int): Book {
    var delta := e.observed - publishTime;
    if delta < 0 then EMPTY_BOOK.(negative := 1)
    else EMPTY_BOOK.(events := [Sample(e.observed, publishTime, delta, e.kind, e.symbol)])
  }

  function PricedAll(events: seq<PendingEvent>, publishTime: int): Book {
    if events == [] then EMPTY_BOOK
    else PricedAll(events[..|events| - 1], publishTime).Plus(Priced(events[|events| - 1], publishTime))
  }

  function EmitBook(b: Batch): Book {
    if b.timestamp.None? then EMPTY_BOOK else PricedAll(b.events, b.timestamp.value)
  }

  function Emitted(b: Batch): Batch {
    if b.timestamp.None? then b else b.(events := [])
  }

  function Shortfall(expected: nat, received: nat): nat {
    if received < expected then expected - received else 0
  }

  function Shortfalls(expected: Counts, received: Counts): Counts {
    PerKind(Shortfall(expected.quote, received.quote), Shortfall(expected.trade, received.trade),
            Shortfall(expected.tradeEth, received.tradeEth), Shortfall(expected.summary, received.summary))
  }

  /** The delivery accounting of a marked batch that leaves the collector. */
  function Settlement(cfg: Config, b: Batch): Delivery {
    var complete := b.byKind == cfg.expected;
    NO_DELIVERY.(
      delivered := b.byKind,
      deficit := Shortfalls(cfg.expected, b.byKind), excess := Shortfalls(b.byKind, cfg.expected),
      full := if complete then 1 else 0,
      empty := if !complete && b.received == 0 then 1 else 0,
      partial := if !complete && b.received != 0 then 1 else 0)
  }

  /** Latency of a whole publication, up to its last observed event. */
  function BatchBook(b: Batch): Book
    requires b.timestamp.Some?
  {
    var delta := b.lastObserved - b.timestamp.value;
    if b.received == 0 then EMPTY_BOOK
    else if delta < 0 then EMPTY_BOOK.(negative := 1)
    else EMPTY_BOOK.(batches := [Sample(b.lastObserved, b.timestamp.value, delta, Quote, "")])
  }

  function SettleBook(cfg: Config, b: Batch): Book
    requires b.timestamp.Some?
  {
    Book([], [], 0, if b.byKind != cfg.expected && !cfg.allowConflation then 1 else 0, Settlement(cfg, b))
    .Plus(BatchBook(b))
  }

  /** Everything recorded when a batch is finished. */
  function FinishBook(cfg: Config, b: Batch): Book {
    if b.timestamp.None? then
      EMPTY_BOOK.(missing := if cfg.allowConflation then 0 else 1,
                  delivery := NO_DELIVERY.(uncorrelated := b.received))
    else EmitBook(b).Plus(SettleBook(cfg, Emitted(b)))
  }

  function WithEvent(b: Batch, e: PendingEvent): Batch {
    b.(firstObserved := if b.received == 0 then e.observed else b.firstObserved,
       lastObserved := Max(b.lastObserved, e.observed),
       received := b.received + 1,
       byKind := b.byKind.Put(e.kind, b.byKind.At(e.kind) + 1),
       events := b.events + [e])
  }

  /** The first marker fixes the timestamp; any marker moves the observation bounds. */
  function WithMarker(b: Batch, timestamp: int, observed: int): Batch {
    b.(timestamp := Some(b.timestamp.GetOr(timestamp)),
       firstObserved := if b.firstObserved == 0 then observed else b.firstObserved,
       lastObserved := Max(b.lastObserved, observed))
  }

  /** What happens to one sequence: its pending batch afterwards, and what gets recorded. */
  datatype Reaction = Reaction(pending: Option<Batch>, book: Book)

  /** Emits what can be emitted and finishes the batch as soon as marker and composition match. */
  function Advance(cfg: Config, b: Batch): Reaction {
    var e := Emitted(b);
    if e.timestamp.Some? && e.byKind == cfg.expected
    then Reaction(None, EmitBook(b).Plus(FinishBook(cfg, e)))
    else Reaction(Some(e), EmitBook(b))
  }

  function React(cfg: Config, pending: Option<Batch>, arrival: Arrival): Reaction {
    var b := pending.GetOr(NEW_BATCH);
    match arrival
    case Event(e) => Advance(cfg, WithEvent(b, e))
    case Marker(timestamp, observed) =>
      var published := if b.timestamp.None? then EMPTY_BOOK.(delivery := NO_DELIVERY.(published := cfg.expected))
                       else EMPTY_BOOK;
      var r := Advance(cfg, WithMarker(b, timestamp, observed));
      Reaction(r.pending, published.Plus(r.book))
  }

  // All sequences together.

  /** Correlation state: which sequences may open a batch, the open ones, and both sets of accumulators. */
  datatype Core = Core(accepting: bool, excluded: set<int>, pending: map<int, Batch>, window: Book, total: Totals) {
    function Record(b: Book): Core {
      this.(window := window.Plus(b), total := total.Plus(Digest(b)))
    }

    function Lookup(sequence: int): Option<Batch> {
      if sequence in pending then Some(pending[sequence]) else None
    }

    function Store(sequence: int, b: Option<Batch>): Core {
      this.(pending := if b.Some? then pending[sequence := b.value] else pending - {sequence})
    }

    predicate Accepts(sequence: int) {
      sequence !in excluded && (accepting || sequence in pending)
    }
  }

  datatype Item = Item(sequence: int, arrival: Arrival)

  function Process(cfg: Config, core: Core, item: Item): Core {
    if !core.Accepts(item.sequence) then core else
    var r := React(cfg, core.Lookup(item.sequence), item.arrival);
    core.Store(item.sequence, r.pending).Record(r.book)
  }

  function ProcessAll(cfg: Config, core: Core, items: seq<Item>): Core {
    if items == [] then core
    else Process(cfg, ProcessAll(cfg, core, items[..|items| - 1]), items[|items| - 1])
  }

  function FinishAt(cfg: Config, core: Core, sequence: int): Core
    requires sequence in core.pending
  {
    core.Store(sequence, None).Record(FinishBook(cfg, core.pending[sequence]))
  }

  predicate Expired(b: Batch, cutoff: int, expireAll: bool) {
    expireAll || b.timestamp.GetOr(b.firstObserved) < cutoff
  }

  /** One pass over the given keys in order, finishing the expired batches. */
  function Sweep(cfg: Config, core: Core, keys: seq<int>, cutoff: int, expireAll: bool): Core
    decreases |keys|
  {
    if keys == [] then core else
    var k := keys[0];
    var next := if k in core.pending && Expired(core.pending[k], cutoff, expireAll) then FinishAt(cfg, core, k) else core;
    Sweep(cfg, next, keys[1..], cutoff, expireAll)
  }

  // Callbacks and control operations.

  datatype CallbackStats = CallbackStats(callbacks: nat, sizes: seq<int>, durations: seq<int>) {
    function Plus(c: CallbackStats): CallbackStats {
      CallbackStats(callbacks + c.callbacks, sizes + c.sizes, durations + c.durations)
    }
  }

  const NO_CALLBACKS := CallbackStats(0, [], [])

  datatype State = State(
    measuring: bool, sourceTimeMeasuring: bool, core: Core,
    callbackWindow: CallbackStats, callbackTotal: CallbackStats,
    profiles: set<string>, activity: nat, sourceTimes: SourceTime.State)

  const INITIAL := State(
    false, false, Core(false, {}, map[], EMPTY_BOOK, NO_TOTALS), NO_CALLBACKS, NO_CALLBACKS, {}, 0, SourceTime.EMPTY)

  /** A listener notification; `observed` and `duration` are the clock readings taken inside it. */
  datatype Callback = Callback(events: seq<WireEvent>, market: bool, observed: int, duration: int)

  /** The sequence an event reveals, if any: by a valid marker or by a describable market event. */
  function SequenceOf(cfg: Config, e: WireEvent): Option<int> {
    if e.TextMessage? && MarkerTimestamp(e.text).Some? then Some(e.sequence)
    else
      var d := Describe(e, cfg.maxSequence);
      if d.Some? then Some(d.value.sequence) else None
  }

  /** What an event delivers to correlation while measuring. */
  function ItemOf(cfg: Config, e: WireEvent, observed: int): Option<Item> {
    if e.TextMessage? then
      var timestamp := MarkerTimestamp(e.text);
      if timestamp.Some? then Some(Item(e.sequence, Marker(timestamp.value, observed))) else None
    else
      var d := Describe(e, cfg.maxSequence);
      if d.Some? then
        Some(Item(d.value.sequence, Event(PendingEvent(observed, d.value.sourceMs, d.value.kind, d.value.symbol))))
      else None
  }

  function ItemsOf(cfg: Config, events: seq<WireEvent>, observed: int): seq<Item> {
    if events == [] then [] else
    var item := ItemOf(cfg, events[|events| - 1], observed);
    ItemsOf(cfg, events[..|events| - 1], observed) + if item.Some? then [item.value] else []
  }

  function ProfilesIn(events: seq<WireEvent>): set<string> {
    set e | e in events && e.ProfileEvent? :: e.symbol
  }

  function SequencesIn(cfg: Config, events: seq<WireEvent>): set<int> {
    set e | e in events && SequenceOf(cfg, e).Some? :: SequenceOf(cfg, e).value
  }

  /** Described Trade and TradeETH events carry a source time, which is observed. */
  function ObserveTime(cfg: Config, s: SourceTime.State, event: WireEvent, observed: int): SourceTime.State {
    var d := Describe(event, cfg.maxSequence);
    if d.Some? && d.value.sourceMs.Some? then
      SourceTime.Observed(s, SourceTime.Observation(d.value.kind, d.value.symbol, d.value.sourceMs.value, observed))
    else s
  }

  function ObserveTimes(cfg: Config, s: SourceTime.State, events: seq<WireEvent>, observed: int): SourceTime.State {
    if events == [] then s
    else ObserveTime(cfg, ObserveTimes(cfg, s, events[..|events| - 1], observed), events[|events| - 1], observed)
  }

  function Handle(cfg: Config, st: State, c: Callback): State {
    var seen := st.(profiles := st.profiles + ProfilesIn(c.events));
    if !st.measuring then
      seen.(core := st.core.(excluded := st.core.excluded + SequencesIn(cfg, c.events)))
    else
      var stats := CallbackStats(1, if c.market then [|c.events|] else [], if c.market then [c.duration] else []);
      seen.(activity := st.activity + 1,
            core := ProcessAll(cfg, st.core, ItemsOf(cfg, c.events, c.observed)),
            sourceTimes := if st.sourceTimeMeasuring then ObserveTimes(cfg, st.sourceTimes, c.events, c.observed)
                           else st.sourceTimes,
            callbackWindow := st.callbackWindow.Plus(stats), callbackTotal := st.callbackTotal.Plus(stats))
  }

  function Begin(st: State): State {
    st.(core := st.core.(accepting := true, pending := map[], window := EMPTY_BOOK),
        callbackWindow := NO_CALLBACKS, sourceTimes := SourceTime.EMPTY,
        sourceTimeMeasuring := true, measuring := true)
  }

  function End(st: State): State {
    st.(core := st.core.(accepting := false), sourceTimeMeasuring := false)
  }

  /** The state once expired batches are finished, just before the window is handed out. */
  function Swept(cfg: Config, st: State, now: int, expireAll: bool): State {
    st.(core := Sweep(cfg, st.core, Ascending(st.core.pending.Keys), now - cfg.timeoutMs * NANOS_PER_MILLI, expireAll))
  }

  datatype Window = Window(book: Book, callbacks: CallbackStats, pending: nat)

  function WindowOf(st: State): Window {
    Window(st.core.window, st.callbackWindow, |st.core.pending|)
  }

  function Reset(st: State): State {
    st.(core := st.core.(window := EMPTY_BOOK), callbackWindow := NO_CALLBACKS)
  }

  // Runs.

  datatype Step =
    | Notify(callback: Callback)
    | BeginMeasurement
    | EndMeasurement
    | TakeWindow(now: int, expireAll: bool)

  function Next(cfg: Config, st: State, step: Step): State {
    match step
    case Notify(c) => Handle(cfg, st, c)
    case BeginMeasurement => Begin(st)
    case EndMeasurement => End(st)
    case TakeWindow(now, expireAll) => Reset(Swept(cfg, st, now, expireAll))
  }

  /** The state after a run of steps from construction. */
  function Run(cfg: Config, steps: seq<Step>): State {
    if steps == [] then INITIAL else Next(cfg, Run(cfg, steps[..|steps| - 1]), steps[|steps| - 1])
  }
}
