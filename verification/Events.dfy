/** The event vocabulary shared by server and client. */
module Events {
  datatype EventKind = Quote | Trade | TradeEth | Summary | TimeAndSale {
    /** The task-DSL letter, which is also the enumerator's value. */
    function Code(): char {
      match this
      case Quote => 'Q'
      case Trade => 'T'
      case TradeEth => 'E'
      case Summary => 'S'
      case TimeAndSale => 'N'
    }
  }

  const NANOS_PER_MILLI := 1_000_000

  type MarketKind = k: EventKind | !k.TimeAndSale? witness Quote

  /** The marker-correlated kinds, in the order in which the client walks its per-kind arrays. */
  const MARKET_KINDS: seq<MarketKind> := [Quote, Trade, TradeEth, Summary]

  /** A fixed array with one slot per market kind. */
  datatype PerKind<T> = PerKind(quote: T, trade: T, tradeEth: T, summary: T) {
    function At(k: MarketKind): T {
      match k
      case Quote => quote
      case Trade => trade
      case TradeEth => tradeEth
      case Summary => summary
    }

    function Put(k: MarketKind, value: T): PerKind<T> {
      match k
      case Quote => this.(quote := value)
      case Trade => this.(trade := value)
      case TradeEth => this.(tradeEth := value)
      case Summary => this.(summary := value)
    }
  }

  type Counts = PerKind<nat>

  const NONE_OF_EACH: Counts := PerKind(0, 0, 0, 0)

  function PlusCounts(a: Counts, b: Counts): Counts {
    PerKind(a.quote + b.quote, a.trade + b.trade, a.tradeEth + b.tradeEth, a.summary + b.summary)
  }

  function SumCounts(a: Counts): nat {
    a.quote + a.trade + a.tradeEth + a.summary
  }

  /** Event flags of an indexed event, as a set of booleans. */
  datatype Flags = Flags(begin: bool, end: bool, snip: bool, remove: bool)

  const NO_FLAGS := Flags(false, false, false, false)

  /** A double read from the wire: only finite values carry a number. */
  datatype Double = NotFinite | Finite(value: real)

  /** The fields of published events that the client reads. */
  datatype WireEvent =
    | ProfileEvent(symbol: string)
    | TextMessage(sequence: int, text: string)
    | QuoteEvent(symbol: string, bidSize: Double)
    | TradeEvent(symbol: string, sequence: int, timeNanos: int)
    | TradeEthEvent(symbol: string, sequence: int, timeNanos: int)
    | SummaryEvent(symbol: string, dayId: int)
    | TimeAndSaleEvent(symbol: string, timeNanos: int, sequence: int, price: real, flags: Flags)
}
