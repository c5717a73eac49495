/** The task-pattern parser (src/core.cpp) and its inverse, printing. */
module TaskParser {
  import opened Common
  import opened Events
  import opened TaskPattern
  import D = Decimal

  /** The diagnostics, one constructor for each message text. */
  datatype Fault =
    | ExpectedPrefix | SymbolCountMustFollowPublishPeriod | ShuffleSeedMustFollowPublishPeriod
    | ShuffleSeedMustFollowSymbolCount | RegionalSourceCountMustFollowPublishPeriod
    | RegionalSourceCountMustFollowSymbolCount | ShuffleSeedMustFollowRegionalSourceCount | ExpectedEventPattern
    | UnknownEventType | DuplicateEventType | QuantityIsTooLarge | ExpectedPositiveQuantity
    | QuantityMustBeGreaterThanZero | TotalQuantityIsTooLarge | ExpectedItemSeparator | TrailingSeparator
    | ExpectedPublishPeriod | DuplicatePublishPeriod | ExpectedSymbolCount | DuplicateSymbolCount
    | InvalidSymbolCount | SymbolCountMustNotBeSmallerThanAnEventQuantity | ExpectedRegionalSourceCount
    | DuplicateRegionalSourceCount | RegionalSourceCountMustBeFromOneToTwentySix | MarketSymbolCountIsTooLarge
    | ExpectedShuffleSeed | DuplicateShuffleSeed | InvalidShuffleSeed | EmptyDuration | InvalidDuration

  datatype ParseError = ParseError(position: nat, fault: Fault)

  type Parsed<T> = Result<T, ParseError>

  function Fail<T>(position: nat, fault: Fault): Parsed<T> {
    Err(ParseError(position, fault))
  }

  function ParseKind(c: char): Option<EventKind> {
    match c
    case 'Q' => Some(Quote)
    case 'T' => Some(Trade)
    case 'E' => Some(TradeEth)
    case 'S' => Some(Summary)
    case 'N' => Some(TimeAndSale)
    case _ => None
  }

  /** First position of a character at or after `from`, or the length of the text when there is none. */
  function Find(s: string, c: char, from: nat): (i: nat)
    requires from <= |s|
    ensures from <= i <= |s|
    ensures forall j :: from <= j < i ==> s[j] != c
    ensures i < |s| ==> s[i] == c
    decreases |s| - from
  {
    if from == |s| || s[from] == c then from else Find(s, c, from + 1)
  }

  // Durations.

  function Multiplier(text: string): nat {
    if |text| >= 2 && text[|text| - 2..] == "ms" then 1
    else if text != "" && text[|text| - 1] == 's' then 1000
    else if text != "" && text[|text| - 1] == 'm' then 60_000
    else if text != "" && text[|text| - 1] == 'h' then 3_600_000
    else 1000
  }

  function SuffixLength(text: string): (n: nat)
    ensures n <= |text|
  {
    if |text| >= 2 && text[|text| - 2..] == "ms" then 2
    else if text != "" && text[|text| - 1] in {'s', 'm', 'h'} then 1
    else 0
  }

  /** A positive duration in milliseconds; a leading minus can only lead to rejection, as any other non-digit. */
  function ParseDuration(text: string): Result<int, Fault> {
    if text == "" then Err(EmptyDuration) else
    var number := text[..|text| - SuffixLength(text)];
    match D.FromChars(number, INT64_MAX)
    case Number(value, length) =>
      if length == |number| && value > 0 && value <= INT64_MAX / Multiplier(text) then Ok(value * Multiplier(text))
      else Err(InvalidDuration)
    case _ => Err(InvalidDuration)
  }

  // The parts of a task.

  function HasKind(items: seq<Item>, kind: EventKind): bool {
    exists i :: 0 <= i < |items| && items[i].kind == kind
  }

  /** One item at the front of `s`; its length in characters accompanies it. */
  function ParseItem(s: string, position: nat, items: seq<Item>): Parsed<(Item, nat)>
    requires s != ""
  {
    var kind := ParseKind(s[0]);
    if kind.None? then Fail(position, UnknownEventType)
    else if HasKind(items, kind.value) then Fail(position, DuplicateEventType)
    else
      match D.FromChars(s[1..], SIZE_MAX)
      case OutOfRange(_) => Fail(position + 1, QuantityIsTooLarge)
      case NoNumber => Fail(position + 1, ExpectedPositiveQuantity)
      case Number(quantity, length) =>
        if quantity == 0 then Fail(position + 1, QuantityMustBeGreaterThanZero)
        else if Total(items + [Item(kind.value, quantity)]) > SIZE_MAX then Fail(position, TotalQuantityIsTooLarge)
        else Ok((Item(kind.value, quantity), 1 + length))
  }

  lemma ParseItemLength(s: string, position: nat, items: seq<Item>)
    requires s != "" && ParseItem(s, position, items).Ok?
    ensures 2 <= ParseItem(s, position, items).value.1 <= |s|
  {
  }

  /** The items in `s`, which starts at `position`, after those already read. */
  function ParseItems(s: string, position: nat, items: seq<Item>): Parsed<seq<Item>>
    requires s != ""
    decreases |s|
  {
    match ParseItem(s, position, items)
    case Err(e) => Err(e)
    case Ok((item, length)) =>
      ParseItemLength(s, position, items);
      var next := position + length;
      if length == |s| then Ok(items + [item])
      else if s[length] != ';' then Fail(next, ExpectedItemSeparator)
      else if length + 1 == |s| then Fail(next + 1, TrailingSeparator)
      else ParseItems(s[length + 1..], next + 1, items + [item])
  }

  /** A separated field: `text[start + 1..end]`, or nothing when the separator is absent. */
  function FieldText(text: string, start: nat, end: nat): Option<string>
    requires start <= |text| && end <= |text| && (start < |text| ==> start < end)
  {
    if start == |text| then None else Some(text[start + 1..end])
  }

  function ParsePeriod(field: Option<string>, position: nat): Parsed<int> {
    match field
    case None => Ok(DEFAULT_PERIOD_MS)
    case Some(s) =>
      if s == "" then Fail(position, ExpectedPublishPeriod)
      else if Find(s, '@', 0) < |s| then Fail(position + Find(s, '@', 0), DuplicatePublishPeriod)
      else
        match ParseDuration(s)
        case Err(fault) => Fail(position, fault)
        case Ok(value) => Ok(value)
  }

  function ParseUniverse(field: Option<string>, position: nat, largest: nat): Parsed<Option<nat>> {
    match field
    case None => Ok(None)
    case Some(s) =>
      if s == "" then Fail(position, ExpectedSymbolCount)
      else if Find(s, '#', 0) < |s| then Fail(position + Find(s, '#', 0), DuplicateSymbolCount)
      else
        match D.FromChars(s, SIZE_MAX)
        case Number(count, length) =>
          if length != |s| || count == 0 then Fail(position, InvalidSymbolCount)
          else if count < largest then Fail(position, SymbolCountMustNotBeSmallerThanAnEventQuantity)
          else Ok(Some(count))
        case _ => Fail(position, InvalidSymbolCount)
  }

  function ParseRegions(field: Option<string>, position: nat, symbolCount: nat): Parsed<nat> {
    match field
    case None => Ok(0)
    case Some(s) =>
      if s == "" then Fail(position, ExpectedRegionalSourceCount)
      else if Find(s, '&', 0) < |s| then Fail(position + Find(s, '&', 0), DuplicateRegionalSourceCount)
      else
        match D.FromChars(s, SIZE_MAX)
        case Number(count, length) =>
          if length != |s| || count == 0 || count > MAX_REGIONS then
            Fail(position, RegionalSourceCountMustBeFromOneToTwentySix)
          else if symbolCount > SIZE_MAX / (count + 1) then Fail(position, MarketSymbolCountIsTooLarge)
          else Ok(count)
        case _ => Fail(position, RegionalSourceCountMustBeFromOneToTwentySix)
  }

  function ParseSeed(field: Option<string>, position: nat): Parsed<Option<nat>> {
    match field
    case None => Ok(None)
    case Some(s) =>
      if s == "" then Fail(position, ExpectedShuffleSeed)
      else if Find(s, '~', 0) < |s| then Fail(position + Find(s, '~', 0), DuplicateShuffleSeed)
      else
        match D.FromChars(s, SIZE_MAX)
        case Number(seed, length) =>
          if length != |s| then Fail(position, InvalidShuffleSeed) else Ok(Some(seed))
        case _ => Fail(position, InvalidShuffleSeed)
  }

  /** Positions of the four separators; an absent one sits at the end of the text. */
  datatype Layout = Layout(at: nat, hash: nat, ampersand: nat, tilde: nat)

  const PREFIX := "SUB:"

  function LayoutOf(text: string): (l: Layout)
    requires |text| >= 4
    ensures 4 <= l.at <= |text| && 4 <= l.hash <= |text| && 4 <= l.ampersand <= |text| && 4 <= l.tilde <= |text|
  {
    Layout(Find(text, '@', 4), Find(text, '#', 4), Find(text, '&', 4), Find(text, '~', 4))
  }

  function OrderError(l: Layout, n: nat): Option<ParseError> {
    if l.at < n && l.hash < l.at then Some(ParseError(l.hash, SymbolCountMustFollowPublishPeriod))
    else if l.at < n && l.tilde < l.at then Some(ParseError(l.tilde, ShuffleSeedMustFollowPublishPeriod))
    else if l.hash < n && l.tilde < l.hash then Some(ParseError(l.tilde, ShuffleSeedMustFollowSymbolCount))
    else if l.at < n && l.ampersand < l.at then
      Some(ParseError(l.ampersand, RegionalSourceCountMustFollowPublishPeriod))
    else if l.hash < n && l.ampersand < l.hash then
      Some(ParseError(l.ampersand, RegionalSourceCountMustFollowSymbolCount))
    else if l.ampersand < n && l.tilde < l.ampersand then
      Some(ParseError(l.tilde, ShuffleSeedMustFollowRegionalSourceCount))
    else None
  }

  /** The four fields and the item text, once the separators are in order. */
  datatype Fields = Fields(
    items: string, period: Option<string>, universe: Option<string>, regions: Option<string>, seed: Option<string>)

  lemma InOrder(text: string, l: Layout)
    requires |text| >= 4 && l == LayoutOf(text) && OrderError(l, |text|).None?
    ensures l.at < |text| ==> l.at < l.hash && l.at < l.ampersand && l.at < l.tilde
    ensures l.hash < |text| ==> l.hash < l.ampersand && l.hash < l.tilde
    ensures l.ampersand < |text| ==> l.ampersand < l.tilde
  {
  }

  function Split(text: string): Fields
    requires |text| >= 4 && OrderError(LayoutOf(text), |text|).None?
  {
    var l := LayoutOf(text);
    InOrder(text, l);
    var regionsEnd := l.tilde;
    var universeEnd := Min(l.ampersand, regionsEnd);
    var periodEnd := Min(l.hash, universeEnd);
    var itemsEnd := Min(l.at, periodEnd);
    Fields(text[4..itemsEnd], FieldText(text, l.at, periodEnd), FieldText(text, l.hash, universeEnd),
           FieldText(text, l.ampersand, regionsEnd), FieldText(text, l.tilde, |text|))
  }

  /** The checks on the fields, in source order; each field starts just after its separator. */
  function ParseFields(f: Fields, l: Layout): Parsed<Pattern> {
    if f.items == "" then Fail(4, ExpectedEventPattern) else
    match ParseItems(f.items, 4, [])
    case Err(e) => Err(e)
    case Ok(items) =>
      match ParsePeriod(f.period, l.at + 1)
      case Err(e) => Err(e)
      case Ok(period) =>
        match ParseUniverse(f.universe, l.hash + 1, Largest(items))
        case Err(e) => Err(e)
        case Ok(universe) =>
          match ParseRegions(f.regions, l.ampersand + 1, universe.GetOr(Largest(items)))
          case Err(e) => Err(e)
          case Ok(regions) =>
            match ParseSeed(f.seed, l.tilde + 1)
            case Err(e) => Err(e)
            case Ok(seed) => Ok(Pattern(items, period, universe, regions, seed))
  }

  function ParseTask(text: string): Parsed<Pattern> {
    if !(PREFIX <= text) then Fail(0, ExpectedPrefix) else
    var l := LayoutOf(text);
    match OrderError(l, |text|)
    case Some(e) => Err(e)
    case None => ParseFields(Split(text), l)
  }

  /** Reads one item at `start`; on success `pos` is the position after it. */
  method ReadItem(text: string, start: nat, patternEnd: nat, items: seq<Item>) returns (r: Parsed<Item>, pos: nat)
    requires start < patternEnd <= |text|
    ensures
      match ParseItem(text[start..patternEnd], start, items)
      case Err(e) => r == Err(e)
      case Ok((item, length)) => r == Ok(item) && pos == start + length
  {
    ghost var s := text[start..patternEnd];
    pos := start;
    var kind := ParseKind(text[pos]);
    if kind.None? {
      return Fail(pos, UnknownEventType), pos;
    }
    if HasKind(items, kind.value) {
      return Fail(pos, DuplicateEventType), pos;
    }
    pos := pos + 1;
    assert text[pos..patternEnd] == s[1..];
    match D.FromChars(text[pos..patternEnd], SIZE_MAX) {
      case OutOfRange(_) => return Fail(pos, QuantityIsTooLarge), pos;
      case NoNumber => return Fail(pos, ExpectedPositiveQuantity), pos;
      case Number(quantity, length) =>
        if quantity == 0 {
          return Fail(pos, QuantityMustBeGreaterThanZero), pos;
        }
        if Total(items + [Item(kind.value, quantity)]) > SIZE_MAX {
          return Fail(start, TotalQuantityIsTooLarge), pos;
        }
        return Ok(Item(kind.value, quantity)), pos + length;
    }
  }

  /** The item loop: reads `text[4..patternEnd]` left to right, stopping at the first fault. */
  method ParsePattern(text: string, patternEnd: nat) returns (r: Parsed<seq<Item>>)
    requires 4 < patternEnd <= |text|
    ensures r == ParseItems(text[4..patternEnd], 4, [])
  {
    hide ParseItem;
    var pos := 4;
    var items: seq<Item> := [];
    while pos < patternEnd
      invariant 4 <= pos < patternEnd
      invariant ParseItems(text[pos..patternEnd], pos, items) == ParseItems(text[4..patternEnd], 4, [])
      decreases patternEnd - pos
    {
      ghost var start, s := pos, text[pos..patternEnd];
      var item, next := ReadItem(text, pos, patternEnd, items);
      if item.Err? {
        return Err(item.error);
      }
      ParseItemLength(s, start, items);
      items, pos := items + [item.value], next;
      if pos == patternEnd {
        return Ok(items);
      }
      assert text[pos] == s[pos - start];
      if text[pos] != ';' {
        return Fail(pos, ExpectedItemSeparator);
      }
      pos := pos + 1;
      if pos == patternEnd {
        return Fail(pos, TrailingSeparator);
      }
      assert text[pos..patternEnd] == s[pos - start..];
    }
  }

  method ParseTaskText(text: string) returns (r: Parsed<Pattern>)
    ensures r == ParseTask(text)
  {
    hide ParseItems, ParsePeriod, ParseUniverse, ParseRegions, ParseSeed, Find;
    if !(PREFIX <= text) {
      return Fail(0, ExpectedPrefix);
    }
    var l := LayoutOf(text);
    var fault := OrderError(l, |text|);
    if fault.Some? {
      return Err(fault.value);
    }
    InOrder(text, l);
    var periodEnd := Min(l.hash, Min(l.ampersand, l.tilde));
    var patternEnd := Min(l.at, periodEnd);
    if patternEnd == 4 {
      return Fail(4, ExpectedEventPattern);
    }
    var items := ParsePattern(text, patternEnd);
    if items.Err? {
      return Err(items.error);
    }
    var task := Pattern(items.value, DEFAULT_PERIOD_MS, None, 0, None);
    var period := ParsePeriod(FieldText(text, l.at, periodEnd), l.at + 1);
    if period.Err? {
      return Err(period.error);
    }
    task := task.(periodMs := period.value);
    var universe := ParseUniverse(FieldText(text, l.hash, Min(l.ampersand, l.tilde)), l.hash + 1, task.SymbolCount());
    if universe.Err? {
      return Err(universe.error);
    }
    task := task.(subscribedSymbolCount := universe.value);
    var regions := ParseRegions(FieldText(text, l.ampersand, l.tilde), l.ampersand + 1, task.SymbolCount());
    if regions.Err? {
      return Err(regions.error);
    }
    task := task.(regions := regions.value);
    var seed := ParseSeed(FieldText(text, l.tilde, |text|), l.tilde + 1);
    if seed.Err? {
      return Err(seed.error);
    }
    return Ok(task.(seed := seed.value));
  }
}
