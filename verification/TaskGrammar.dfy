/** The task language as a grammar: which texts are tasks, and what each denotes. */
module TaskGrammar {
  import opened Common
  import opened Events
  import opened TaskParser
  import opened TaskPattern
  import opened TaskRoundTrip
  import D = Decimal

  // Spellings.

  /** An item as it is written: leading zeros are allowed. */
  datatype Piece = Piece(kind: EventKind, digits: string)

  /** A task as it is written, part by part; a period has a unit, possibly none. */
  datatype Spelling = Spelling(
    pieces: seq<Piece>, period: Option<(string, string)>, universe: Option<string>, regions: Option<string>,
    seed: Option<string>)

  function Letter(kind: EventKind): char {
    match kind
    case Quote => 'Q'
    case Trade => 'T'
    case TradeEth => 'E'
    case Summary => 'S'
    case TimeAndSale => 'N'
  }

  function PieceText(piece: Piece): string {
    [Letter(piece.kind)] + piece.digits
  }

  function PiecesText(pieces: seq<Piece>): string {
    if pieces == [] then ""
    else if |pieces| == 1 then PieceText(pieces[0])
    else PieceText(pieces[0]) + ";" + PiecesText(pieces[1..])
  }

  function PeriodPart(period: Option<(string, string)>): string {
    if period.Some? then "@" + period.value.0 + period.value.1 else ""
  }

  function Part(separator: char, digits: Option<string>): string {
    if digits.Some? then [separator] + digits.value else ""
  }

  function Spelled(sp: Spelling): string {
    "SUB:" + PiecesText(sp.pieces) + PeriodPart(sp.period) + Part('#', sp.universe) + Part('&', sp.regions)
    + Part('~', sp.seed)
  }

  predicate IsNumber(digits: string) {
    digits != "" && D.AllDigits(digits)
  }

  function NumberOf(digits: string): nat {
    if D.AllDigits(digits) then D.Value(digits) else 0
  }

  function UnitOf(unit: string): nat {
    if unit == "ms" then 1 else if unit == "m" then 60_000 else if unit == "h" then 3_600_000 else 1000
  }

  function ItemsOf(pieces: seq<Piece>): (items: seq<Item>)
    ensures |items| == |pieces|
  {
    seq(|pieces|, i requires 0 <= i < |pieces| => Item(pieces[i].kind, NumberOf(pieces[i].digits)))
  }

  /** What a spelling denotes. */
  function Meaning(sp: Spelling): Pattern {
    Pattern(
      ItemsOf(sp.pieces),
      if sp.period.Some? then NumberOf(sp.period.value.0) * UnitOf(sp.period.value.1) else 1000,
      if sp.universe.Some? then Some(NumberOf(sp.universe.value)) else None,
      if sp.regions.Some? then NumberOf(sp.regions.value) else 0,
      if sp.seed.Some? then Some(NumberOf(sp.seed.value)) else None)
  }

  // Which spellings are tasks.

  predicate GoodPieces(pieces: seq<Piece>) {
    && pieces != []
    && (forall i :: 0 <= i < |pieces| ==> IsNumber(pieces[i].digits) && NumberOf(pieces[i].digits) > 0)
    && (forall i, j :: 0 <= i < j < |pieces| ==> pieces[i].kind != pieces[j].kind)
    && Total(ItemsOf(pieces)) <= SIZE_MAX
  }

  predicate GoodPeriod(period: Option<(string, string)>) {
    period.Some? ==>
      && IsNumber(period.value.0) && period.value.1 in {"", "ms", "s", "m", "h"}
      && 0 < NumberOf(period.value.0) <= INT64_MAX / UnitOf(period.value.1)
  }

  predicate GoodUniverse(universe: Option<string>, pieces: seq<Piece>) {
    universe.Some? ==>
      && IsNumber(universe.value) && 0 < NumberOf(universe.value) <= SIZE_MAX
      && forall i :: 0 <= i < |pieces| ==> NumberOf(pieces[i].digits) <= NumberOf(universe.value)
  }

  predicate GoodRegions(regions: Option<string>, symbols: nat) {
    regions.Some? ==>
      && IsNumber(regions.value) && 1 <= NumberOf(regions.value) <= 26
      && symbols <= SIZE_MAX / (NumberOf(regions.value) + 1)
  }

  predicate GoodSeed(seed: Option<string>) {
    seed.Some? ==> IsNumber(seed.value) && NumberOf(seed.value) <= SIZE_MAX
  }

  predicate Good(sp: Spelling) {
    && GoodPieces(sp.pieces) && GoodPeriod(sp.period) && GoodUniverse(sp.universe, sp.pieces)
    && GoodRegions(sp.regions, Meaning(sp).SymbolCount()) && GoodSeed(sp.seed)
  }

  /** The largest quantity, which is the size of the universe unless a text gives one. */
  lemma {:induction false} LargestMeans(items: seq<Item>)
    requires items != []
    ensures forall i :: 0 <= i < |items| ==> items[i].quantity <= Largest(items)
    ensures exists i :: 0 <= i < |items| && items[i].quantity == Largest(items)
  {
    var n := |items| - 1;
    forall i | 0 <= i < |items| ensures items[i].quantity <= Largest(items) {
      LargestBounds(items, i);
    }
    if n > 0 {
      LargestMeans(items[..n]);
      var i :| 0 <= i < n && items[..n][i].quantity == Largest(items[..n]);
      assert items[i].quantity == Largest(items[..n]);
    } else {
      assert items[..0] == [];
    }
  }

  // Printed tasks.

  function PiecesOf(items: seq<Item>): seq<Piece> {
    seq(|items|, i requires 0 <= i < |items| => Piece(items[i].kind, D.ToString(items[i].quantity)))
  }

  /** The spelling that printing chooses: no leading zero, whole seconds where possible, and no default period. */
  function CanonicalSpelling(p: Pattern): Spelling
    requires p.periodMs > 0
  {
    Spelling(
      PiecesOf(p.items),
      if p.periodMs == 1000 then None
      else if p.periodMs % 1000 == 0 then Some((D.ToString(p.periodMs / 1000), "s"))
      else Some((D.ToString(p.periodMs), "ms")),
      if p.subscribedSymbolCount.Some? then Some(D.ToString(p.subscribedSymbolCount.value)) else None,
      if p.regions > 0 then Some(D.ToString(p.regions)) else None,
      if p.seed.Some? then Some(D.ToString(p.seed.value)) else None)
  }

  lemma {:induction false} ItemsSpelled(items: seq<Item>)
    ensures PiecesText(PiecesOf(items)) == ItemsText(items)
  {
    hide D.ToString;
    if items != [] {
      LetterIsCode(items[0].kind);
      ItemsSpelled(items[1..]);
      assert PiecesOf(items)[1..] == PiecesOf(items[1..]);
    }
  }

  lemma LetterIsCode(kind: EventKind)
    ensures Letter(kind) == kind.Code()
  {
  }

  /** Printing spells a pattern canonically. */
  lemma PrintedIsSpelled(p: Pattern)
    requires p.periodMs > 0
    ensures ToText(p) == Spelled(CanonicalSpelling(p))
  {
    hide D.ToString, PiecesText, ItemsText;
    ItemsSpelled(p.items);
    var sp := CanonicalSpelling(p);
    assert PeriodPart(sp.period) == PeriodText(p.periodMs);
    assert Part('#', sp.universe) == UniverseText(p.subscribedSymbolCount);
    assert Part('&', sp.regions) == RegionsText(p.regions) && Part('~', sp.seed) == SeedText(p.seed);
  }

  // Spellings are read.

  lemma NumberRead(digits: string, rest: string, max: nat)
    requires IsNumber(digits) && NumberOf(digits) <= max && (rest == "" || !D.IsDigit(rest[0]))
    ensures D.FromChars(digits + rest, max) == D.Number(NumberOf(digits), |digits|)
  {
    D.DigitPrefixOf(digits, rest);
  }

  lemma LetterRead(kind: EventKind)
    ensures ParseKind(Letter(kind)) == Some(kind)
  {
  }

  lemma PieceRead(done: seq<Item>, piece: Piece, rest: string, position: nat)
    requires IsNumber(piece.digits) && GoodItems(done + [Item(piece.kind, NumberOf(piece.digits))])
    requires rest == "" || rest[0] == ';'
    ensures ParseItem(PieceText(piece) + rest, position, done)
         == Ok((Item(piece.kind, NumberOf(piece.digits)), |PieceText(piece)|))
  {
    var item := Item(piece.kind, NumberOf(piece.digits));
    var s, more := PieceText(piece) + rest, done + [item];
    assert more[|done|] == item && forall i :: 0 <= i < |done| ==> more[i] == done[i];
    LetterRead(piece.kind);
    assert s[1..] == piece.digits + rest;
    TotalAtLeastLast(more);
    NumberRead(piece.digits, rest, SIZE_MAX);
  }

  lemma OnePieceRead(done: seq<Item>, piece: Piece, position: nat)
    requires IsNumber(piece.digits) && GoodItems(done + [Item(piece.kind, NumberOf(piece.digits))])
    ensures ParseItems(PieceText(piece), position, done) == Ok(done + [Item(piece.kind, NumberOf(piece.digits))])
  {
    assert PieceText(piece) + "" == PieceText(piece);
    PieceRead(done, piece, "", position);
  }

  lemma FirstPieceRead(done: seq<Item>, piece: Piece, rest: string, position: nat)
    requires IsNumber(piece.digits) && GoodItems(done + [Item(piece.kind, NumberOf(piece.digits))]) && rest != ""
    ensures ParseItems(PieceText(piece) + (";" + rest), position, done)
         == ParseItems(rest, position + |PieceText(piece)| + 1, done + [Item(piece.kind, NumberOf(piece.digits))])
  {
    hide GoodItems, ParseItem, PieceText, NumberOf;
    var head := PieceText(piece);
    var s := head + (";" + rest);
    PieceRead(done, piece, ";" + rest, position);
    assert s[|head|] == ';' && s[|head| + 1..] == rest;
  }

  lemma PieceLength(piece: Piece)
    requires IsNumber(piece.digits)
    ensures |PieceText(piece)| >= 2
  {
  }

  predicate AllNumbers(pieces: seq<Piece>) {
    forall i :: 0 <= i < |pieces| ==> IsNumber(pieces[i].digits)
  }

  lemma {:induction false} PiecesRead(done: seq<Item>, pieces: seq<Piece>, position: nat)
    requires pieces != [] && AllNumbers(pieces) && GoodItems(done + ItemsOf(pieces))
    ensures PiecesText(pieces) != ""
    ensures ParseItems(PiecesText(pieces), position, done) == Ok(done + ItemsOf(pieces))
    decreases |pieces|
  {
    hide GoodItems, ParseItems, PieceText, NumberOf, IsNumber;
    var piece := pieces[0];
    var item := Item(piece.kind, NumberOf(piece.digits));
    assert IsNumber(piece.digits);
    PieceLength(piece);
    assert done + [item] + ItemsOf(pieces[1..]) == done + ItemsOf(pieces);
    GoodPrefix(done + [item], ItemsOf(pieces[1..]));
    if |pieces| == 1 {
      assert ItemsOf(pieces) == [item];
      OnePieceRead(done, piece, position);
    } else {
      var rest := PiecesText(pieces[1..]);
      PiecesRead(done + [item], pieces[1..], position + |PieceText(piece)| + 1);
      FirstPieceRead(done, piece, rest, position);
      assert PiecesText(pieces) == PieceText(piece) + (";" + rest);
    }
  }

  lemma DigitsPlain(digits: string)
    requires D.AllDigits(digits)
    ensures Plain(digits)
  {
  }

  lemma {:induction false} PiecesPlain(pieces: seq<Piece>)
    requires AllNumbers(pieces)
    ensures Plain(PiecesText(pieces))
  {
    if pieces != [] {
      assert IsNumber(pieces[0].digits);
      DigitsPlain(pieces[0].digits);
      if |pieces| > 1 {
        PiecesPlain(pieces[1..]);
      }
    }
  }

  lemma PartsPrinted(sp: Spelling)
    requires Good(sp)
    ensures Printed(PeriodPart(sp.period), '@') && Printed(Part('#', sp.universe), '#')
    ensures Printed(Part('&', sp.regions), '&') && Printed(Part('~', sp.seed), '~')
    ensures Body(Part('#', sp.universe)) == sp.universe && Body(Part('&', sp.regions)) == sp.regions
    ensures Body(Part('~', sp.seed)) == sp.seed
    ensures Body(PeriodPart(sp.period))
         == if sp.period.Some? then Some(sp.period.value.0 + sp.period.value.1) else None
  {
    hide GoodPieces, D.Value, NumberOf;
    if sp.period.Some? {
      assert PeriodPart(sp.period)[1..] == sp.period.value.0 + sp.period.value.1;
    }
  }

  lemma PeriodRead(period: Option<(string, string)>, position: nat)
    requires GoodPeriod(period)
    ensures ParsePeriod(if period.Some? then Some(period.value.0 + period.value.1) else None, position)
         == Ok(if period.Some? then NumberOf(period.value.0) * UnitOf(period.value.1) else 1000)
  {
    hide D.Value, ParseDuration;
    if period.Some? {
      var (digits, unit) := period.value;
      DurationDenotes(digits, unit);
      NoSeparator(digits + unit, '@');
    }
  }

  lemma CountRead(digits: string, max: nat, separator: char)
    requires IsNumber(digits) && NumberOf(digits) <= max && separator in {'@', '#', '&', '~'}
    ensures D.FromChars(digits, max) == D.Number(NumberOf(digits), |digits|)
    ensures Find(digits, separator, 0) == |digits|
  {
    assert digits + "" == digits;
    NumberRead(digits, "", max);
    DigitsPlain(digits);
    NoSeparator(digits, separator);
  }

  lemma CountsRead(sp: Spelling, i: nat, j: nat, k: nat)
    requires Good(sp)
    ensures ParseUniverse(sp.universe, i, Largest(ItemsOf(sp.pieces))) == Ok(Meaning(sp).subscribedSymbolCount)
    ensures ParseRegions(sp.regions, j, Meaning(sp).SymbolCount()) == Ok(Meaning(sp).regions)
    ensures ParseSeed(sp.seed, k) == Ok(Meaning(sp).seed)
  {
    hide D.Value, D.FromChars, Find, NumberOf;
    if sp.universe.Some? {
      CountRead(sp.universe.value, SIZE_MAX, '#');
      LargestMeans(ItemsOf(sp.pieces));
    }
    if sp.regions.Some? {
      CountRead(sp.regions.value, SIZE_MAX, '&');
    }
    if sp.seed.Some? {
      CountRead(sp.seed.value, SIZE_MAX, '~');
    }
  }

  lemma PiecesGood(pieces: seq<Piece>)
    requires GoodPieces(pieces)
    ensures pieces != [] && GoodItems(ItemsOf(pieces)) && AllNumbers(pieces)
  {
    hide NumberOf, D.Value;
  }

  lemma PartsRead(sp: Spelling, l: Layout)
    requires Good(sp)
    ensures ParseFields(Fields(PiecesText(sp.pieces), Body(PeriodPart(sp.period)), Body(Part('#', sp.universe)),
                               Body(Part('&', sp.regions)), Body(Part('~', sp.seed))), l) == Ok(Meaning(sp))
  {
    hide ParseItems, ParsePeriod, ParseUniverse, ParseRegions, ParseSeed, PiecesText, PeriodPart, Part, Body, GoodPieces,
      GoodItems, AllNumbers, Largest, NumberOf;
    PartsPrinted(sp);
    PiecesGood(sp.pieces);
    assert [] + ItemsOf(sp.pieces) == ItemsOf(sp.pieces);
    PiecesRead([], sp.pieces, 4);
    PeriodRead(sp.period, l.at + 1);
    CountsRead(sp, l.hash + 1, l.ampersand + 1, l.tilde + 1);
  }

  /** Every good spelling is accepted, and means what it denotes. */
  lemma SpellingParses(sp: Spelling)
    requires Good(sp)
    ensures ParseTask(Spelled(sp)) == Ok(Meaning(sp))
  {
    hide PiecesText, PeriodPart, Part, Body, Plain, Printed, ParseFields, Good, Meaning, LayoutOf, OrderError, Split;
    var text := Spelled(sp);
    AcceptedPieces(sp);
    PiecesPlain(sp.pieces);
    PartsPrinted(sp);
    SplitPrinted(PiecesText(sp.pieces), PeriodPart(sp.period), Part('#', sp.universe), Part('&', sp.regions),
                 Part('~', sp.seed), text);
    assert PREFIX <= text;
    PartsRead(sp, LayoutOf(text));
  }

  lemma AcceptedPieces(sp: Spelling)
    requires Good(sp)
    ensures AllNumbers(sp.pieces)
  {
    PiecesGood(sp.pieces);
  }

  // Whatever is read was spelled.

  lemma NumberFound(s: string, max: nat)
    requires D.FromChars(s, max).Number?
    ensures
      var r := D.FromChars(s, max);
      IsNumber(s[..r.length]) && NumberOf(s[..r.length]) == r.value
  {
  }

  lemma KindFound(c: char)
    requires ParseKind(c).Some?
    ensures Letter(ParseKind(c).value) == c
  {
  }

  lemma PieceFound(s: string, position: nat, items: seq<Item>) returns (piece: Piece)
    requires s != "" && ParseItem(s, position, items).Ok?
    ensures
      var (item, length) := ParseItem(s, position, items).value;
      && 2 <= length <= |s| && IsNumber(piece.digits) && PieceText(piece) == s[..length]
      && item == Item(piece.kind, NumberOf(piece.digits))
  {
    var (item, length) := ParseItem(s, position, items).value;
    NumberFound(s[1..], SIZE_MAX);
    KindFound(s[0]);
    piece := Piece(item.kind, s[1..length]);
    assert s[1..][..length - 1] == s[1..length];
    assert s[..length] == [s[0]] + s[1..length];
  }

  lemma {:induction false} PiecesFound(s: string, position: nat, done: seq<Item>) returns (pieces: seq<Piece>)
    requires s != "" && ParseItems(s, position, done).Ok?
    ensures pieces != [] && AllNumbers(pieces) && PiecesText(pieces) == s
    ensures ParseItems(s, position, done).value == done + ItemsOf(pieces)
    decreases |s|
  {
    hide ParseItem, PieceText, NumberOf, IsNumber;
    var (item, length) := ParseItem(s, position, done).value;
    var piece := PieceFound(s, position, done);
    if length == |s| {
      pieces := [piece];
      assert s[..length] == s;
      assert ItemsOf(pieces) == [item];
    } else {
      var rest := PiecesFound(s[length + 1..], position + length + 1, done + [item]);
      pieces := [piece] + rest;
      assert pieces[1..] == rest;
      assert ItemsOf(pieces) == [item] + ItemsOf(rest);
      assert done + [item] + ItemsOf(rest) == done + ItemsOf(pieces);
      assert s == s[..length] + ";" + s[length + 1..];
    }
  }

  lemma PeriodFound(field: Option<string>, position: nat) returns (period: Option<(string, string)>)
    requires ParsePeriod(field, position).Ok?
    ensures GoodPeriod(period)
    ensures field == if period.Some? then Some(period.value.0 + period.value.1) else None
    ensures ParsePeriod(field, position).value
         == if period.Some? then NumberOf(period.value.0) * UnitOf(period.value.1) else 1000
  {
    hide ParseDuration, Find, D.Value;
    period := None;
    if field.Some? {
      var digits, unit := DurationOnlyDenotes(field.value);
      DurationDenotes(digits, unit);
      period := Some((digits, unit));
    }
  }

  lemma WholeNumber(s: string, max: nat)
    requires D.FromChars(s, max).Number? && D.FromChars(s, max).length == |s|
    ensures IsNumber(s) && NumberOf(s) == D.FromChars(s, max).value
  {
    NumberFound(s, max);
    assert s[..|s|] == s;
  }

  lemma UniverseFound(universe: Option<string>, position: nat, pieces: seq<Piece>)
    requires pieces != [] && ParseUniverse(universe, position, Largest(ItemsOf(pieces))).Ok?
    ensures GoodUniverse(universe, pieces)
    ensures ParseUniverse(universe, position, Largest(ItemsOf(pieces))).value
         == if universe.Some? then Some(NumberOf(universe.value)) else None
  {
    hide D.FromChars, Find, NumberOf, IsNumber;
    if universe.Some? {
      WholeNumber(universe.value, SIZE_MAX);
      LargestMeans(ItemsOf(pieces));
      forall i | 0 <= i < |pieces| ensures NumberOf(pieces[i].digits) <= NumberOf(universe.value) {
        assert ItemsOf(pieces)[i].quantity <= Largest(ItemsOf(pieces));
      }
    }
  }

  lemma CountsFound(regions: Option<string>, seed: Option<string>, position: nat, symbols: nat)
    ensures ParseRegions(regions, position, symbols).Ok? ==>
              && GoodRegions(regions, symbols)
              && ParseRegions(regions, position, symbols).value == if regions.Some? then NumberOf(regions.value) else 0
    ensures ParseSeed(seed, position).Ok? ==>
              && GoodSeed(seed)
              && ParseSeed(seed, position).value == if seed.Some? then Some(NumberOf(seed.value)) else None
  {
    hide D.FromChars, Find, NumberOf, IsNumber;
    if ParseRegions(regions, position, symbols).Ok? && regions.Some? {
      WholeNumber(regions.value, SIZE_MAX);
    }
    if ParseSeed(seed, position).Ok? && seed.Some? {
      WholeNumber(seed.value, SIZE_MAX);
    }
  }

  lemma FieldsFound(f: Fields, l: Layout) returns (sp: Spelling)
    requires ParseFields(f, l).Ok?
    ensures Good(sp) && Meaning(sp) == ParseFields(f, l).value
    ensures f == Fields(PiecesText(sp.pieces), if sp.period.Some? then Some(sp.period.value.0 + sp.period.value.1) else None,
                        sp.universe, sp.regions, sp.seed)
  {
    hide ParseItems, ParsePeriod, ParseUniverse, ParseRegions, ParseSeed, PiecesText, GoodPeriod, GoodUniverse, GoodRegions,
      GoodSeed, GoodItems, NumberOf, AllNumbers, Largest, GoodPieces;
    var pieces := PiecesFound(f.items, 4, []);
    NoItemsGood();
    ItemsSound(f.items, 4, []);
    assert [] + ItemsOf(pieces) == ItemsOf(pieces);
    var period := PeriodFound(f.period, l.at + 1);
    UniverseFound(f.universe, l.hash + 1, pieces);
    var universe := ParseUniverse(f.universe, l.hash + 1, Largest(ItemsOf(pieces))).value;
    var symbols := universe.GetOr(Largest(ItemsOf(pieces)));
    CountsFound(f.regions, None, l.ampersand + 1, symbols);
    CountsFound(None, f.seed, l.tilde + 1, 0);
    FoundGood(pieces);
    sp := Spelling(pieces, period, f.universe, f.regions, f.seed);
  }

  lemma NoItemsGood()
    ensures GoodItems([])
  {
  }

  lemma FoundGood(pieces: seq<Piece>)
    requires pieces != [] && AllNumbers(pieces) && GoodItems(ItemsOf(pieces))
    ensures GoodPieces(pieces)
  {
    hide NumberOf, IsNumber;
    forall i | 0 <= i < |pieces| ensures IsNumber(pieces[i].digits) && NumberOf(pieces[i].digits) > 0 {
      assert ItemsOf(pieces)[i].quantity > 0;
    }
    forall i, j | 0 <= i < j < |pieces| ensures pieces[i].kind != pieces[j].kind {
      assert ItemsOf(pieces)[i].kind != ItemsOf(pieces)[j].kind;
    }
  }

  function OptionalPart(separator: char, field: Option<string>): string {
    if field.Some? then [separator] + field.value else ""
  }

  lemma SplitJoins(text: string)
    requires |text| >= 4 && OrderError(LayoutOf(text), |text|).None?
    ensures
      var f := Split(text);
      text == text[..4] + f.items + OptionalPart('@', f.period) + OptionalPart('#', f.universe)
              + OptionalPart('&', f.regions) + OptionalPart('~', f.seed)
  {
    hide LayoutOf, OrderError, OptionalPart, FieldText;
    var l, n := LayoutOf(text), |text|;
    InOrder(text, l);
    LayoutChars(text);
    var d := l.tilde;
    var c := Min(l.ampersand, d);
    var b := Min(l.hash, c);
    var a := Min(l.at, b);
    Cut(text, '@', l.at, a, b);
    Cut(text, '#', l.hash, b, c);
    Cut(text, '&', l.ampersand, c, d);
    Cut(text, '~', l.tilde, d, n);
    Segments(text, a, b, c, d);
  }

  lemma LayoutChars(text: string)
    requires |text| >= 4
    ensures
      var l := LayoutOf(text);
      && (l.at < |text| ==> text[l.at] == '@') && (l.hash < |text| ==> text[l.hash] == '#')
      && (l.ampersand < |text| ==> text[l.ampersand] == '&') && (l.tilde < |text| ==> text[l.tilde] == '~')
  {
  }

  lemma Segments(text: string, a: nat, b: nat, c: nat, d: nat)
    requires 4 <= a <= b <= c <= d <= |text|
    ensures text == text[..4] + text[4..a] + text[a..b] + text[b..c] + text[c..d] + text[d..|text|]
  {
  }

  /** A field with its separator is the stretch of text between two positions. */
  lemma Cut(text: string, separator: char, at: nat, start: nat, end: nat)
    requires at <= |text| && end <= |text| && start == Min(at, end)
    requires at < |text| ==> at < end && text[at] == separator
    ensures OptionalPart(separator, FieldText(text, at, end)) == text[start..end]
  {
    if at < |text| {
      assert text[start..end] == [text[at]] + text[at + 1..end];
    } else {
      assert text[start..end] == "";
    }
  }

  /** Every accepted text is a good spelling. */
  lemma ParsedIsSpelled(text: string) returns (sp: Spelling)
    requires ParseTask(text).Ok?
    ensures Good(sp) && Spelled(sp) == text && Meaning(sp) == ParseTask(text).value
  {
    hide ParseFields, LayoutOf, OrderError, Split, Good, Meaning, PiecesText;
    sp := FieldsFound(Split(text), LayoutOf(text));
    SplitJoins(text);
    assert text[..4] == PREFIX;
    if sp.period.Some? {
      assert "@" + (sp.period.value.0 + sp.period.value.1) == PeriodPart(sp.period);
    }
  }

  /** A text denotes a pattern exactly when it is a good spelling of it. */
  lemma DenotesIffSpelled(text: string, p: Pattern)
    ensures ParseTask(text) == Ok(p) <==> exists sp :: Good(sp) && Spelled(sp) == text && Meaning(sp) == p
  {
    hide ParseTask, Good, Spelled, Meaning;
    if ParseTask(text) == Ok(p) {
      var sp := ParsedIsSpelled(text);
    }
    if sp :| Good(sp) && Spelled(sp) == text && Meaning(sp) == p {
      SpellingParses(sp);
    }
  }
}
