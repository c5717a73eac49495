/** What each parse error means: where it points and what is wrong there. */
module TaskDiagnosis {
  import opened Common
  import opened Events
  import opened TaskGrammar
  import opened TaskParser
  import opened TaskPattern
  import opened TaskRoundTrip
  import D = Decimal

  // Items.

  /** Items that have been read, each with the separator after it. */
  function Lead(pieces: seq<Piece>): string {
    if pieces == [] then "" else PieceText(pieces[0]) + ";" + Lead(pieces[1..])
  }

  predicate IsLetter(c: char) {
    c in {'Q', 'T', 'E', 'S', 'N'}
  }

  predicate Taken(items: seq<Item>, c: char) {
    exists i :: 0 <= i < |items| && Letter(items[i].kind) == c
  }

  /** A new letter, then a number, then no digit. */
  predicate Numbered(items: seq<Item>, rest: string, digits: string) {
    && |rest| >= 1 + |digits| && IsLetter(rest[0]) && !Taken(items, rest[0])
    && IsNumber(digits) && rest[1..1 + |digits|] == digits
    && (|rest| > 1 + |digits| ==> !D.IsDigit(rest[1 + |digits|]))
  }

  predicate Fits(items: seq<Item>, digits: string) {
    0 < NumberOf(digits) <= SIZE_MAX && Total(items) + NumberOf(digits) <= SIZE_MAX
  }

  /** What is wrong with the rest of the items, k characters on, when these have been read. */
  ghost predicate ItemFault(items: seq<Item>, rest: string, fault: Fault, k: int) {
    match fault
    case UnknownEventType => k == 0 && rest != "" && !IsLetter(rest[0])
    case DuplicateEventType => k == 0 && rest != "" && IsLetter(rest[0]) && Taken(items, rest[0])
    case ExpectedPositiveQuantity =>
      k == 1 && rest != "" && IsLetter(rest[0]) && !Taken(items, rest[0]) && (|rest| > 1 ==> !D.IsDigit(rest[1]))
    case QuantityIsTooLarge => k == 1 && exists digits :: Numbered(items, rest, digits) && NumberOf(digits) > SIZE_MAX
    case QuantityMustBeGreaterThanZero => k == 1 && exists digits :: Numbered(items, rest, digits) && NumberOf(digits) == 0
    case TotalQuantityIsTooLarge =>
      k == 0 && exists digits :: Numbered(items, rest, digits) && 0 < NumberOf(digits) <= SIZE_MAX && !Fits(items, digits)
    case ExpectedItemSeparator =>
      exists digits :: Numbered(items, rest, digits) && Fits(items, digits) && k == 1 + |digits| < |rest| && rest[k] != ';'
    case TrailingSeparator =>
      exists digits :: Numbered(items, rest, digits) && Fits(items, digits) && k == |rest| == 2 + |digits| && rest[k - 1] == ';'
    case _ => false
  }

  lemma LettersAreKinds(c: char)
    ensures ParseKind(c).Some? <==> IsLetter(c)
    ensures ParseKind(c).Some? ==> Letter(ParseKind(c).value) == c
  {
  }

  lemma TakenKind(items: seq<Item>, kind: EventKind)
    ensures HasKind(items, kind) <==> Taken(items, Letter(kind))
  {
    if Taken(items, Letter(kind)) {
      var i :| 0 <= i < |items| && Letter(items[i].kind) == Letter(kind);
      LettersAreKinds(Letter(kind));
      assert items[i].kind == kind;
    }
  }

  lemma TotalMore(items: seq<Item>, item: Item)
    ensures Total(items + [item]) == Total(items) + item.quantity
  {
    assert (items + [item])[..|items|] == items;
  }

  /** The number that a scan finds, with the letter before it. */
  lemma ScanNumbered(items: seq<Item>, rest: string) returns (digits: string)
    requires rest != "" && IsLetter(rest[0]) && !Taken(items, rest[0])
    requires !D.FromChars(rest[1..], SIZE_MAX).NoNumber?
    ensures Numbered(items, rest, digits)
    ensures
      match D.FromChars(rest[1..], SIZE_MAX)
      case Number(value, length) => value == NumberOf(digits) && length == |digits|
      case _ => NumberOf(digits) > SIZE_MAX
  {
    var n := D.DigitPrefix(rest[1..]);
    digits := rest[1..][..n];
    assert rest[1..1 + n] == digits;
    assert n < |rest[1..]| ==> rest[1..][n] == rest[1 + n];
  }

  lemma OneItemFault(s: string, position: nat, items: seq<Item>)
    requires s != "" && ParseItem(s, position, items).Err?
    ensures
      var e := ParseItem(s, position, items).error;
      ItemFault(items, s, e.fault, e.position - position)
  {
    hide Total, Taken, Numbered, D.FromChars, NumberOf;
    LettersAreKinds(s[0]);
    if IsLetter(s[0]) {
      var kind := ParseKind(s[0]).value;
      TakenKind(items, kind);
      if !Taken(items, s[0]) {
        ScanStarts(s);
        if !D.FromChars(s[1..], SIZE_MAX).NoNumber? {
          var digits := ScanNumbered(items, s);
          TotalMore(items, Item(kind, NumberOf(digits)));
        }
      }
    }
  }

  lemma ScanStarts(s: string)
    requires s != ""
    ensures D.FromChars(s[1..], SIZE_MAX).NoNumber? <==> |s| == 1 || !D.IsDigit(s[1])
  {
    assert |s| > 1 ==> s[1..][0] == s[1];
  }

  /** An item that is read, and what follows it. */
  lemma ReadItemNumbered(s: string, position: nat, items: seq<Item>) returns (digits: string)
    requires s != "" && ParseItem(s, position, items).Ok?
    ensures
      var (item, length) := ParseItem(s, position, items).value;
      && Numbered(items, s, digits) && Fits(items, digits) && length == 1 + |digits| <= |s|
  {
    hide Total, Taken, Numbered, D.FromChars, NumberOf;
    LettersAreKinds(s[0]);
    var kind := ParseKind(s[0]).value;
    TakenKind(items, kind);
    digits := ScanNumbered(items, s);
    TotalMore(items, Item(kind, NumberOf(digits)));
    NumberedLength(items, s, digits);
  }

  lemma NumberedLength(items: seq<Item>, rest: string, digits: string)
    requires Numbered(items, rest, digits)
    ensures |rest| >= 1 + |digits|
  {
  }

  /** The items before the fault were read, and the fault lies in what follows them. */
  ghost predicate ItemsFault(s: string, done: seq<Item>, fault: Fault, k: int) {
    exists pieces, rest ::
      AllNumbers(pieces) && s == Lead(pieces) + rest && ItemFault(done + ItemsOf(pieces), rest, fault, k - |Lead(pieces)|)
  }

  lemma {:induction false} ItemsDiagnosed(s: string, position: nat, done: seq<Item>)
    requires s != "" && ParseItems(s, position, done).Err?
    ensures
      var e := ParseItems(s, position, done).error;
      ItemsFault(s, done, e.fault, e.position - position)
    decreases |s|
  {
    hide ParseItem, ItemFault, ItemsOf, Numbered, Fits, PieceText, IsNumber, NumberOf;
    var e := ParseItems(s, position, done).error;
    if ParseItem(s, position, done).Err? {
      OneItemFault(s, position, done);
      HereFault(s, done, e.fault, e.position - position);
    } else {
      var (item, length) := ParseItem(s, position, done).value;
      var piece := PieceFound(s, position, done);
      var digits := ReadItemNumbered(s, position, done);
      if s[length] != ';' || length + 1 == |s| {
        SeparatorFault(s, done, digits);
        HereFault(s, done, e.fault, e.position - position);
      } else {
        ItemsDiagnosed(s[length + 1..], position + length + 1, done + [item]);
        LaterFault(s, done, piece, item, length, e.fault, e.position - position);
      }
    }
  }

  lemma SeparatorFault(s: string, done: seq<Item>, digits: string)
    requires Numbered(done, s, digits) && Fits(done, digits) && 1 + |digits| < |s|
    ensures s[1 + |digits|] != ';' ==> ItemFault(done, s, ExpectedItemSeparator, 1 + |digits|)
    ensures s[1 + |digits|] == ';' && |s| == 2 + |digits| ==> ItemFault(done, s, TrailingSeparator, 2 + |digits|)
  {
    hide Numbered, Fits;
  }

  lemma HereFault(s: string, done: seq<Item>, fault: Fault, k: int)
    requires ItemFault(done, s, fault, k)
    ensures ItemsFault(s, done, fault, k)
  {
    hide ItemFault;
    assert Lead([]) + s == s && done + ItemsOf([]) == done && AllNumbers([]);
  }

  lemma LaterFault(s: string, done: seq<Item>, piece: Piece, item: Item, length: nat, fault: Fault, k: int)
    requires length < |s| && s[length] == ';' && PieceText(piece) == s[..length] && IsNumber(piece.digits)
    requires item == Item(piece.kind, NumberOf(piece.digits))
    requires ItemsFault(s[length + 1..], done + [item], fault, k - length - 1)
    ensures ItemsFault(s, done, fault, k)
  {
    hide ItemFault, PieceText, IsNumber, NumberOf;
    var tail := s[length + 1..];
    var later, rest :| AllNumbers(later) && tail == Lead(later) + rest
                       && ItemFault(done + [item] + ItemsOf(later), rest, fault, k - length - 1 - |Lead(later)|);
    var pieces := [piece] + later;
    assert pieces[1..] == later;
    assert s == s[..length] + ";" + tail;
    assert Lead(pieces) + rest == s;
    assert done + ItemsOf(pieces) == done + [item] + ItemsOf(later);
    assert AllNumbers(pieces);
  }

  // Fields.

  predicate FirstAt(s: string, c: char, from: nat, i: int) {
    from <= i < |s| && s[i] == c && forall j :: from <= j < i ==> s[j] != c
  }

  predicate IsDuration(s: string, digits: string, unit: string) {
    s == digits + unit && GoodPeriod(Some((digits, unit)))
  }

  ghost predicate PeriodFault(field: Option<string>, fault: Fault, k: int) {
    field.Some? &&
    match fault
    case ExpectedPublishPeriod => k == 0 && field.value == ""
    case DuplicatePublishPeriod => FirstAt(field.value, '@', 0, k)
    case InvalidDuration => k == 0 && field.value != "" && forall digits, unit :: !IsDuration(field.value, digits, unit)
    case _ => false
  }

  predicate InRange(s: string, low: nat, high: nat) {
    IsNumber(s) && low <= NumberOf(s) <= high
  }

  predicate UniverseFault(field: Option<string>, largest: nat, fault: Fault, k: int) {
    field.Some? &&
    match fault
    case ExpectedSymbolCount => k == 0 && field.value == ""
    case DuplicateSymbolCount => FirstAt(field.value, '#', 0, k)
    case InvalidSymbolCount => k == 0 && !InRange(field.value, 1, SIZE_MAX)
    case SymbolCountMustNotBeSmallerThanAnEventQuantity =>
      k == 0 && InRange(field.value, 1, SIZE_MAX) && NumberOf(field.value) < largest
    case _ => false
  }

  predicate RegionsFault(field: Option<string>, symbols: nat, fault: Fault, k: int) {
    field.Some? &&
    match fault
    case ExpectedRegionalSourceCount => k == 0 && field.value == ""
    case DuplicateRegionalSourceCount => FirstAt(field.value, '&', 0, k)
    case RegionalSourceCountMustBeFromOneToTwentySix => k == 0 && !InRange(field.value, 1, 26)
    case MarketSymbolCountIsTooLarge =>
      k == 0 && InRange(field.value, 1, 26) && symbols > SIZE_MAX / (NumberOf(field.value) + 1)
    case _ => false
  }

  predicate SeedFault(field: Option<string>, fault: Fault, k: int) {
    field.Some? &&
    match fault
    case ExpectedShuffleSeed => k == 0 && field.value == ""
    case DuplicateShuffleSeed => FirstAt(field.value, '~', 0, k)
    case InvalidShuffleSeed => k == 0 && !InRange(field.value, 0, SIZE_MAX)
    case _ => false
  }

  lemma FoundFirst(s: string, c: char)
    requires Find(s, c, 0) < |s|
    ensures FirstAt(s, c, 0, Find(s, c, 0))
  {
  }

  lemma PeriodDiagnosed(field: Option<string>, position: nat)
    requires ParsePeriod(field, position).Err?
    ensures
      var e := ParsePeriod(field, position).error;
      PeriodFault(field, e.fault, e.position - position)
  {
    hide Find, FirstAt, D.Value, ParseDuration;
    var s := field.value;
    if s != "" {
      if Find(s, '@', 0) < |s| {
        FoundFirst(s, '@');
      } else {
        DurationFault(s);
        forall digits, unit ensures !IsDuration(s, digits, unit) {
          if IsDuration(s, digits, unit) {
            DurationDenotes(digits, unit);
          }
        }
      }
    }
  }

  lemma DurationFault(s: string)
    requires s != ""
    ensures ParseDuration(s).Err? ==> ParseDuration(s).error == InvalidDuration
  {
  }

  lemma NumberScanned(s: string, max: nat)
    ensures
      var r := D.FromChars(s, max);
      && (r.Number? && r.length == |s| <==> IsNumber(s) && NumberOf(s) <= max)
      && (r.Number? && r.length == |s| ==> r.value == NumberOf(s))
  {
    if IsNumber(s) {
      assert s + "" == s;
      D.DigitPrefixOf(s, "");
    }
    assert s[..|s|] == s;
  }

  lemma UniverseDiagnosed(field: Option<string>, position: nat, largest: nat)
    requires ParseUniverse(field, position, largest).Err?
    ensures
      var e := ParseUniverse(field, position, largest).error;
      UniverseFault(field, largest, e.fault, e.position - position)
  {
    hide Find, FirstAt, D.FromChars, NumberOf, IsNumber;
    NumberScanned(field.value, SIZE_MAX);
    if Find(field.value, '#', 0) < |field.value| {
      FoundFirst(field.value, '#');
    }
  }

  lemma RegionsDiagnosed(field: Option<string>, position: nat, symbols: nat)
    requires ParseRegions(field, position, symbols).Err?
    ensures
      var e := ParseRegions(field, position, symbols).error;
      RegionsFault(field, symbols, e.fault, e.position - position)
  {
    hide Find, FirstAt, D.FromChars, NumberOf, IsNumber;
    NumberScanned(field.value, SIZE_MAX);
    if Find(field.value, '&', 0) < |field.value| {
      FoundFirst(field.value, '&');
    }
  }

  lemma SeedDiagnosed(field: Option<string>, position: nat)
    requires ParseSeed(field, position).Err?
    ensures
      var e := ParseSeed(field, position).error;
      SeedFault(field, e.fault, e.position - position)
  {
    hide Find, FirstAt, D.FromChars, NumberOf, IsNumber;
    NumberScanned(field.value, SIZE_MAX);
    if Find(field.value, '~', 0) < |field.value| {
      FoundFirst(field.value, '~');
    }
  }

  // Whole tasks.

  /** A separator stands before the one that it must follow: the first of each counts. */
  ghost predicate Precedes(text: string, early: char, late: char, i: int) {
    FirstAt(text, early, 4, i) && exists j :: i < j && FirstAt(text, late, 4, j)
  }

  ghost predicate OrderFault(text: string, fault: Fault, i: int) {
    match fault
    case SymbolCountMustFollowPublishPeriod => Precedes(text, '#', '@', i)
    case ShuffleSeedMustFollowPublishPeriod => Precedes(text, '~', '@', i)
    case ShuffleSeedMustFollowSymbolCount => Precedes(text, '~', '#', i)
    case RegionalSourceCountMustFollowPublishPeriod => Precedes(text, '&', '@', i)
    case RegionalSourceCountMustFollowSymbolCount => Precedes(text, '&', '#', i)
    case ShuffleSeedMustFollowRegionalSourceCount => Precedes(text, '~', '&', i)
    case _ => false
  }

  /** The text, cut at its separators. */
  predicate CutInto(text: string, f: Fields) {
    text == "SUB:" + f.items + OptionalPart('@', f.period) + OptionalPart('#', f.universe)
            + OptionalPart('&', f.regions) + OptionalPart('~', f.seed)
  }

  /** The parts before the faulty one are good, and the position is counted from the start of that part. */
  ghost predicate PartFault(f: Fields, fault: Fault, position: int) {
    var period := 4 + |f.items|;
    var universe := period + |OptionalPart('@', f.period)|;
    var regions := universe + |OptionalPart('#', f.universe)|;
    var seed := regions + |OptionalPart('&', f.regions)|;
    || (f.items == "" && fault == ExpectedEventPattern && position == 4)
    || (f.items != "" && ItemsFault(f.items, [], fault, position - 4))
    || exists pieces :: GoodPieces(pieces) && PiecesText(pieces) == f.items &&
         var largest := Largest(ItemsOf(pieces));
         var symbols := if f.universe.Some? then NumberOf(f.universe.value) else largest;
         || PeriodFault(f.period, fault, position - period - 1)
         || UniverseFault(f.universe, largest, fault, position - universe - 1)
         || (GoodUniverse(f.universe, pieces) && RegionsFault(f.regions, symbols, fault, position - regions - 1))
         || SeedFault(f.seed, fault, position - seed - 1)
  }

  ghost predicate Explained(text: string, e: ParseError) {
    || (e.fault == ExpectedPrefix && e.position == 0 && !("SUB:" <= text))
    || OrderFault(text, e.fault, e.position)
    || exists f :: CutInto(text, f) && PartFault(f, e.fault, e.position)
  }

  lemma OrderDiagnosed(text: string)
    requires |text| >= 4 && OrderError(LayoutOf(text), |text|).Some?
    ensures
      var e := OrderError(LayoutOf(text), |text|).value;
      OrderFault(text, e.fault, e.position)
  {
    hide LayoutOf, FirstAt;
    FirstOf(text, '@');
    FirstOf(text, '#');
    FirstOf(text, '&');
    FirstOf(text, '~');
    LayoutIs(text);
  }

  lemma LayoutIs(text: string)
    requires |text| >= 4
    ensures LayoutOf(text) == Layout(Find(text, '@', 4), Find(text, '#', 4), Find(text, '&', 4), Find(text, '~', 4))
  {
  }

  lemma FirstOf(text: string, c: char)
    requires |text| >= 4
    ensures 4 <= Find(text, c, 4) <= |text|
    ensures Find(text, c, 4) < |text| ==> FirstAt(text, c, 4, Find(text, c, 4))
  {
  }

  /** Where the parts of a task start. */
  lemma SplitPositions(text: string)
    requires |text| >= 4 && OrderError(LayoutOf(text), |text|).None?
    ensures
      var f, l := Split(text), LayoutOf(text);
      var period := 4 + |f.items|;
      var universe := period + |OptionalPart('@', f.period)|;
      var regions := universe + |OptionalPart('#', f.universe)|;
      var seed := regions + |OptionalPart('&', f.regions)|;
      && (f.period.Some? ==> l.at == period) && (f.universe.Some? ==> l.hash == universe)
      && (f.regions.Some? ==> l.ampersand == regions) && (f.seed.Some? ==> l.tilde == seed)
  {
    hide LayoutOf, OrderError, OptionalPart;
    var l, n := LayoutOf(text), |text|;
    InOrder(text, l);
    LayoutChars(text);
    var d := l.tilde;
    var c := Min(l.ampersand, d);
    var b := Min(l.hash, c);
    var a := Min(l.at, b);
    Cut(text, '@', l.at, a, b);
    Cut(text, '#', l.hash, b, c);
    Cut(text, '&', l.ampersand, c, d);
  }

  lemma PartsDiagnosed(f: Fields, l: Layout, e: ParseError)
    requires ParseFields(f, l) == Err(e)
    requires
      var period := 4 + |f.items|;
      var universe := period + |OptionalPart('@', f.period)|;
      var regions := universe + |OptionalPart('#', f.universe)|;
      var seed := regions + |OptionalPart('&', f.regions)|;
      && (f.period.Some? ==> l.at == period) && (f.universe.Some? ==> l.hash == universe)
      && (f.regions.Some? ==> l.ampersand == regions) && (f.seed.Some? ==> l.tilde == seed)
    ensures PartFault(f, e.fault, e.position)
  {
    hide ParseItems, ParsePeriod, ParseUniverse, ParseRegions, ParseSeed, PiecesText, GoodUniverse, GoodItems, NumberOf,
      AllNumbers, Largest, GoodPieces, OptionalPart, ItemsFault, PeriodFault, UniverseFault, RegionsFault, SeedFault;
    if f.items != "" {
      if ParseItems(f.items, 4, []).Err? {
        ItemsDiagnosed(f.items, 4, []);
      } else {
        var pieces := PiecesFound(f.items, 4, []);
        NoItemsGood();
        ItemsSound(f.items, 4, []);
        assert [] + ItemsOf(pieces) == ItemsOf(pieces);
        FoundGood(pieces);
        LaterDiagnosed(f, l, e, pieces);
        var largest := Largest(ItemsOf(pieces));
        OnlyPresent(f, largest, if f.universe.Some? then NumberOf(f.universe.value) else largest, e, l);
      }
    }
  }

  /** Only a part that is there can be faulty. */
  lemma OnlyPresent(f: Fields, largest: nat, symbols: nat, e: ParseError, l: Layout)
    ensures PeriodFault(f.period, e.fault, e.position - l.at - 1) ==> f.period.Some?
    ensures UniverseFault(f.universe, largest, e.fault, e.position - l.hash - 1) ==> f.universe.Some?
    ensures RegionsFault(f.regions, symbols, e.fault, e.position - l.ampersand - 1) ==> f.regions.Some?
    ensures SeedFault(f.seed, e.fault, e.position - l.tilde - 1) ==> f.seed.Some?
  {
    hide FirstAt, InRange;
  }

  /** The items are good, so one of the later parts is faulty. */
  lemma LaterDiagnosed(f: Fields, l: Layout, e: ParseError, pieces: seq<Piece>)
    requires f.items != "" && ParseFields(f, l) == Err(e)
    requires GoodPieces(pieces) && PiecesText(pieces) == f.items && ParseItems(f.items, 4, []) == Ok(ItemsOf(pieces))
    ensures
      var largest := Largest(ItemsOf(pieces));
      var symbols := if f.universe.Some? then NumberOf(f.universe.value) else largest;
      || PeriodFault(f.period, e.fault, e.position - l.at - 1)
      || UniverseFault(f.universe, largest, e.fault, e.position - l.hash - 1)
      || (GoodUniverse(f.universe, pieces) && RegionsFault(f.regions, symbols, e.fault, e.position - l.ampersand - 1))
      || SeedFault(f.seed, e.fault, e.position - l.tilde - 1)
  {
    hide ParseItems, ParsePeriod, ParseUniverse, ParseRegions, ParseSeed, PiecesText, GoodUniverse, NumberOf, Largest,
      PeriodFault, UniverseFault, RegionsFault, SeedFault;
    assert pieces != [] by { SomePiece(pieces); }
    var largest := Largest(ItemsOf(pieces));
    if ParsePeriod(f.period, l.at + 1).Err? {
      PeriodDiagnosed(f.period, l.at + 1);
    } else if ParseUniverse(f.universe, l.hash + 1, largest).Err? {
      UniverseDiagnosed(f.universe, l.hash + 1, largest);
    } else {
      UniverseFound(f.universe, l.hash + 1, pieces);
      var symbols := if f.universe.Some? then NumberOf(f.universe.value) else largest;
      if ParseRegions(f.regions, l.ampersand + 1, symbols).Err? {
        RegionsDiagnosed(f.regions, l.ampersand + 1, symbols);
      } else {
        SeedDiagnosed(f.seed, l.tilde + 1);
      }
    }
  }

  lemma SomePiece(pieces: seq<Piece>)
    requires GoodPieces(pieces)
    ensures pieces != []
  {
  }

  /** Every error points at a fault of the text, and says which one it is. */
  lemma Diagnosed(text: string)
    requires ParseTask(text).Err?
    ensures Explained(text, ParseTask(text).error)
  {
    hide LayoutOf, OrderError, Split, ParseFields, PartFault, OrderFault, OptionalPart;
    if PREFIX <= text {
      if OrderError(LayoutOf(text), |text|).Some? {
        OrderDiagnosed(text);
      } else {
        SplitJoins(text);
        SplitPositions(text);
        assert text[..4] == PREFIX;
        PartsDiagnosed(Split(text), LayoutOf(text), ParseTask(text).error);
        assert CutInto(text, Split(text));
      }
    }
  }
}
