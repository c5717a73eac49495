/** Parsing and printing tasks are inverse to each other. */
module TaskRoundTrip {
  import opened Common
  import opened Events
  import opened TaskPattern
  import opened TaskParser
  import D = Decimal

  // Every accepted text yields a valid pattern.

  predicate GoodItems(items: seq<Item>) {
    && DistinctKinds(items)
    && (forall i :: 0 <= i < |items| ==> items[i].quantity > 0)
    && Total(items) <= SIZE_MAX
  }

  lemma ItemSound(s: string, position: nat, items: seq<Item>)
    requires s != "" && GoodItems(items) && ParseItem(s, position, items).Ok?
    ensures GoodItems(items + [ParseItem(s, position, items).value.0])
  {
  }

  lemma {:induction false} ItemsSound(s: string, position: nat, items: seq<Item>)
    requires s != "" && GoodItems(items)
    requires ParseItems(s, position, items).Ok?
    ensures GoodItems(ParseItems(s, position, items).value) && ParseItems(s, position, items).value != []
    decreases |s|
  {
    hide GoodItems, ParseItem;
    ItemSound(s, position, items);
    ParseItemLength(s, position, items);
    var (item, length) := ParseItem(s, position, items).value;
    if length != |s| {
      ItemsSound(s[length + 1..], position + length + 1, items + [item]);
    }
  }

  lemma DurationSound(text: string)
    requires ParseDuration(text).Ok?
    ensures 0 < ParseDuration(text).value <= INT64_MAX
  {
    assert Multiplier(text) in {1, 1000, 60_000, 3_600_000};
  }

  lemma PeriodSound(field: Option<string>, position: nat)
    requires ParsePeriod(field, position).Ok?
    ensures 0 < ParsePeriod(field, position).value <= INT64_MAX
  {
    if field.Some? {
      DurationSound(field.value);
    }
  }

  lemma CountsSound(field: Option<string>, position: nat, n: nat)
    ensures ParseUniverse(field, position, n).Ok? && ParseUniverse(field, position, n).value.Some?
            ==> n <= ParseUniverse(field, position, n).value.value <= SIZE_MAX
    ensures ParseRegions(field, position, n).Ok? ==>
              var r := ParseRegions(field, position, n).value;
              r <= MAX_REGIONS && (r > 0 ==> n <= SIZE_MAX / (r + 1))
    ensures ParseSeed(field, position).Ok? && ParseSeed(field, position).value.Some?
            ==> ParseSeed(field, position).value.value <= SIZE_MAX
  {
  }

  lemma FieldsSound(f: Fields, l: Layout)
    requires ParseFields(f, l).Ok?
    ensures ParseFields(f, l).value.Valid()
  {
    hide ParseItems, ParsePeriod, ParseUniverse, ParseRegions, ParseSeed;
    ItemsSound(f.items, 4, []);
    PeriodSound(f.period, l.at + 1);
    var items := ParseItems(f.items, 4, []).value;
    CountsSound(f.universe, l.hash + 1, Largest(items));
    var universe := ParseUniverse(f.universe, l.hash + 1, Largest(items)).value;
    CountsSound(f.regions, l.ampersand + 1, universe.GetOr(Largest(items)));
    CountsSound(f.seed, l.tilde + 1, 0);
  }

  /** Every accepted text denotes a valid pattern. */
  lemma ParseSound(text: string)
    requires ParseTask(text).Ok?
    ensures ParseTask(text).value.Valid()
  {
    FieldsSound(Split(text), LayoutOf(text));
  }

  // Durations.

  /** The unit suffixes and their values in milliseconds; no suffix means seconds. */
  function UnitMillis(suffix: string): nat {
    if suffix == "ms" then 1 else if suffix == "m" then 60_000 else if suffix == "h" then 3_600_000 else 1000
  }

  predicate IsUnit(suffix: string) {
    suffix in {"", "ms", "s", "m", "h"}
  }

  lemma SuffixRead(digits: string, suffix: string)
    requires D.AllDigits(digits) && digits != "" && IsUnit(suffix)
    ensures SuffixLength(digits + suffix) == |suffix| && Multiplier(digits + suffix) == UnitMillis(suffix)
    ensures (digits + suffix)[..|digits|] == digits
  {
    var text := digits + suffix;
    var n := |text|;
    assert D.IsDigit(text[|digits| - 1]);
    if suffix == "ms" {
      assert text[n - 2..] == "ms";
    } else if n >= 2 {
      assert suffix != "" ==> text[n - 1] == suffix[0];
      assert text[n - 2..] != "ms" by {
        assert D.IsDigit(text[n - 2]) && text[n - 2..][0] == text[n - 2];
        assert "ms"[0] == 'm';
      }
    }
  }

  /** Digits and a unit are accepted exactly when the value is positive and fits in 64 bits of milliseconds. */
  lemma DurationDenotes(digits: string, suffix: string)
    requires D.AllDigits(digits) && digits != "" && IsUnit(suffix)
    ensures
      var value, unit := D.Value(digits), UnitMillis(suffix);
      ParseDuration(digits + suffix) == if 0 < value <= INT64_MAX / unit then Ok(value * unit) else Err(InvalidDuration)
  {
    hide SuffixLength, Multiplier;
    SuffixRead(digits, suffix);
    D.DigitPrefixOf(digits, "");
    assert digits + "" == digits;
    assert INT64_MAX / UnitMillis(suffix) <= INT64_MAX;
  }

  /** Every accepted duration is digits and a unit. */
  lemma DurationOnlyDenotes(text: string) returns (digits: string, suffix: string)
    requires ParseDuration(text).Ok?
    ensures D.AllDigits(digits) && digits != "" && IsUnit(suffix) && text == digits + suffix
  {
    var n := |text| - SuffixLength(text);
    digits, suffix := text[..n], text[n..];
    assert digits[..|digits|] == digits;
    if SuffixLength(text) == 1 {
      assert suffix == [text[|text| - 1]];
    }
  }

  // Printed items parse back.

  lemma {:induction false} TotalGrows(a: seq<Item>, b: seq<Item>)
    ensures Total(a) <= Total(a + b)
  {
    if b == [] {
      assert a + b == a;
    } else {
      TotalGrows(a, b[..|b| - 1]);
      assert (a + b)[..|a + b| - 1] == a + b[..|b| - 1];
    }
  }

  lemma CodeParses(kind: EventKind)
    ensures ParseKind(kind.Code()) == Some(kind)
  {
  }

  lemma ItemParses(done: seq<Item>, item: Item, rest: string, position: nat)
    requires GoodItems(done + [item])
    requires rest == "" || rest[0] == ';'
    ensures ParseItem(ItemText(item) + rest, position, done) == Ok((item, |ItemText(item)|))
  {
    var s := ItemText(item) + rest;
    var more := done + [item];
    assert more[|done|] == item && forall i :: 0 <= i < |done| ==> more[i] == done[i];
    CodeParses(item.kind);
    assert s[1..] == D.ToString(item.quantity) + rest;
    TotalAtLeastLast(more);
    D.FromCharsPrinted(item.quantity, rest, SIZE_MAX);
  }

  lemma TotalAtLeastLast(items: seq<Item>)
    requires items != []
    ensures items[|items| - 1].quantity <= Total(items)
  {
  }

  lemma LastItemParses(done: seq<Item>, item: Item, position: nat)
    requires GoodItems(done + [item])
    ensures ParseItems(ItemText(item), position, done) == Ok(done + [item])
  {
    assert ItemText(item) + "" == ItemText(item);
    ItemParses(done, item, "", position);
  }

  lemma FirstItemParses(done: seq<Item>, item: Item, rest: string, position: nat)
    requires GoodItems(done + [item]) && rest != ""
    ensures ParseItems(ItemText(item) + (";" + rest), position, done)
         == ParseItems(rest, position + |ItemText(item)| + 1, done + [item])
  {
    hide GoodItems, ParseItem, ItemText;
    var head := ItemText(item);
    var s := head + (";" + rest);
    ItemParses(done, item, ";" + rest, position);
    assert s[|head|] == ';' && s[|head| + 1..] == rest;
  }

  lemma GoodPrefix(a: seq<Item>, b: seq<Item>)
    requires GoodItems(a + b)
    ensures GoodItems(a)
  {
    TotalGrows(a, b);
    assert forall i :: 0 <= i < |a| ==> a[i] == (a + b)[i];
  }

  lemma ItemTextLength(item: Item)
    ensures |ItemText(item)| >= 2
  {
    D.ToStringDigits(item.quantity);
  }

  lemma {:induction false} ItemsParse(done: seq<Item>, items: seq<Item>, position: nat)
    requires items != [] && GoodItems(done + items)
    ensures ItemsText(items) != ""
    ensures ParseItems(ItemsText(items), position, done) == Ok(done + items)
    decreases |items|
  {
    hide GoodItems, ParseItems, ItemText;
    var item := items[0];
    assert |ItemText(item)| >= 2 by {
      ItemTextLength(item);
    }
    assert done + [item] + items[1..] == done + items;
    GoodPrefix(done + [item], items[1..]);
    if |items| == 1 {
      assert items == [item];
      LastItemParses(done, item, position);
    } else {
      var rest := ItemsText(items[1..]);
      ItemsParse(done + [item], items[1..], position + |ItemText(item)| + 1);
      FirstItemParses(done, item, rest, position);
      assert ItemsText(items) == ItemText(item) + (";" + rest);
    }
  }

  // Separators of a printed task.

  predicate Plain(s: string) {
    forall i :: 0 <= i < |s| ==> s[i] !in {'@', '#', '&', '~'}
  }

  lemma PlainNumber(n: nat)
    ensures Plain(D.ToString(n))
  {
    D.ToStringDigits(n);
  }

  lemma PlainItem(item: Item)
    ensures Plain(ItemText(item))
  {
    PlainNumber(item.quantity);
  }

  lemma {:induction false} PlainItems(items: seq<Item>)
    ensures Plain(ItemsText(items))
  {
    if items != [] {
      PlainItem(items[0]);
      if |items| > 1 {
        PlainItems(items[1..]);
      }
    }
  }

  /** A printed field: empty, or its separator followed by plain text. */
  predicate Printed(field: string, c: char) {
    field == "" || (field[0] == c && Plain(field[1..]))
  }

  lemma FieldsPrinted(p: Pattern)
    requires p.periodMs >= 0
    ensures Printed(PeriodText(p.periodMs), '@')
    ensures Printed(UniverseText(p.subscribedSymbolCount), '#')
    ensures Printed(RegionsText(p.regions), '&')
    ensures Printed(SeedText(p.seed), '~')
  {
    PlainNumber(p.periodMs);
    PlainNumber(p.periodMs / 1000);
    PlainNumber(p.regions);
    if p.subscribedSymbolCount.Some? {
      PlainNumber(p.subscribedSymbolCount.value);
    }
    if p.seed.Some? {
      PlainNumber(p.seed.value);
    }
  }

  lemma FindAt(text: string, c: char, i: nat)
    requires 4 <= i <= |text|
    requires forall j :: 4 <= j < i ==> text[j] != c
    requires i < |text| ==> text[i] == c
    ensures Find(text, c, 4) == i
  {
  }

  /** Position of a field's separator: where the field starts, or the end of the text if the field is empty. */
  function Start(field: string, at: nat, n: nat): nat {
    if field == "" then n else at
  }

  lemma LayoutPrinted(items: string, p: string, u: string, r: string, s: string, text: string)
    requires text == "SUB:" + items + p + u + r + s
    requires Plain(items) && Printed(p, '@') && Printed(u, '#') && Printed(r, '&') && Printed(s, '~')
    ensures |text| == 4 + |items| + |p| + |u| + |r| + |s|
    ensures
      var a := 4 + |items|;
      LayoutOf(text) == Layout(Start(p, a, |text|), Start(u, a + |p|, |text|),
                               Start(r, a + |p| + |u|, |text|), Start(s, a + |p| + |u| + |r|, |text|))
  {
    hide Plain, Printed, Find;
    var a := 4 + |items|;
    var b, c, d := a + |p|, a + |p| + |u|, a + |p| + |u| + |r|;
    CharsOf(items, p, u, r, s, text);
    FindAt(text, '@', Start(p, a, |text|));
    FindAt(text, '#', Start(u, b, |text|));
    FindAt(text, '&', Start(r, c, |text|));
    FindAt(text, '~', Start(s, d, |text|));
  }

  /** Where each separator character can occur in a printed task. */
  lemma CharsOf(items: string, p: string, u: string, r: string, s: string, text: string)
    requires text == "SUB:" + items + p + u + r + s
    requires Plain(items) && Printed(p, '@') && Printed(u, '#') && Printed(r, '&') && Printed(s, '~')
    ensures
      var a := 4 + |items|;
      var b, c, d := a + |p|, a + |p| + |u|, a + |p| + |u| + |r|;
      && (p != "" ==> text[a] == '@') && (u != "" ==> text[b] == '#')
      && (r != "" ==> text[c] == '&') && (s != "" ==> text[d] == '~')
      && (forall j :: 0 <= j < |text| ==>
            && (text[j] == '@' ==> j == a && p != "") && (text[j] == '#' ==> j == b && u != "")
            && (text[j] == '&' ==> j == c && r != "") && (text[j] == '~' ==> j == d && s != ""))
  {
    var a := 4 + |items|;
    var b, c, d := a + |p|, a + |p| + |u|, a + |p| + |u| + |r|;
    forall j | 0 <= j < |text|
      ensures && (text[j] == '@' ==> j == a && p != "") && (text[j] == '#' ==> j == b && u != "")
              && (text[j] == '&' ==> j == c && r != "") && (text[j] == '~' ==> j == d && s != "")
    {
      if j < 4 {
        assert text[j] == "SUB:"[j];
      } else if j < a {
        assert text[j] == items[j - 4];
      } else if j < b {
        assert text[j] == p[j - a] && (j > a ==> text[j] == p[1..][j - a - 1]);
      } else if j < c {
        assert text[j] == u[j - b] && (j > b ==> text[j] == u[1..][j - b - 1]);
      } else if j < d {
        assert text[j] == r[j - c] && (j > c ==> text[j] == r[1..][j - c - 1]);
      } else {
        assert text[j] == s[j - d] && (j > d ==> text[j] == s[1..][j - d - 1]);
      }
    }
  }

  function Body(field: string): Option<string> {
    if field == "" then None else Some(field[1..])
  }

  lemma Slices(head: string, p: string, tail: string, text: string)
    requires text == head + p + tail
    ensures text[|head|..|head| + |p|] == p
    ensures p != "" ==> text[|head| + 1..|head| + |p|] == p[1..]
  {
  }

  lemma SplitAt(items: string, p: string, u: string, r: string, s: string, text: string, l: Layout)
    requires |text| >= 4 && LayoutOf(text) == l
    requires |text| == 4 + |items| + |p| + |u| + |r| + |s|
    requires
      var a := 4 + |items|;
      var b, c, d := a + |p|, a + |p| + |u|, a + |p| + |u| + |r|;
      && l == Layout(Start(p, a, |text|), Start(u, b, |text|), Start(r, c, |text|), Start(s, d, |text|))
      && text[4..a] == items && text[d..] == s
      && (p != "" ==> text[a + 1..b] == p[1..]) && (u != "" ==> text[b + 1..c] == u[1..])
      && (r != "" ==> text[c + 1..d] == r[1..]) && (s != "" ==> text[d + 1..|text|] == s[1..])
    ensures OrderError(l, |text|).None?
    ensures Split(text) == Fields(items, Body(p), Body(u), Body(r), Body(s))
  {
    hide LayoutOf;
  }

  lemma Regrouped(items: string, p: string, u: string, r: string, s: string)
    ensures
      var text := "SUB:" + items + p + u + r + s;
      && text == "SUB:" + items + (p + u + r + s) && text == "SUB:" + items + p + (u + r + s)
      && text == "SUB:" + items + p + u + (r + s) && text == "SUB:" + items + p + u + r + s + ""
  {
  }

  lemma SplitPrinted(items: string, p: string, u: string, r: string, s: string, text: string)
    requires text == "SUB:" + items + p + u + r + s
    requires Plain(items) && Printed(p, '@') && Printed(u, '#') && Printed(r, '&') && Printed(s, '~')
    ensures |text| >= 4 && OrderError(LayoutOf(text), |text|).None?
    ensures Split(text) == Fields(items, Body(p), Body(u), Body(r), Body(s))
  {
    hide *;
    LayoutPrinted(items, p, u, r, s, text);
    Regrouped(items, p, u, r, s);
    Slices("SUB:", items, p + u + r + s, text);
    Slices("SUB:" + items, p, u + r + s, text);
    Slices("SUB:" + items + p, u, r + s, text);
    Slices("SUB:" + items + p + u, r, s, text);
    Slices("SUB:" + items + p + u + r, s, "", text);
    SplitAt(items, p, u, r, s, text, LayoutOf(text));
  }

  // Printed fields parse back.

  lemma NoSeparator(s: string, c: char)
    requires Plain(s) && c in {'@', '#', '&', '~'}
    ensures Find(s, c, 0) == |s|
  {
  }

  lemma NumberParses(n: nat, max: nat)
    requires n <= max
    ensures D.FromChars(D.ToString(n), max) == D.Number(n, |D.ToString(n)|) && D.ToString(n) != ""
  {
    assert D.ToString(n) + "" == D.ToString(n);
    D.FromCharsPrinted(n, "", max);
    D.ToStringDigits(n);
  }

  lemma DurationParses(n: nat, suffix: string, text: string)
    requires text == D.ToString(n) + suffix && suffix in {"s", "ms"}
    requires n > 0 && n <= INT64_MAX / (if suffix == "s" then 1000 else 1)
    ensures ParseDuration(text) == Ok(n * if suffix == "s" then 1000 else 1)
  {
    hide D.ToString, D.FromChars;
    var digits := D.ToString(n);
    NumberParses(n, INT64_MAX);
    D.ToStringDigits(n);
    assert text[|digits|..] == suffix;
    assert text[|digits| - 1] == digits[|digits| - 1];
    if suffix == "s" {
      assert D.IsDigit(text[|text| - 2]) && text[|text| - 2..][0] == text[|text| - 2];
      assert "ms"[0] == 'm';
      assert text[|text| - 1] == 's';
    } else {
      assert text[|text| - 2..] == "ms";
    }
    assert SuffixLength(text) == |suffix|;
    assert text[..|digits|] == digits;
  }

  lemma PeriodParses(periodMs: nat, position: nat)
    requires 0 < periodMs <= INT64_MAX
    ensures ParsePeriod(Body(PeriodText(periodMs)), position) == Ok(periodMs)
  {
    if periodMs != DEFAULT_PERIOD_MS {
      var seconds := periodMs % 1000 == 0;
      var n := if seconds then periodMs / 1000 else periodMs;
      var suffix := if seconds then "s" else "ms";
      var s := D.ToString(n) + suffix;
      assert PeriodText(periodMs)[1..] == s;
      PlainNumber(n);
      NoSeparator(s, '@');
      DurationParses(n, suffix, s);
    }
  }

  lemma CountsParse(p: Pattern, i: nat, j: nat, k: nat)
    requires p.Valid()
    ensures ParseUniverse(Body(UniverseText(p.subscribedSymbolCount)), i, Largest(p.items)) == Ok(p.subscribedSymbolCount)
    ensures ParseRegions(Body(RegionsText(p.regions)), j, p.SymbolCount()) == Ok(p.regions)
    ensures ParseSeed(Body(SeedText(p.seed)), k) == Ok(p.seed)
  {
    LargestBounds(p.items, 0);
    if p.subscribedSymbolCount.Some? {
      FieldParses("#", p.subscribedSymbolCount.value);
    }
    if p.regions > 0 {
      FieldParses("&", p.regions);
    }
    if p.seed.Some? {
      FieldParses("~", p.seed.value);
    }
  }

  lemma FieldParses(separator: string, n: nat)
    requires |separator| == 1 && separator[0] in {'@', '#', '&', '~'} && n <= SIZE_MAX
    ensures
      var s := D.ToString(n);
      (separator + s)[1..] == s && s != "" && Find(s, separator[0], 0) == |s|
      && D.FromChars(s, SIZE_MAX) == D.Number(n, |s|)
  {
    PlainNumber(n);
    NoSeparator(D.ToString(n), separator[0]);
    NumberParses(n, SIZE_MAX);
  }

  lemma FieldsParse(p: Pattern, l: Layout)
    requires p.Valid()
    ensures
      ParseFields(Fields(ItemsText(p.items), Body(PeriodText(p.periodMs)), Body(UniverseText(p.subscribedSymbolCount)),
                         Body(RegionsText(p.regions)), Body(SeedText(p.seed))), l) == Ok(p)
  {
    hide ParseItems, ParsePeriod, ParseUniverse, ParseRegions, ParseSeed;
    hide ItemsText, PeriodText, UniverseText, RegionsText, SeedText, Body;
    assert [] + p.items == p.items;
    ItemsParse([], p.items, 4);
    PeriodParses(p.periodMs, l.at + 1);
    CountsParse(p, l.hash + 1, l.ampersand + 1, l.tilde + 1);
  }

  /** Printing a valid pattern and parsing the text gives the pattern back. */
  lemma ParseToText(p: Pattern)
    requires p.Valid()
    ensures ParseTask(ToText(p)) == Ok(p)
  {
    var text := ToText(p);
    PlainItems(p.items);
    FieldsPrinted(p);
    SplitPrinted(ItemsText(p.items), PeriodText(p.periodMs), UniverseText(p.subscribedSymbolCount),
                 RegionsText(p.regions), SeedText(p.seed), text);
    assert PREFIX <= text;
    FieldsParse(p, LayoutOf(text));
  }

  /** The valid patterns are exactly the ones some text denotes. */
  lemma ValidIffDenoted(p: Pattern)
    ensures p.Valid() <==> exists text :: ParseTask(text) == Ok(p)
  {
    if p.Valid() {
      ParseToText(p);
    }
    forall text | ParseTask(text) == Ok(p) ensures p.Valid() {
      ParseSound(text);
    }
  }

  /** The canonical form of an accepted text, which the text's own pattern prints. */
  function Canonical(text: string): string
    requires ParseTask(text).Ok?
  {
    ParseSound(text);
    ToText(ParseTask(text).value)
  }

  /** Canonicalising keeps the meaning and is idempotent; two texts share a canonical form iff they mean the same. */
  lemma CanonicalForms(a: string, b: string)
    requires ParseTask(a).Ok? && ParseTask(b).Ok?
    ensures ParseTask(Canonical(a)) == ParseTask(a)
    ensures Canonical(Canonical(a)) == Canonical(a)
    ensures Canonical(a) == Canonical(b) <==> ParseTask(a) == ParseTask(b)
  {
    ParseSound(a);
    ParseSound(b);
    ParseToText(ParseTask(a).value);
    ParseToText(ParseTask(b).value);
  }
}
