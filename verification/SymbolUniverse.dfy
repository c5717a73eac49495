/** Synthetic symbols: the common universe and its regional record keys (src/core.cpp). */
module SymbolUniverse {
  import opened Common
  import opened Arithmetic
  import opened TaskPattern
  import D = Decimal

  function Width(count: nat): nat
    requires count > 0
  {
    var digits := |D.ToString(count - 1)|;
    if digits > 2 then digits else 2
  }

  function Name(i: nat, width: nat): string {
    "SYM" + D.Padded(i, width)
  }

  function Names(count: nat): seq<string> {
    seq(count, i requires 0 <= i < count => Name(i, Width(count)))
  }

  /** Key of a symbol at a source: 0 is the composite, 1 to 26 are the regions A to Z. */
  function Key(name: string, source: nat): string
    requires source <= MAX_REGIONS
  {
    if source == 0 then name else name + "&" + [('A' as int + source - 1) as char]
  }

  function Block(names: seq<string>, source: nat): seq<string>
    requires source <= MAX_REGIONS
  {
    seq(|names|, i requires 0 <= i < |names| => Key(names[i], source))
  }

  /** The composite block followed by one complete block per region. */
  function Keys(names: seq<string>, regions: nat): seq<string>
    requires regions <= MAX_REGIONS
  {
    if regions == 0 then Block(names, 0) else Keys(names, regions - 1) + Block(names, regions)
  }

  function Symbols(p: Pattern): seq<string> {
    Names(p.SymbolCount())
  }

  function MarketSymbols(p: Pattern): seq<string>
    requires p.regions <= MAX_REGIONS
  {
    Keys(Symbols(p), p.regions)
  }

  method GenerateSymbols(p: Pattern) returns (result: seq<string>)
    ensures result == Symbols(p)
  {
    var count := p.SymbolCount();
    result := [];
    if count == 0 {
      return;
    }
    var width := Width(count);
    for i := 0 to count
      invariant result == Symbols(p)[..i]
    {
      result := result + [Name(i, width)];
    }
  }

  method GenerateKeys(names: seq<string>, regions: nat) returns (result: seq<string>)
    requires regions <= MAX_REGIONS
    ensures result == Keys(names, regions)
  {
    result := names;
    assert names == Block(names, 0);
    for source := 0 to regions
      invariant result == Keys(names, source)
    {
      var suffix := ('A' as int + source) as char;
      ghost var before := result;
      for i := 0 to |names|
        invariant result == before + Block(names, source + 1)[..i]
      {
        result := result + [names[i] + "&" + [suffix]];
        assert Block(names, source + 1)[..i + 1] == Block(names, source + 1)[..i] + [Key(names[i], source + 1)];
      }
      assert Block(names, source + 1)[..|names|] == Block(names, source + 1);
    }
  }

  method GenerateMarketSymbols(p: Pattern) returns (result: seq<string>)
    requires p.regions <= MAX_REGIONS
    ensures result == MarketSymbols(p)
  {
    var composite := GenerateSymbols(p);
    result := GenerateKeys(composite, p.regions);
  }

  lemma {:induction false} KeysLength(names: seq<string>, regions: nat)
    requires regions <= MAX_REGIONS
    ensures |Keys(names, regions)| == (regions + 1) * |names|
  {
    if regions > 0 {
      KeysLength(names, regions - 1);
      Distribute(regions, 1, |names|);
    }
  }

  /** Position source * n + i holds the key of name i at that source. */
  lemma {:induction false} KeysAt(names: seq<string>, regions: nat, source: nat, i: nat)
    requires source <= regions <= MAX_REGIONS && i < |names|
    ensures 0 <= source * |names| + i < |Keys(names, regions)|
    ensures Keys(names, regions)[source * |names| + i] == Key(names[i], source)
  {
    hide Key;
    KeysLength(names, regions);
    RowMajor(source, regions + 1, i, |names|);
    if regions > 0 {
      KeysLength(names, regions - 1);
      if source < regions {
        KeysAt(names, regions - 1, source, i);
      }
    }
  }

  lemma NameIdentifies(i: nat, j: nat, width: nat)
    requires Name(i, width) == Name(j, width)
    ensures i == j
  {
    D.PaddedDigits(i, width);
    D.PaddedDigits(j, width);
    assert Name(i, width)[3..] == D.Padded(i, width) && Name(j, width)[3..] == D.Padded(j, width);
  }

  /** A name is SYM and at least two digits that denote its position. */
  lemma NamesMean(count: nat, i: nat)
    requires i < count
    ensures
      var name := Names(count)[i];
      && |name| >= 5 && name[..3] == "SYM" && D.AllDigits(name[3..]) && D.Value(name[3..]) == i
  {
    D.PaddedDigits(i, Width(count));
    var digits := D.Padded(i, Width(count));
    assert Name(i, Width(count))[3..] == digits;
    assert |digits| >= 2;
  }

  const REGION_LETTERS := "ABCDEFGHIJKLMNOPQRSTUVWXYZ"

  /** A composite key is the name itself; a regional one adds an ampersand and the region's letter. */
  lemma KeyMeans(name: string, source: nat)
    requires source <= MAX_REGIONS
    ensures |REGION_LETTERS| == MAX_REGIONS
    ensures Key(name, source) == if source == 0 then name else name + "&" + [REGION_LETTERS[source - 1]]
  {
  }

  predicate NoAmpersand(name: string) {
    '&' !in name
  }

  lemma NamesPlain(count: nat, i: nat)
    requires i < count
    ensures NoAmpersand(Names(count)[i])
  {
    D.PaddedDigits(i, Width(count));
  }

  /** All names of a universe are equally long, and no longer than its largest number and two digits demand. */
  lemma NamesAligned(count: nat, i: nat)
    requires i < count
    ensures |Names(count)[i]| == |"SYM"| + (if count <= 100 then 2 else |D.ToString(count - 1)|)
  {
    hide D.ToString;
    TwoDigits();
    D.LongerNumbers(i, count - 1);
    if count <= 100 {
      D.LongerNumbers(count - 1, 99);
    } else {
      D.LongerNumbers(100, count - 1);
    }
  }

  lemma TwoDigits()
    ensures |D.ToString(99)| == 2 && |D.ToString(100)| == 3
  {
    assert D.ToString(10) == D.ToString(1) + D.ToString(0);
  }

  lemma NamesDistinct(count: nat)
    ensures Distinct(Names(count))
  {
    forall i, j | 0 <= i < j < count ensures Names(count)[i] != Names(count)[j] {
      if Names(count)[i] == Names(count)[j] {
        NameIdentifies(i, j, Width(count));
      }
    }
  }

  /** A key determines both its base name and its source. */
  lemma KeyIdentifies(a: string, s: nat, b: string, t: nat)
    requires NoAmpersand(a) && NoAmpersand(b) && s <= MAX_REGIONS && t <= MAX_REGIONS
    requires Key(a, s) == Key(b, t)
    ensures a == b && s == t
  {
    var x := Key(a, s);
    if s == 0 || t == 0 {
      assert s > 0 ==> '&' in x;
      assert t > 0 ==> '&' in x;
    } else {
      assert x[|x| - 1] == ('A' as int + s - 1) as char == ('A' as int + t - 1) as char;
      assert x[..|a|] == a && x[..|b|] == b;
    }
  }

  /** Market symbols: one per composite name and region, none twice. */
  lemma MarketSymbolsDistinct(p: Pattern)
    requires p.regions <= MAX_REGIONS
    ensures |MarketSymbols(p)| == p.MarketSymbolCount()
    ensures Distinct(MarketSymbols(p))
  {
    var names := Symbols(p);
    var all := MarketSymbols(p);
    KeysLength(names, p.regions);
    forall x, y | 0 <= x < y < |all| ensures all[x] != all[y] {
      if all[x] == all[y] {
        var s, i := SplitIndex(names, p.regions, x);
        var t, j := SplitIndex(names, p.regions, y);
        NamesPlain(|names|, i);
        NamesPlain(|names|, j);
        KeyIdentifies(names[i], s, names[j], t);
        NamesDistinct(|names|);
      }
    }
  }

  lemma SplitIndex(names: seq<string>, regions: nat, x: nat) returns (source: nat, i: nat)
    requires regions <= MAX_REGIONS && x < |Keys(names, regions)|
    ensures source <= regions && i < |names| && x == source * |names| + i
    ensures Keys(names, regions)[x] == Key(names[i], source)
  {
    KeysLength(names, regions);
    source, i := RowOf(x, regions + 1, |names|);
    KeysAt(names, regions, source, i);
  }

  /** Keys over a leading part of the names are keys over all of them. */
  lemma LeadingKeys(names: seq<string>, count: nat, regions: nat, x: nat)
    requires regions <= MAX_REGIONS && count <= |names|
    requires x < |Keys(names[..count], regions)|
    ensures Keys(names[..count], regions)[x] in Keys(names, regions)
  {
    var source, i := SplitIndex(names[..count], regions, x);
    KeysAt(names, regions, source, i);
  }
}
