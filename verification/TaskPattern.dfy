/** Subscription task patterns and their canonical text (src/core.cpp). */
module TaskPattern {
  import opened Common
  import opened Arithmetic
  import opened Events
  import D = Decimal

  const SIZE_MAX := 0xFFFF_FFFF_FFFF_FFFF
  const INT64_MAX := 0x7FFF_FFFF_FFFF_FFFF
  const DEFAULT_PERIOD_MS := 1000
  const MAX_REGIONS := 26

  datatype Item = Item(kind: EventKind, quantity: nat)

  function Total(items: seq<Item>): nat {
    if items == [] then 0 else Total(items[..|items| - 1]) + items[|items| - 1].quantity
  }

  function Largest(items: seq<Item>): nat {
    if items == [] then 0 else
    var before := Largest(items[..|items| - 1]);
    if items[|items| - 1].quantity > before then items[|items| - 1].quantity else before
  }

  lemma {:induction false} LargestBounds(items: seq<Item>, i: nat)
    requires i < |items|
    ensures items[i].quantity <= Largest(items)
  {
    if i < |items| - 1 {
      LargestBounds(items[..|items| - 1], i);
    }
  }

  predicate DistinctKinds(items: seq<Item>) {
    forall i, j :: 0 <= i < j < |items| ==> items[i].kind != items[j].kind
  }

  datatype Pattern = Pattern(
    items: seq<Item>, periodMs: int, subscribedSymbolCount: Option<nat>, regions: nat, seed: Option<nat>)
  {
    function EventCount(): nat {
      Total(items)
    }

    function SymbolCount(): nat {
      subscribedSymbolCount.GetOr(Largest(items))
    }

    function MarketSymbolCount(): nat {
      SymbolCount() * (regions + 1)
    }

    function Quantity(kind: EventKind): Option<nat> {
      if exists i :: 0 <= i < |items| && items[i].kind == kind then Some(items[IndexOf(items, kind)].quantity) else None
    }

    /** Publication slots intersecting a duration, rounded up. */
    function BatchCount(durationMs: int): nat
      requires periodMs > 0
    {
      if durationMs <= 0 then 0
      else durationMs / periodMs + if durationMs % periodMs != 0 then 1 else 0
    }

    /** What parsing establishes and printing preserves. */
    predicate Valid() {
      && items != []
      && DistinctKinds(items)
      && (forall i :: 0 <= i < |items| ==> items[i].quantity > 0)
      && Total(items) <= SIZE_MAX
      && 0 < periodMs <= INT64_MAX
      && (subscribedSymbolCount.Some? ==> Largest(items) <= subscribedSymbolCount.value <= SIZE_MAX)
      && regions <= MAX_REGIONS
      && (regions > 0 ==> SymbolCount() <= SIZE_MAX / (regions + 1))
      && (seed.Some? ==> seed.value <= SIZE_MAX)
    }
  }

  /** Position of the first item of a kind. */
  function IndexOf(items: seq<Item>, kind: EventKind): (i: nat)
    requires exists i :: 0 <= i < |items| && items[i].kind == kind
    ensures i < |items| && items[i].kind == kind
    ensures forall j :: 0 <= j < i ==> items[j].kind != kind
  {
    if items[0].kind == kind then 0
    else
      assert exists i :: 0 <= i < |items[1..]| && items[1..][i].kind == kind by {
        var i :| 0 <= i < |items| && items[i].kind == kind;
        assert items[1..][i - 1] == items[i];
      }
      1 + IndexOf(items[1..], kind)
  }

  lemma CeilingQuotient(count: nat, period: int, duration: int)
    requires period > 0 && count > 0 && (count - 1) * period < duration
    ensures count <= duration / period + if duration % period != 0 then 1 else 0
  {
    DivMod(duration, period);
    var q := duration / period;
    if count - 1 > q {
      Distribute(count - 1 - q, q, period);
      ProductAtLeast(count - 1 - q, period);
    } else if count - 1 == q && duration % period == 0 {
      assert false;
    }
  }

  /** The batch count of a duration is the number of publication times k * period that lie before its end. */
  lemma BatchCountExact(p: Pattern, durationMs: int, k: nat)
    requires p.periodMs > 0
    ensures k < p.BatchCount(durationMs) <==> k * p.periodMs < durationMs
  {
    if durationMs > 0 {
      DivMod(durationMs, p.periodMs);
      var q := durationMs / p.periodMs;
      if k < q {
        Distribute(q - k, k, p.periodMs);
        ProductAtLeast(q - k, p.periodMs);
      } else {
        Distribute(k - q, q, p.periodMs);
        ProductAtLeast(p.periodMs, k - q);
      }
    }
  }

  // Canonical text.

  function ItemText(item: Item): string {
    [item.kind.Code()] + D.ToString(item.quantity)
  }

  function ItemsText(items: seq<Item>): string {
    if items == [] then ""
    else if |items| == 1 then ItemText(items[0])
    else ItemText(items[0]) + ";" + ItemsText(items[1..])
  }

  function PeriodText(periodMs: nat): string {
    if periodMs == DEFAULT_PERIOD_MS then ""
    else if periodMs % 1000 == 0 then "@" + D.ToString(periodMs / 1000) + "s"
    else "@" + D.ToString(periodMs) + "ms"
  }

  function UniverseText(count: Option<nat>): string {
    if count.Some? then "#" + D.ToString(count.value) else ""
  }

  function RegionsText(regions: nat): string {
    if regions > 0 then "&" + D.ToString(regions) else ""
  }

  function SeedText(seed: Option<nat>): string {
    if seed.Some? then "~" + D.ToString(seed.value) else ""
  }

  function ToText(p: Pattern): string
    requires p.periodMs >= 0
  {
    "SUB:" + ItemsText(p.items) + PeriodText(p.periodMs) + UniverseText(p.subscribedSymbolCount)
    + RegionsText(p.regions) + SeedText(p.seed)
  }

  lemma {:induction false} ItemsTextAppend(items: seq<Item>, item: Item)
    ensures ItemsText(items + [item]) == ItemsText(items) + (if items == [] then "" else ";") + ItemText(item)
  {
    if items == [] {
      assert items + [item] == [item];
    } else {
      ItemsTextAppend(items[1..], item);
      assert (items + [item])[1..] == items[1..] + [item];
      if |items| == 1 {
        assert items[1..] == [];
      }
    }
  }

  method PrintItems(items: seq<Item>) returns (result: string)
    ensures result == "SUB:" + ItemsText(items)
  {
    result := "SUB:";
    for i := 0 to |items|
      invariant result == "SUB:" + ItemsText(items[..i])
    {
      ItemsTextAppend(items[..i], items[i]);
      assert items[..i + 1] == items[..i] + [items[i]];
      ghost var before := ItemsText(items[..i]);
      var quantity := D.ToString(items[i].quantity);
      if i > 0 {
        result := result + ";";
      }
      result := result + [items[i].kind.Code()];
      result := result + quantity;
      assert result == "SUB:" + (before + (if i == 0 then "" else ";") + ([items[i].kind.Code()] + quantity));
    }
    assert items[..|items|] == items;
  }

  method PrintPeriod(text: string, periodMs: nat) returns (result: string)
    ensures result == text + PeriodText(periodMs)
  {
    result := text;
    if periodMs != DEFAULT_PERIOD_MS {
      var seconds, millis := D.ToString(periodMs / 1000), D.ToString(periodMs);
      result := result + "@";
      if periodMs % 1000 == 0 {
        result := result + seconds + "s";
        assert result == text + ("@" + seconds + "s");
      } else {
        result := result + millis + "ms";
        assert result == text + ("@" + millis + "ms");
      }
    }
  }

  method ToString(p: Pattern) returns (result: string)
    requires p.periodMs >= 0
    ensures result == ToText(p)
  {
    result := PrintItems(p.items);
    result := PrintPeriod(result, p.periodMs);
    ghost var head := result;
    if p.subscribedSymbolCount.Some? {
      result := result + ("#" + D.ToString(p.subscribedSymbolCount.value));
    }
    assert result == head + UniverseText(p.subscribedSymbolCount);
    head := result;
    if p.regions > 0 {
      result := result + ("&" + D.ToString(p.regions));
    }
    assert result == head + RegionsText(p.regions);
    head := result;
    if p.seed.Some? {
      result := result + ("~" + D.ToString(p.seed.value));
    }
    assert result == head + SeedText(p.seed);
  }
}
