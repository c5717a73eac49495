/** The rotating benchmark plan (src/runner.cpp) and the run-prefix reader (src/monitoring.cpp). */
module BenchmarkPlan {
  import opened Common
  import opened Arithmetic
  import D = Decimal

  const ULLONG_MAX := 0xFFFF_FFFF_FFFF_FFFF

  /** The identity of one planned run: which profile, in which repetition, under which output prefix. */
  datatype Run = Run(profile: string, repetition: nat, prefix: string)

  function Prefix(name: string, repetition: nat): string {
    name + "-r" + D.Padded(repetition, 2)
  }

  function PlannedRun(profiles: seq<string>, repetition: nat, position: nat): Run
    requires repetition >= 1 && position < |profiles|
  {
    var name := profiles[(position + repetition - 1) % |profiles|];
    Run(name, repetition, Prefix(name, repetition))
  }

  function Repetition(profiles: seq<string>, repetition: nat): seq<Run>
    requires repetition >= 1
  {
    seq(|profiles|, position requires 0 <= position < |profiles| => PlannedRun(profiles, repetition, position))
  }

  /** The runs of repetitions 1 to `repetitions`, in order. */
  function Plan(profiles: seq<string>, repetitions: nat): seq<Run> {
    if repetitions == 0 then [] else Plan(profiles, repetitions - 1) + Repetition(profiles, repetitions)
  }

  method BuildBenchmarkPlan(profiles: seq<string>, repetitions: nat) returns (result: seq<Run>)
    ensures result == Plan(profiles, repetitions)
  {
    result := [];
    for repetition := 1 to repetitions + 1
      invariant result == Plan(profiles, repetition - 1)
    {
      ghost var before := result;
      for position := 0 to |profiles|
        invariant result == before + Repetition(profiles, repetition)[..position]
      {
        var profile := profiles[(position + repetition - 1) % |profiles|];
        result := result + [Run(profile, repetition, Prefix(profile, repetition))];
        assert Repetition(profiles, repetition)[..position + 1]
            == Repetition(profiles, repetition)[..position] + [PlannedRun(profiles, repetition, position)];
      }
      assert Repetition(profiles, repetition)[..|profiles|] == Repetition(profiles, repetition);
    }
  }

  /** The position at which repetition `repetition` runs profile number `k`. */
  function PositionOf(n: nat, repetition: nat, k: nat): (position: nat)
    requires repetition >= 1 && k < n
    ensures position < n
  {
    (k + n - (repetition - 1) % n) % n
  }

  /** Each repetition runs every profile exactly once: at its rotated position and nowhere else. */
  lemma EveryProfileOnce(n: nat, repetition: nat, k: nat, position: nat)
    requires repetition >= 1 && k < n && position < n
    ensures (position + repetition - 1) % n == k <==> position == PositionOf(n, repetition, k)
  {
    var shift := (repetition - 1) % n;
    ModSum(position, repetition - 1, n);
    ModWrap(position + shift, n);
    ModWrap(k + n - shift, n);
  }

  /** The repetition, among n consecutive ones from `first`, in which profile k runs at `position`. */
  function RepetitionAt(n: nat, first: nat, k: nat, position: nat): nat
    requires first >= 1 && k < n && position < n
  {
    first + ((k + n - position) % n + n - (first - 1) % n) % n
  }

  /** Over n consecutive repetitions a profile takes each position exactly once. */
  lemma EveryPositionOnce(n: nat, first: nat, k: nat, position: nat, repetition: nat)
    requires first >= 1 && k < n && position < n
    requires first <= repetition < first + n
    ensures first <= RepetitionAt(n, first, k, position) < first + n
    ensures PositionOf(n, repetition, k) == position <==> repetition == RepetitionAt(n, first, k, position)
  {
    var residue, start := (k + n - position) % n, (first - 1) % n;
    ModWrap(k + n - position, n);
    ModWrap(residue + n - start, n);
    var shift := (repetition - 1) % n;
    ModSum(repetition - first, first - 1, n);
    ModWrap(repetition - first + start, n);
    ModWrap(k + n - shift, n);
  }

  // Reading a prefix back.

  datatype Profile = Profile(name: string, repetition: nat)

  predicate LineBreak(c: char) {
    c == '\n' || c == '\r'
  }

  /** Start of the digits that end at a position. */
  function DigitStart(s: string, end: nat): (start: nat)
    requires end <= |s|
    ensures start <= end
    ensures forall i :: start <= i < end ==> D.IsDigit(s[i])
    ensures start > 0 ==> !D.IsDigit(s[start - 1])
  {
    if end == 0 || !D.IsDigit(s[end - 1]) then end else DigitStart(s, end - 1)
  }

  /** Length of the digit suffix of a text. */
  function DigitSuffix(s: string): (n: nat)
    ensures n <= |s| && D.AllDigits(s[|s| - n..])
  {
    |s| - DigitStart(s, |s|)
  }

  /**
   * The regular expression `^(.+)-r([0-9]+)$` with `std::stoull`: the repetition is the whole digit suffix, since
   * only digits may follow "-r"; `.` matches no line break, and an unrepresentable number falls back to repetition 1.
   */
  function ParseProfile(text: string): Profile {
    var digits := DigitSuffix(text);
    var end := |text| - digits;
    if digits >= 1 && end >= 3 && text[end - 2..end] == "-r"
       && (forall i :: 0 <= i < end - 2 ==> !LineBreak(text[i]))
       && D.Value(text[end..]) <= ULLONG_MAX
    then Profile(text[..end - 2], D.Value(text[end..]))
    else Profile(text, 1)
  }

  lemma DigitSuffixOf(text: string, front: string, digits: string)
    requires text == front + digits && D.AllDigits(digits)
    requires front != "" && !D.IsDigit(front[|front| - 1])
    ensures DigitSuffix(text) == |digits|
  {
    var start := DigitStart(text, |text|);
    assert text[|front| - 1] == front[|front| - 1];
  }

  /** The pieces of a name, "-r" and digits. */
  lemma Pieces(text: string, name: string, digits: string)
    requires text == name + "-r" + digits && D.AllDigits(digits)
    ensures |text| == |name| + 2 + |digits| && DigitSuffix(text) == |digits|
    ensures text[..|name|] == name && text[|name|..|name| + 2] == "-r" && text[|name| + 2..] == digits
    ensures forall i :: 0 <= i < |name| ==> text[i] == name[i]
  {
    DigitSuffixOf(text, name + "-r", digits);
  }

  lemma PrefixShape(name: string, repetition: nat)
    ensures
      var text := Prefix(name, repetition);
      var digits := D.Padded(repetition, 2);
      DigitSuffix(text) == |digits| && |digits| >= 1 && |text| == |name| + 2 + |digits|
      && text[..|name|] == name && text[|name|..|name| + 2] == "-r" && text[|name| + 2..] == digits
      && D.AllDigits(digits) && D.Value(digits) == repetition
  {
    hide DigitSuffix, D.Padded;
    D.PaddedDigits(repetition, 2);
    Pieces(Prefix(name, repetition), name, D.Padded(repetition, 2));
  }

  /** A generated prefix identifies its run exactly when the profile name is non-empty and free of line breaks. */
  lemma PrefixRoundTrip(name: string, repetition: nat)
    requires repetition <= ULLONG_MAX
    ensures ParseProfile(Prefix(name, repetition)) == Profile(name, repetition)
        <==> name != "" && forall i :: 0 <= i < |name| ==> !LineBreak(name[i])
  {
    PrefixShape(name, repetition);
    var text := Prefix(name, repetition);
    assert forall i :: 0 <= i < |name| ==> text[i] == name[i];
  }

  predicate OneLine(name: string) {
    forall i :: 0 <= i < |name| ==> !LineBreak(name[i])
  }

  /** A text names a profile and a repetition. */
  predicate Names(text: string, name: string, digits: string) {
    && name != "" && OneLine(name) && digits != "" && D.AllDigits(digits) && D.Value(digits) <= ULLONG_MAX
    && text == name + "-r" + digits
  }

  lemma ProfileReads(text: string, name: string, digits: string)
    requires Names(text, name, digits)
    ensures ParseProfile(text) == Profile(name, D.Value(digits))
  {
    hide DigitSuffix, D.Value;
    Pieces(text, name, digits);
  }

  /** Any other text is a profile name of its own, in repetition 1. */
  lemma ProfileFallsBack(text: string)
    requires !exists name, digits :: Names(text, name, digits)
    ensures ParseProfile(text) == Profile(text, 1)
  {
    var end := |text| - DigitSuffix(text);
    if end >= 3 && text[end - 2..end] == "-r" {
      assert text == text[..end - 2] + "-r" + text[end..];
      assert !Names(text, text[..end - 2], text[end..]);
    }
  }

  lemma PrefixInjective(a: string, i: nat, b: string, j: nat)
    requires Prefix(a, i) == Prefix(b, j)
    ensures a == b && i == j
  {
    PrefixShape(a, i);
    PrefixShape(b, j);
  }

  /** Run number k of the plan is the k-th in repetition-major order. */
  lemma {:induction false} PlanAt(profiles: seq<string>, repetitions: nat, q: nat, position: nat)
    requires position < |profiles|
    ensures |Plan(profiles, repetitions)| == repetitions * |profiles|
    ensures q < repetitions ==>
              && 0 <= q * |profiles| + position < |Plan(profiles, repetitions)|
              && Plan(profiles, repetitions)[q * |profiles| + position] == PlannedRun(profiles, q + 1, position)
  {
    var n := |profiles|;
    if repetitions > 0 {
      PlanAt(profiles, repetitions - 1, q, position);
      Distribute(repetitions - 1, 1, n);
      if q < repetitions - 1 {
        Distribute(repetitions - 1 - q, q, n);
        ProductAtLeast(repetitions - 1 - q, n);
      }
    }
  }

  /** In the plan, repetition q + 1 runs profile k at its rotated position and nowhere else. */
  lemma PlanRotation(profiles: seq<string>, repetitions: nat, q: nat, k: nat, position: nat)
    requires Distinct(profiles) && q < repetitions && k < |profiles| && position < |profiles|
    ensures 0 <= q * |profiles| + position < |Plan(profiles, repetitions)|
    ensures
      var run := Plan(profiles, repetitions)[q * |profiles| + position];
      && run.repetition == q + 1
      && (run.profile == profiles[k] <==> position == PositionOf(|profiles|, q + 1, k))
  {
    PlanAt(profiles, repetitions, q, position);
    EveryProfileOnce(|profiles|, q + 1, k, position);
    hide Plan, PositionOf;
    var l := (position + q) % |profiles|;
    assert l != k ==> profiles[l] != profiles[k];
  }

  lemma RunAt(profiles: seq<string>, repetitions: nat, x: nat) returns (q: nat, position: nat)
    requires profiles != [] && x < |Plan(profiles, repetitions)|
    ensures q < repetitions && position < |profiles| && x == q * |profiles| + position
    ensures Plan(profiles, repetitions)[x] == PlannedRun(profiles, q + 1, position)
  {
    var n := |profiles|;
    DivMod(x, n);
    q, position := x / n, x % n;
    PlanAt(profiles, repetitions, q, position);
    if q >= repetitions {
      Distribute(q - repetitions, repetitions, n);
    }
  }

  /** Distinct profile names give pairwise distinct output prefixes over the whole plan. */
  lemma PrefixesDistinct(profiles: seq<string>, repetitions: nat, x: nat, y: nat)
    requires Distinct(profiles) && profiles != []
    requires x < |Plan(profiles, repetitions)| && y < |Plan(profiles, repetitions)|
    requires Plan(profiles, repetitions)[x].prefix == Plan(profiles, repetitions)[y].prefix
    ensures x == y
  {
    var q, p := RunAt(profiles, repetitions, x);
    var t, u := RunAt(profiles, repetitions, y);
    SameRun(profiles, q + 1, p, t + 1, u);
  }

  lemma SameRun(profiles: seq<string>, r: nat, p: nat, s: nat, q: nat)
    requires Distinct(profiles) && r >= 1 && s >= 1 && p < |profiles| && q < |profiles|
    requires PlannedRun(profiles, r, p).prefix == PlannedRun(profiles, s, q).prefix
    ensures r == s && p == q
  {
    var n := |profiles|;
    var k, l := (p + r - 1) % n, (q + s - 1) % n;
    PrefixInjective(profiles[k], r, profiles[l], s);
    assert k == l;
    EveryProfileOnce(n, r, k, p);
    EveryProfileOnce(n, r, k, q);
  }
}
