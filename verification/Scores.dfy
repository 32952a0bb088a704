/**
  `normalise_scores` in exact arithmetic: a score is a number of tenths, and rounding to one decimal
  is any function that picks a nearest tenth.
 */
module Scores {
  import opened Wrappers

  /** Rounding to tenths: the result is within half a tenth. */
  ghost predicate RoundsToTenths(round: real -> int) {
    forall x: real :: -0.5 <= 10.0 * x - round(x) as real <= 0.5
  }

  /** There is such a rounding. */
  lemma NearestTenthExists()
    ensures exists round: real -> int :: RoundsToTenths(round)
  {
    var round: real -> int := x => (10.0 * x + 0.5).Floor;
    assert RoundsToTenths(round);
  }

  function Clamp(v: real): (r: real)
    ensures 0.0 <= r <= 10.0
    ensures 0.0 <= v <= 10.0 ==> r == v
  {
    if v < 0.0 then 0.0 else if v > 10.0 then 10.0 else v
  }

  function Processed(round: real -> int, v: Option<real>): Option<int> {
    if v.None? then None else Some(round(Clamp(v.value)))
  }

  function Present(values: seq<Option<int>>): (present: seq<int>)
    ensures forall t :: t in present <==> Some(t) in values
    ensures present == [] <==> forall i :: 0 <= i < |values| ==> values[i].None?
  {
    if values == [] then []
    else (if values[0].Some? then [values[0].value] else []) + Present(values[1..])
  }

  function Sum(tenths: seq<int>): int { if tenths == [] then 0 else tenths[0] + Sum(tenths[1..]) }

  /** The mean of some scores, as a number. */
  function Mean(tenths: seq<int>): real
    requires tenths != []
  {
    (Sum(tenths) as real / 10.0) / |tenths| as real
  }

  datatype Normalised = Normalised(values: seq<Option<int>>, overall: Option<int>)

  function Normalise(round: real -> int, scores: seq<Option<real>>): Normalised {
    var values := seq(|scores|, i requires 0 <= i < |scores| => Processed(round, scores[i]));
    var present := Present(values);
    Normalised(values, if present == [] then None else Some(round(Mean(present))))
  }

  // ---- The mean ------------------------------------------------------------

  /** How many scores are present, and what they add up to, in tenths. */
  function Count(values: seq<Option<int>>): nat {
    if values == [] then 0 else Count(values[..|values| - 1]) + if values[|values| - 1].Some? then 1 else 0
  }

  function Total(values: seq<Option<int>>): int {
    if values == [] then 0
    else Total(values[..|values| - 1]) + if values[|values| - 1].Some? then values[|values| - 1].value else 0
  }

  lemma {:induction false} SumSplits(a: seq<int>, b: seq<int>)
    ensures Sum(a + b) == Sum(a) + Sum(b)
  {
    if a == [] {
      assert a + b == b;
    } else {
      assert a + b == [a[0]] + (a[1..] + b);
      SumSplits(a[1..], b);
    }
  }

  /** The mean of one score is that score, and means weighted by their counts add up. */
  lemma MeanIsAverage(t: int, a: seq<int>, b: seq<int>)
    requires a != [] && b != []
    ensures Mean([t]) == t as real / 10.0
    ensures |a + b| as real * Mean(a + b) == |a| as real * Mean(a) + |b| as real * Mean(b)
  {
    SumSplits(a, b);
    Weighted(a);
    Weighted(b);
    Weighted(a + b);
    assert Sum([t]) == t + Sum([]);
  }

  lemma Weighted(s: seq<int>)
    requires s != []
    ensures |s| as real * Mean(s) == Sum(s) as real / 10.0
  {}

  lemma {:induction false} PresentSplits(a: seq<Option<int>>, b: seq<Option<int>>)
    ensures Present(a + b) == Present(a) + Present(b)
  {
    if a == [] {
      assert a + b == b;
    } else {
      assert a + b == [a[0]] + (a[1..] + b);
      PresentSplits(a[1..], b);
    }
  }

  lemma {:induction false} PresentAddsUp(values: seq<Option<int>>)
    ensures |Present(values)| == Count(values) && Sum(Present(values)) == Total(values)
  {
    if values != [] {
      var n := |values| - 1;
      var last := [values[n]];
      PresentAddsUp(values[..n]);
      PresentSplits(values[..n], last);
      SumSplits(Present(values[..n]), Present(last));
      assert values == values[..n] + last && last[1..] == [];
      assert Present(last) == if last[0].Some? then [last[0].value] else [];
    }
  }

  /** Every score that is there counts, as often as it is there. */
  lemma {:induction false} PresentKeepsEach(values: seq<Option<int>>, t: int)
    ensures multiset(Present(values))[t] == multiset(values)[Some(t)]
  {
    if values != [] {
      PresentKeepsEach(values[1..], t);
      assert values == [values[0]] + values[1..];
    }
  }

  // ---- Claims --------------------------------------------------------------

  lemma {:induction false} SumBounded(tenths: seq<int>, low: int, high: int)
    requires forall i :: 0 <= i < |tenths| ==> low <= tenths[i] <= high
    ensures low * |tenths| <= Sum(tenths) <= high * |tenths|
  {
    if tenths != [] { SumBounded(tenths[1..], low, high); }
  }

  lemma Averaged(sum: int, n: int, low: int, high: int)
    requires n > 0 && low * n <= sum <= high * n
    ensures low as real <= 10.0 * ((sum as real / 10.0) / n as real) <= high as real
  {
    var mean, count := 10.0 * ((sum as real / 10.0) / n as real), n as real;
    assert mean * count == sum as real;
    Cancels(low as real, mean, count);
    Cancels(mean, high as real, count);
  }

  lemma Cancels(a: real, b: real, n: real)
    requires n > 0.0 && a * n <= b * n
    ensures a <= b
  {
    assert (b - a) * n >= 0.0;
  }

  /**
    Every present score lands in 0 to 10, a score is absent exactly when it was, one below 0 becomes 0,
    one above 10 becomes 10, and any other moves by at most half a tenth.
   */
  lemma ScoresLandInRange(round: real -> int, scores: seq<Option<real>>, i: nat)
    requires RoundsToTenths(round) && i < |scores|
    ensures var v := Normalise(round, scores).values[i];
      && (v.None? <==> scores[i].None?)
      && (v.Some? ==> 0 <= v.value <= 100)
      && (v.Some? && scores[i].value < 0.0 ==> v.value == 0)
      && (v.Some? && scores[i].value > 10.0 ==> v.value == 100)
      && (v.Some? && 0.0 <= scores[i].value <= 10.0 ==> -0.5 <= 10.0 * scores[i].value - v.value as real <= 0.5)
  {
    if scores[i].Some? {
      var x := Clamp(scores[i].value);
      assert -0.5 <= 10.0 * x - round(x) as real <= 0.5;
    }
  }

  lemma PresentBounded(values: seq<Option<int>>, low: int, high: int)
    requires forall v :: v in values && v.Some? ==> low <= v.value <= high
    ensures forall i :: 0 <= i < |Present(values)| ==> low <= Present(values)[i] <= high
  {
    var present := Present(values);
    forall i | 0 <= i < |present| ensures low <= present[i] <= high {
      assert present[i] in present && Some(present[i]) in values;
    }
  }

  lemma MeanBounded(tenths: seq<int>, low: int, high: int)
    requires tenths != [] && forall i :: 0 <= i < |tenths| ==> low <= tenths[i] <= high
    ensures low as real <= 10.0 * Mean(tenths) <= high as real
  {
    SumBounded(tenths, low, high);
    Averaged(Sum(tenths), |tenths|, low, high);
  }

  /** The number of tenths closest to total / count. */
  predicate NearestMean(total: int, count: nat, tenths: int) {
    2 * total - count <= 2 * (tenths * count) <= 2 * total + count
  }

  /** What two numbers at most half apart come to, n times over. */
  lemma HalfApart(a: real, b: real, n: real, na: real, nb: real)
    requires a - b <= 0.5 && n >= 0.0 && na == a * n && nb == b * n
    ensures na <= nb + 0.5 * n
  {
    Scaled(a, b + 0.5, n);
    assert (b + 0.5) * n == b * n + 0.5 * n;
  }

  lemma WholeProduct(a: int, b: int)
    ensures a as real * b as real == (a * b) as real
  {}

  lemma AsIntegers(total: int, count: int, product: int, value: real)
    requires value == product as real
    requires 2.0 * total as real - count as real <= 2.0 * value <= 2.0 * total as real + count as real
    ensures 2 * total - count <= 2 * product <= 2 * total + count
  {}

  lemma NearestScaled(mean: real, tenths: real, n: real, total: real, product: real)
    requires n >= 0.0 && total == mean * n && product == tenths * n && -0.5 <= mean - tenths <= 0.5
    ensures 2.0 * total - n <= 2.0 * product <= 2.0 * total + n
  {
    HalfApart(mean, tenths, n, total, product);
    HalfApart(tenths, mean, n, product, total);
  }

  lemma NearestTo(total: int, count: nat, mean: real, tenths: int)
    requires mean * count as real == total as real && -0.5 <= mean - tenths as real <= 0.5
    ensures NearestMean(total, count, tenths)
  {
    var product := tenths as real * count as real;
    NearestScaled(mean, tenths as real, count as real, total as real, product);
    WholeProduct(tenths, count);
    AsIntegers(total, count, tenths * count, product);
  }

  lemma TenTimesMean(present: seq<int>)
    requires present != []
    ensures (10.0 * Mean(present)) * |present| as real == Sum(present) as real
  {
    Weighted(present);
  }

  lemma RoundedMean(round: real -> int, present: seq<int>)
    requires RoundsToTenths(round) && present != []
    ensures NearestMean(Sum(present), |present|, round(Mean(present)))
  {
    assert -0.5 <= 10.0 * Mean(present) - round(Mean(present)) as real <= 0.5;
    TenTimesMean(present);
    NearestTo(Sum(present), |present|, 10.0 * Mean(present), round(Mean(present)));
  }

  /**
    The overall score is absent exactly when all scores are; otherwise it is a tenth nearest to what the
    present ones add up to over how many they are, and lies between any bounds on them.
   */
  lemma OverallIsTheirMean(round: real -> int, scores: seq<Option<real>>, low: int, high: int)
    requires RoundsToTenths(round)
    requires forall v :: v in Normalise(round, scores).values && v.Some? ==> low <= v.value <= high
    ensures var n := Normalise(round, scores);
      && (n.overall.None? <==> forall i :: 0 <= i < |scores| ==> scores[i].None?)
      && (n.overall.Some? ==>
            && low <= n.overall.value <= high
            && NearestMean(Total(n.values), Count(n.values), n.overall.value))
  {
    var n := Normalise(round, scores);
    var present := Present(n.values);
    assert forall i :: 0 <= i < |scores| ==> (n.values[i].None? <==> scores[i].None?);
    if present != [] {
      PresentBounded(n.values, low, high);
      MeanBounded(present, low, high);
      RoundedMean(round, present);
      PresentAddsUp(n.values);
    }
  }

  lemma Scaled(a: real, b: real, n: real)
    requires a <= b && n >= 0.0
    ensures a * n <= b * n
  {}

  /** Normalising what was normalised changes nothing. */
  lemma NormalisedStays(round: real -> int, scores: seq<Option<real>>)
    requires RoundsToTenths(round)
    ensures var n := Normalise(round, scores);
      var again := seq(|scores|, i requires 0 <= i < |scores| =>
        if n.values[i].Some? then Some(n.values[i].value as real / 10.0) else None);
      Normalise(round, again) == n
  {
    var n := Normalise(round, scores);
    var again := seq(|scores|, i requires 0 <= i < |scores| =>
      if n.values[i].Some? then Some(n.values[i].value as real / 10.0) else None);
    forall i | 0 <= i < |scores| ensures Processed(round, again[i]) == n.values[i] {
      ScoresLandInRange(round, scores, i);
      if n.values[i].Some? { TenthsAreFixed(round, n.values[i].value); }
    }
    assert Normalise(round, again).values == n.values;
  }

  lemma TenthsAreFixed(round: real -> int, t: int)
    requires RoundsToTenths(round) && 0 <= t <= 100
    ensures Processed(round, Some(t as real / 10.0)) == Some(t)
  {
    var x := t as real / 10.0;
    assert -0.5 <= 10.0 * x - round(x) as real <= 0.5;
  }
}
