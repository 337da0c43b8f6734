/**
 * Inverse-distance weighting as the IDW branch of `interpolate_raster` computes it for one grid
 * cell: the weight of sample k is 1 / (d_k + 1e-10), the weights are divided by their sum, and the
 * cell value is the weighted sum of all sample values. Reals stand for the source's float64.
 */
module Idw {

  /** The constant added to every distance so that a sample on the cell itself does not divide by zero. */
  const Epsilon: real := 0.0000000001

  function Sum(s: seq<real>): real
  {
    if s == [] then 0.0 else s[0] + Sum(s[1..])
  }

  /** `np.sum(w * v)`. */
  function Dot(w: seq<real>, v: seq<real>): real
    requires |w| == |v|
  {
    if w == [] then 0.0 else w[0] * v[0] + Dot(w[1..], v[1..])
  }

  predicate AllNonNegative(s: seq<real>)
  {
    forall k :: 0 <= k < |s| ==> s[k] >= 0.0
  }

  predicate AllPositive(s: seq<real>)
  {
    forall k :: 0 <= k < |s| ==> s[k] > 0.0
  }

  /** `1 / (dist + 1e-10)`, element-wise. */
  function InverseWeights(d: seq<real>): (w: seq<real>)
    requires AllNonNegative(d)
    ensures |w| == |d| && AllPositive(w)
    ensures forall k :: 0 <= k < |d| ==> w[k] * (d[k] + Epsilon) == 1.0
  {
    seq(|d|, k requires 0 <= k < |d| => 1.0 / (d[k] + Epsilon))
  }

  /** Element-wise division by `c`. */
  function Scale(w: seq<real>, c: real): (r: seq<real>)
    requires c != 0.0
    ensures |r| == |w|
    ensures forall k :: 0 <= k < |w| ==> r[k] * c == w[k]
  {
    if w == [] then [] else [w[0] / c] + Scale(w[1..], c)
  }

  lemma {:induction false} SumOfPositivesIsPositive(w: seq<real>)
    requires |w| > 0 && AllPositive(w)
    ensures Sum(w) > 0.0
  {
    if |w| > 1 {
      SumOfPositivesIsPositive(w[1..]);
    }
  }

  lemma {:induction false} SumScale(w: seq<real>, c: real)
    requires c != 0.0
    ensures Sum(Scale(w, c)) * c == Sum(w)
  {
    if w != [] {
      SumScale(w[1..], c);
      var r := Scale(w, c);
      assert r[1..] == Scale(w[1..], c);
      calc {
        Sum(r) * c;
        (r[0] + Sum(r[1..])) * c;
        r[0] * c + Sum(r[1..]) * c;
        w[0] + Sum(w[1..]);
      }
    }
  }

  lemma CancelFactor(a: real, b: real, t: real)
    requires t != 0.0 && a * t == b * t
    ensures a == b
  {
    assert (a - b) * t == 0.0;
  }

  lemma PositiveQuotient(q: real, t: real, p: real)
    requires t > 0.0 && q * t == p && p > 0.0
    ensures q > 0.0
  {
  }

  lemma ReciprocalDecreases(a: real, b: real)
    requires 0.0 < a < b
    ensures 1.0 / a > 1.0 / b
  {
    var x, y := 1.0 / a, 1.0 / b;
    assert x * a == 1.0 && y * b == 1.0;
    PositiveQuotient(y, b, 1.0);
    assert y * a < y * b;
    assert (x - y) * a == 1.0 - y * a;
    PositiveQuotient(x - y, a, 1.0 - y * a);
  }

  /** Dividing by the same positive total keeps the order of two weights. */
  lemma ScaleKeepsOrder(w: seq<real>, c: real, i: nat, j: nat)
    requires c > 0.0 && i < |w| && j < |w| && w[i] > w[j]
    ensures Scale(w, c)[i] > Scale(w, c)[j]
  {
    var n := Scale(w, c);
    assert (n[i] - n[j]) * c == w[i] - w[j];
    PositiveQuotient(n[i] - n[j], c, w[i] - w[j]);
  }

  /** `weights /= weights.sum()`: positive weights summing to exactly one. */
  function Normalize(w: seq<real>): (n: seq<real>)
    requires |w| > 0 && AllPositive(w)
    ensures |n| == |w| && AllPositive(n)
    ensures Sum(n) == 1.0
  {
    SumOfPositivesIsPositive(w);
    ScaleByTotal(w, Sum(w));
    Scale(w, Sum(w))
  }

  /** Dividing positive weights by their positive total gives positive weights summing to one. */
  lemma ScaleByTotal(w: seq<real>, total: real)
    requires AllPositive(w) && total == Sum(w) && total > 0.0
    ensures AllPositive(Scale(w, total)) && Sum(Scale(w, total)) == 1.0
  {
    var n := Scale(w, total);
    SumScale(w, total);
    CancelFactor(Sum(n), 1.0, total);
    ScaleKeepsPositive(w, total);
  }

  lemma ScaleKeepsPositive(w: seq<real>, c: real)
    requires AllPositive(w) && c > 0.0
    ensures AllPositive(Scale(w, c))
  {
    var n := Scale(w, c);
    forall k | 0 <= k < |w|
      ensures n[k] > 0.0
    {
      PositiveQuotient(n[k], c, w[k]);
    }
  }

  /** The value the IDW branch writes into one cell, given the distances from that cell to every sample. */
  function IdwValue(d: seq<real>, v: seq<real>): real
    requires |d| == |v| > 0 && AllNonNegative(d)
  {
    Dot(Normalize(InverseWeights(d)), v)
  }

  /** A non-negatively weighted sum of values in [lo, hi] lies between lo and hi times the weight total. */
  lemma {:induction false} DotBetween(w: seq<real>, v: seq<real>, lo: real, hi: real)
    requires |w| == |v| && AllNonNegative(w)
    requires forall k :: 0 <= k < |v| ==> lo <= v[k] <= hi
    ensures lo * Sum(w) <= Dot(w, v) <= hi * Sum(w)
  {
    if w != [] {
      TailNonNegative(w);
      DotBetween(w[1..], v[1..], lo, hi);
      BoundStep(w[0], v[0], Sum(w[1..]), Dot(w[1..], v[1..]), lo, hi);
    }
  }

  lemma TailNonNegative(w: seq<real>)
    requires w != [] && AllNonNegative(w)
    ensures AllNonNegative(w[1..])
  {
    forall k | 0 <= k < |w[1..]| ensures w[1..][k] >= 0.0 {
      assert w[1..][k] == w[k + 1];
    }
  }

  /** One more weighted value in [lo, hi] keeps the weighted sum between lo and hi times the weight total. */
  lemma BoundStep(head: real, x: real, rest: real, dotRest: real, lo: real, hi: real)
    requires head >= 0.0 && lo <= x <= hi && lo * rest <= dotRest <= hi * rest
    ensures lo * (head + rest) <= head * x + dotRest <= hi * (head + rest)
  {
    MulBetween(head, x, lo, hi);
    Distribute(lo, head, rest);
    Distribute(hi, head, rest);
  }

  lemma MulBetween(a: real, x: real, lo: real, hi: real)
    requires a >= 0.0 && lo <= x <= hi
    ensures lo * a <= a * x <= hi * a
  {
    assert a * (x - lo) >= 0.0;
    assert a * (hi - x) >= 0.0;
  }

  lemma Distribute(c: real, a: real, b: real)
    ensures c * (a + b) == c * a + c * b
  {
  }

  /** IDW is a convex combination: with every sample value in [lo, hi], so is the cell value. */
  lemma IdwBetween(d: seq<real>, v: seq<real>, lo: real, hi: real)
    requires |d| == |v| > 0 && AllNonNegative(d)
    requires forall k :: 0 <= k < |v| ==> lo <= v[k] <= hi
    ensures lo <= IdwValue(d, v) <= hi
  {
    var n := Normalize(InverseWeights(d));
    DotBetween(n, v, lo, hi);
  }

  function Min(v: seq<real>): (m: real)
    requires |v| > 0
    ensures forall k :: 0 <= k < |v| ==> m <= v[k]
    ensures exists k :: 0 <= k < |v| && v[k] == m
  {
    if |v| == 1 then v[0]
    else
      var rest := Min(v[1..]);
      assert forall k :: 1 <= k < |v| ==> v[k] == v[1..][k - 1];
      if v[0] <= rest then v[0] else rest
  }

  function Max(v: seq<real>): (m: real)
    requires |v| > 0
    ensures forall k :: 0 <= k < |v| ==> v[k] <= m
    ensures exists k :: 0 <= k < |v| && v[k] == m
  {
    if |v| == 1 then v[0]
    else
      var rest := Max(v[1..]);
      assert forall k :: 1 <= k < |v| ==> v[k] == v[1..][k - 1];
      if v[0] >= rest then v[0] else rest
  }

  /** Every IDW cell value lies between the smallest and the largest sample value. */
  lemma IdwWithinSampleRange(d: seq<real>, v: seq<real>)
    requires |d| == |v| > 0 && AllNonNegative(d)
    ensures Min(v) <= IdwValue(d, v) <= Max(v)
  {
    IdwBetween(d, v, Min(v), Max(v));
  }

  /** Where all samples agree on a value, every cell gets exactly that value. */
  lemma IdwOfConstantSamples(d: seq<real>, v: seq<real>, c: real)
    requires |d| == |v| > 0 && AllNonNegative(d)
    requires forall k :: 0 <= k < |v| ==> v[k] == c
    ensures IdwValue(d, v) == c
  {
    IdwBetween(d, v, c, c);
  }

  /**
   * Every sample takes part in every cell (its normalised weight is positive), and a nearer sample
   * weighs strictly more than a farther one.
   */
  lemma NearerWeighsMore(d: seq<real>, i: nat, j: nat)
    requires |d| > 0 && AllNonNegative(d)
    requires i < |d| && j < |d| && d[i] < d[j]
    ensures Normalize(InverseWeights(d))[i] > Normalize(InverseWeights(d))[j] > 0.0
  {
    var w := InverseWeights(d);
    var n := Normalize(w);
    NormalizeIsScale(w);
    InverseWeightsOrder(d, i, j);
    SumOfPositivesIsPositive(w);
    ScaleKeepsOrder(w, Sum(w), i, j);
    assert n[j] > 0.0;
  }

  /** A nearer sample gets the larger raw weight. */
  lemma InverseWeightsOrder(d: seq<real>, i: nat, j: nat)
    requires AllNonNegative(d) && i < |d| && j < |d| && d[i] < d[j]
    ensures InverseWeights(d)[i] > InverseWeights(d)[j]
  {
    ReciprocalDecreases(d[i] + Epsilon, d[j] + Epsilon);
  }

  /** Normalising divides every weight by the total. */
  lemma NormalizeIsScale(w: seq<real>)
    requires |w| > 0 && AllPositive(w)
    ensures Sum(w) > 0.0 && Normalize(w) == Scale(w, Sum(w))
  {
    SumOfPositivesIsPositive(w);
  }
}
