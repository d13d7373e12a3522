/** Real-valued helpers shared by the layouts: folds over value lists and the
    float-to-integer conversions that the source performs with `as`. */
module Numeric {
  import opened Wrappers

  function Max(a: real, b: real): real { if a >= b then a else b }

  function Min(a: real, b: real): real { if a <= b then a else b }

  function Abs(x: real): real { if x >= 0.0 then x else -x }

  /** A nonzero number divided by itself is 1. */
  lemma SelfQuotient(m: real)
    requires m != 0.0
    ensures m / m == 1.0
  {
  }

  /** Dividing by a positive number keeps order, strictly for strict
      order, and keeps the sign. */
  lemma QuotientOrder(a: real, b: real, m: real)
    requires a <= b && m > 0.0
    ensures a / m <= b / m && (a < b ==> a / m < b / m)
    ensures 0.0 <= a ==> 0.0 <= a / m
  {
    assert a / m * m == a && b / m * m == b;
  }

  /** `x.max(lo).min(hi)`. */
  function Clamp(x: real, lo: real, hi: real): (r: real)
    requires lo <= hi
    ensures lo <= r <= hi
    ensures lo <= x <= hi ==> r == x
    ensures x < lo ==> r == lo
    ensures hi < x ==> r == hi
  {
    Min(Max(x, lo), hi)
  }

  /** `fold(f64::NEG_INFINITY, f64::max)`: the largest element; the empty
      fold's negative infinity is `None`. */
  function MaxOf(xs: seq<real>): (r: Option<real>)
    ensures r.None? <==> |xs| == 0
    ensures r.Some? ==> forall i :: 0 <= i < |xs| ==> xs[i] <= r.value
    ensures r.Some? ==> exists i :: 0 <= i < |xs| && xs[i] == r.value
  {
    if |xs| == 0 then None
    else
      var last := xs[|xs| - 1];
      match MaxOf(xs[..|xs| - 1])
      case None => Some(last)
      case Some(m) => Some(Max(m, last))
  }

  /** `fold(f64::INFINITY, f64::min)`: the smallest element; the empty fold's
      positive infinity is `None`. */
  function MinOf(xs: seq<real>): (r: Option<real>)
    ensures r.None? <==> |xs| == 0
    ensures r.Some? ==> forall i :: 0 <= i < |xs| ==> r.value <= xs[i]
    ensures r.Some? ==> exists i :: 0 <= i < |xs| && xs[i] == r.value
  {
    if |xs| == 0 then None
    else
      var last := xs[|xs| - 1];
      match MinOf(xs[..|xs| - 1])
      case None => Some(last)
      case Some(m) => Some(Min(m, last))
  }

  function Sum(xs: seq<real>): real {
    if |xs| == 0 then 0.0 else xs[0] + Sum(xs[1..])
  }

  lemma {:induction false} SumAppend(xs: seq<real>, ys: seq<real>)
    ensures Sum(xs + ys) == Sum(xs) + Sum(ys)
  {
    if |xs| == 0 {
      assert xs + ys == ys;
    } else {
      assert (xs + ys)[1..] == xs[1..] + ys;
      SumAppend(xs[1..], ys);
    }
  }

  /** Each entry multiplied by `c`. */
  function Scale(xs: seq<real>, c: real): (r: seq<real>)
    ensures |r| == |xs|
    ensures forall i :: 0 <= i < |xs| ==> r[i] == xs[i] * c
  {
    seq(|xs|, i requires 0 <= i < |xs| => xs[i] * c)
  }

  /** Lists with the same entries are the same list. */
  lemma SameEntries(xs: seq<real>, ys: seq<real>)
    requires |xs| == |ys| && forall i :: 0 <= i < |xs| ==> xs[i] == ys[i]
    ensures xs == ys
  {
  }

  /** Scaling every entry scales the total. */
  lemma {:induction false} SumScale(xs: seq<real>, c: real)
    ensures Sum(Scale(xs, c)) == Sum(xs) * c
  {
    if |xs| > 0 {
      assert forall i :: 0 <= i < |xs| - 1 ==> Scale(xs, c)[1..][i] == xs[1..][i] * c;
      assert Scale(xs, c)[1..] == Scale(xs[1..], c);
      SumScale(xs[1..], c);
    }
  }

  /** Extending a prefix by one entry adds that entry to its total. */
  lemma SumPrefix(xs: seq<real>, j: nat)
    requires j < |xs|
    ensures Sum(xs[..j + 1]) == Sum(xs[..j]) + xs[j]
  {
    assert xs[..j + 1] == xs[..j] + [xs[j]];
    SumAppend(xs[..j], [xs[j]]);
  }

  /** A total of entries none of which is negative is at least any one of them. */
  lemma {:induction false} SumCovers(xs: seq<real>, j: nat)
    requires j < |xs| && forall i :: 0 <= i < |xs| ==> 0.0 <= xs[i]
    ensures Sum(xs) >= xs[j]
    ensures Sum(xs) >= 0.0
  {
    if j == 0 {
      SumNonnegative(xs[1..]);
    } else {
      SumCovers(xs[1..], j - 1);
    }
  }

  lemma {:induction false} SumNonnegative(xs: seq<real>)
    requires forall i :: 0 <= i < |xs| ==> 0.0 <= xs[i]
    ensures Sum(xs) >= 0.0
  {
    if |xs| > 0 {
      SumNonnegative(xs[1..]);
    }
  }

  /** ... and at least any two of them together. */
  lemma SumCoversTwo(xs: seq<real>, j: nat, k: nat)
    requires j < k < |xs| && forall i :: 0 <= i < |xs| ==> 0.0 <= xs[i]
    ensures Sum(xs) >= xs[j] + xs[k]
  {
    assert xs == xs[..k] + xs[k..];
    SumAppend(xs[..k], xs[k..]);
    SumCovers(xs[..k], j);
    SumCovers(xs[k..], 0);
  }

  function IntSum(xs: seq<int>): int {
    if |xs| == 0 then 0 else xs[0] + IntSum(xs[1..])
  }

  predicate IsIntegral(x: real) {
    x.Floor as real == x
  }

  /** `f64::round`: to the nearest integer, halves away from zero. */
  function Round(x: real): (r: int)
    ensures 0.0 <= x ==> x - 0.5 < r as real <= x + 0.5
    ensures x < 0.0 ==> x - 0.5 <= r as real < x + 0.5
  {
    if x >= 0.0 then (x + 0.5).Floor else -((-x + 0.5).Floor)
  }

  /** `x as u8`: truncation toward zero, saturating at 0 and 255. */
  function AsU8(x: real): (r: int)
    ensures 0 <= r <= 255
    ensures 0.0 <= x < 256.0 ==> r == x.Floor
    ensures x <= 0.0 ==> r == 0
    ensures 255.0 <= x ==> r == 255
  {
    if x < 0.0 then 0 else if x >= 255.0 then 255 else x.Floor
  }

  const I32Min: int := -0x8000_0000
  const I32Max: int := 0x7FFF_FFFF

  /** `x as i32`: truncation toward zero, saturating at the i32 bounds. */
  function AsI32(x: real): (r: int)
    ensures I32Min <= r <= I32Max
    ensures 0.0 <= x <= I32Max as real ==> r == x.Floor
    ensures I32Min as real <= x <= 0.0 ==> r == -((-x).Floor)
  {
    if x < I32Min as real then I32Min
    else if x > I32Max as real then I32Max
    else if x >= 0.0 then x.Floor
    else -((-x).Floor)
  }

  /** `x as usize` for a value that the caller then clamps below a bound:
      negatives become 0 and everything else truncates (saturation at the top
      cannot change a clamped result). */
  function AsIndex(x: real): (r: nat)
    ensures x < 0.0 ==> r == 0
    ensures 0.0 <= x ==> r == x.Floor
  {
    if x < 0.0 then 0 else x.Floor
  }

  /** A nonzero multiple of a positive number is at least that number in size. */
  lemma MultipleBounds(k: int, n: int)
    requires n > 0
    ensures k >= 1 ==> k * n >= n
    ensures k <= -1 ==> k * n <= -n
  {
    assert k * n - n == (k - 1) * n;
    assert k * n + n == (k + 1) * n;
  }

  /** Remainders repeat with the divisor as period. */
  lemma ModAddPeriod(a: nat, n: nat)
    requires n > 0
    ensures (a + n) % n == a % n
  {
    var q, r := a / n, a % n;
    var q2, r2 := (a + n) / n, (a + n) % n;
    assert (q + 1 - q2) * n == r2 - r;
    MultipleBounds(q + 1 - q2, n);
  }
}
