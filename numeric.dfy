/**
 * The few numpy and Python numeric operations the note mixer relies on,
 * stated over exact reals: `int()` truncation, `max()` of an array,
 * element-wise multiplication, division and addition, and the in-place
 * `/=` and `*=` loops on arrays.
 */
module Numeric {

  function Min(a: int, b: int): (m: int)
    ensures m <= a && m <= b && (m == a || m == b)
  {
    if a <= b then a else b
  }

  /** Python's `int(x)` on a float: truncation toward zero. */
  function Trunc(x: real): (r: int)
    ensures 0.0 <= x ==> 0 <= r && r as real <= x < r as real + 1.0
    ensures x < 0.0 ==> r <= 0 && r as real - 1.0 < x <= r as real
  {
    if 0.0 <= x then x.Floor else -((-x).Floor)
  }

  /** numpy's `a.max()`: defined on non-empty arrays only (an empty one raises). */
  function SeqMax(s: seq<real>): (m: real)
    requires |s| > 0
    ensures m in s
    ensures forall k :: 0 <= k < |s| ==> s[k] <= m
  {
    if |s| == 1 then s[0]
    else
      var rest := SeqMax(s[..|s| - 1]);
      if rest < s[|s| - 1] then s[|s| - 1] else rest
  }

  /** Element-wise `a / d`. */
  function Divided(s: seq<real>, d: real): seq<real>
    requires d != 0.0
  {
    seq(|s|, k requires 0 <= k < |s| => s[k] / d)
  }

  /** Element-wise `a * c`. */
  function Scaled(s: seq<real>, c: real): seq<real>
  {
    seq(|s|, k requires 0 <= k < |s| => s[k] * c)
  }

  /** Element-wise `a * b` of two arrays of the same shape. */
  function Product(a: seq<real>, b: seq<real>): seq<real>
    requires |a| == |b|
  {
    seq(|a|, k requires 0 <= k < |a| => a[k] * b[k])
  }

  /** Element-wise `a + b` of two arrays of the same shape. */
  function Added(a: seq<real>, b: seq<real>): seq<real>
    requires |a| == |b|
  {
    seq(|a|, k requires 0 <= k < |a| => a[k] + b[k])
  }

  /** numpy's `zeros(n)`. */
  function Zeros(n: nat): seq<real>
  {
    seq(n, _ => 0.0)
  }

  /** An index at which `s` reaches its maximum. */
  lemma MaxIndex(s: seq<real>) returns (k: nat)
    requires |s| > 0
    ensures k < |s| && s[k] == SeqMax(s)
  {
    k :| 0 <= k < |s| && s[k] == SeqMax(s);
  }

  /** Only one value can be an element of `s` and bound all of `s` from above. */
  lemma MaxIsUnique(s: seq<real>, m: real)
    requires m in s
    requires forall k :: 0 <= k < |s| ==> s[k] <= m
    ensures SeqMax(s) == m
  {
    var k :| 0 <= k < |s| && s[k] == SeqMax(s);
  }

  /**
   * Scaling by a non-negative number keeps the peak where it was: the
   * maximum of the scaled array is the scaled peak sample.
   */
  lemma MaxScaled(s: seq<real>, c: real, peak: nat)
    requires c >= 0.0 && peak < |s|
    requires forall k :: 0 <= k < |s| ==> s[k] <= s[peak]
    ensures SeqMax(Scaled(s, c)) == s[peak] * c
  {
    var t := Scaled(s, c);
    assert t[peak] == s[peak] * c;
    forall k | 0 <= k < |s|
      ensures t[k] <= s[peak] * c
    {
      ScaleMonotone(s[k], s[peak], c);
    }
    MaxIsUnique(t, s[peak] * c);
  }

  /** Dividing by the positive peak puts the peak at 1. */
  lemma MaxNormalised(s: seq<real>)
    requires |s| > 0 && SeqMax(s) > 0.0
    ensures SeqMax(Divided(s, SeqMax(s))) == 1.0
  {
    var m := SeqMax(s);
    var t := Divided(s, m);
    var p := MaxIndex(s);
    DivideBySelf(m);
    assert t[p] == 1.0;
    forall k | 0 <= k < |t|
      ensures t[k] <= 1.0
    {
      DivideMonotone(s[k], m, m);
    }
    MaxIsUnique(t, 1.0);
  }

  /** Normalising by a positive peak and then scaling by `c >= 0` leaves the peak at `c`. */
  lemma PeakNormalisedThenScaled(s: seq<real>, c: real)
    requires |s| > 0 && SeqMax(s) > 0.0 && c >= 0.0
    ensures SeqMax(Scaled(Divided(s, SeqMax(s)), c)) == c
  {
    var unit := Divided(s, SeqMax(s));
    MaxNormalised(s);
    var p := MaxIndex(unit);
    MaxScaled(unit, c, p);
  }

  /** Normalising by a positive peak and then halving leaves the peak at 0.5. */
  lemma PeakNormalisedThenHalved(s: seq<real>)
    requires |s| > 0 && SeqMax(s) > 0.0
    ensures SeqMax(Divided(Divided(s, SeqMax(s)), 2.0)) == 0.5
  {
    MaxNormalised(s);
    var unit := Divided(s, SeqMax(s));
    var p := MaxIndex(unit);
    MaxHalved(unit, p);
  }

  lemma MaxHalved(s: seq<real>, peak: nat)
    requires peak < |s|
    requires forall k :: 0 <= k < |s| ==> s[k] <= s[peak]
    ensures SeqMax(Divided(s, 2.0)) == s[peak] / 2.0
  {
    var t := Divided(s, 2.0);
    assert t[peak] == s[peak] / 2.0;
    MaxIsUnique(t, s[peak] / 2.0);
  }

  lemma DivideBySelf(x: real)
    requires x != 0.0
    ensures x / x == 1.0
  {
  }

  lemma DivideMonotone(x: real, y: real, d: real)
    requires x <= y && d > 0.0
    ensures x / d <= y / d
  {
    assert y / d - x / d == (y - x) / d;
  }

  lemma ScaleStrictlyMonotone(x: real, y: real, c: real)
    requires x < y && c > 0.0
    ensures x * c < y * c
  {
    assert y * c - x * c == (y - x) * c;
  }

  /** A real below a whole number stays below it once both are scaled by a positive count. */
  lemma BelowWholeCount(x: real, n: int, c: nat)
    requires x < n as real && c > 0
    ensures x * (c as real) < (n * c) as real
  {
    ScaleStrictlyMonotone(x, n as real, c as real);
    assert (n * c) as real == (n as real) * (c as real);
  }

  lemma ScaleMonotone(x: real, y: real, c: real)
    requires x <= y && c >= 0.0
    ensures x * c <= y * c
  {
    assert y * c - x * c == (y - x) * c;
  }

  /** `a.max()` on a non-empty array, by a scan. */
  method MaxOf(a: array<real>) returns (m: real)
    requires a.Length > 0
    ensures m == SeqMax(a[..])
  {
    m := a[0];
    var i := 1;
    while i < a.Length
      invariant 1 <= i <= a.Length
      invariant m == SeqMax(a[..i])
    {
      assert a[..i + 1][..i] == a[..i];
      if m < a[i] {
        m := a[i];
      }
      i := i + 1;
    }
    assert a[..a.Length] == a[..];
  }

  /** In-place `a /= d`. */
  method DivideInPlace(a: array<real>, d: real)
    requires d != 0.0
    modifies a
    ensures a[..] == Divided(old(a[..]), d)
  {
    var i := 0;
    while i < a.Length
      invariant 0 <= i <= a.Length
      invariant forall k :: 0 <= k < i ==> a[k] == old(a[k]) / d
      invariant forall k :: i <= k < a.Length ==> a[k] == old(a[k])
    {
      a[i] := a[i] / d;
      i := i + 1;
    }
  }

  /** In-place `a *= c`. */
  method ScaleInPlace(a: array<real>, c: real)
    modifies a
    ensures a[..] == Scaled(old(a[..]), c)
  {
    var i := 0;
    while i < a.Length
      invariant 0 <= i <= a.Length
      invariant forall k :: 0 <= k < i ==> a[k] == old(a[k]) * c
      invariant forall k :: i <= k < a.Length ==> a[k] == old(a[k])
    {
      a[i] := a[i] * c;
      i := i + 1;
    }
    assert forall k :: 0 <= k < a.Length ==> a[..][k] == Scaled(old(a[..]), c)[k];
  }
}
