/** Sums and scalings of real-valued vectors: the arithmetic the IPU, the IPF
    input preparation and the household-size rescaling are built from. */
module RealSums {

  /** Sum of a vector, accumulated from the left as the C++ loops and
      std::accumulate do. */
  function Sum(s: seq<real>): real
  {
    if |s| == 0 then 0.0 else Sum(s[..|s| - 1]) + s[|s| - 1]
  }

  lemma {:induction false} SumAppend(a: seq<real>, b: seq<real>)
    ensures Sum(a + b) == Sum(a) + Sum(b)
    decreases |b|
  {
    if |b| == 0 {
      assert a + b == a;
    } else {
      assert (a + b)[..|a + b| - 1] == a + b[..|b| - 1];
      SumAppend(a, b[..|b| - 1]);
    }
  }

  /** Sum of the prefix of length i extended by one element. */
  lemma SumPrefixStep(s: seq<real>, i: nat)
    requires i < |s|
    ensures Sum(s[..i + 1]) == Sum(s[..i]) + s[i]
  {
    assert s[..i + 1][..i] == s[..i];
  }

  function Scale(s: seq<real>, c: real): (r: seq<real>)
    ensures |r| == |s|
    ensures forall i :: 0 <= i < |s| ==> r[i] == s[i] * c
  {
    seq(|s|, i requires 0 <= i < |s| => s[i] * c)
  }

  lemma ScalePrefix(s: seq<real>, c: real, n: nat)
    requires n <= |s|
    ensures Scale(s, c)[..n] == Scale(s[..n], c)
  {
    assert forall i :: 0 <= i < n ==> Scale(s, c)[..n][i] == Scale(s[..n], c)[i];
  }

  lemma {:induction false} SumScale(s: seq<real>, c: real)
    ensures Sum(Scale(s, c)) == Sum(s) * c
    decreases |s|
  {
    if |s| > 0 {
      var n := |s| - 1;
      ScalePrefix(s, c, n);
      SumScale(s[..n], c);
      var a, b := Sum(s[..n]), s[n];
      assert Sum(Scale(s, c)) == a * c + b * c;
      assert (a + b) * c == a * c + b * c;
    }
  }

  lemma {:induction false} SumNonNegative(s: seq<real>)
    requires forall i :: 0 <= i < |s| ==> s[i] >= 0.0
    ensures Sum(s) >= 0.0
    decreases |s|
  {
    if |s| > 0 {
      SumNonNegative(s[..|s| - 1]);
    }
  }

  /** A sum of non-negative terms is positive as soon as one term is. */
  lemma {:induction false} SumPositive(s: seq<real>, k: nat)
    requires forall i :: 0 <= i < |s| ==> s[i] >= 0.0
    requires k < |s| && s[k] > 0.0
    ensures Sum(s) > 0.0
    decreases |s|
  {
    if k == |s| - 1 {
      SumNonNegative(s[..|s| - 1]);
    } else {
      SumPositive(s[..|s| - 1], k);
    }
  }

  /** Absolute value of a real. */
  function Abs(x: real): (r: real)
    ensures r >= 0.0 && (r == x || r == -x)
  {
    if x < 0.0 then -x else x
  }

  /** The C library floor and ceil on reals. */
  function Floor(x: real): (r: int)
    ensures r as real <= x < r as real + 1.0
  {
    x.Floor
  }

  function Ceil(x: real): (r: int)
    ensures r as real - 1.0 < x <= r as real
  {
    -((-x).Floor)
  }

  /** The C++ conversion of a double to an integer, which truncates toward zero. */
  function Trunc(x: real): (r: int)
    ensures 0.0 <= x ==> r as real <= x < r as real + 1.0
    ensures x < 0.0 ==> r as real - 1.0 < x <= r as real
  {
    if x >= 0.0 then x.Floor else -((-x).Floor)
  }

  lemma CeilOfNonInteger(x: real)
    requires x != Floor(x) as real
    ensures Ceil(x) == Floor(x) + 1
  {
  }

  /** A sum of non-negative terms is zero exactly when every term is. */
  lemma {:induction false} SumZeroIffAllZero(s: seq<real>)
    requires forall i :: 0 <= i < |s| ==> s[i] >= 0.0
    ensures Sum(s) == 0.0 <==> forall i :: 0 <= i < |s| ==> s[i] == 0.0
    decreases |s|
  {
    if |s| > 0 {
      var n := |s| - 1;
      SumZeroIffAllZero(s[..n]);
      SumNonNegative(s[..n]);
      assert forall i :: 0 <= i < n ==> s[..n][i] == s[i];
    }
  }

  /** The elementwise combination a + d * b of two vectors of equal length. */
  function Combine(a: seq<real>, b: seq<real>, d: real): (r: seq<real>)
    requires |a| == |b|
    ensures |r| == |a|
    ensures forall i :: 0 <= i < |a| ==> r[i] == a[i] + d * b[i]
  {
    seq(|a|, i requires 0 <= i < |a| => a[i] + d * b[i])
  }

  lemma CombinePrefix(a: seq<real>, b: seq<real>, d: real, n: nat)
    requires |a| == |b| && n <= |a|
    ensures Combine(a, b, d)[..n] == Combine(a[..n], b[..n], d)
  {
    assert forall i :: 0 <= i < n ==> Combine(a, b, d)[..n][i] == Combine(a[..n], b[..n], d)[i];
  }

  lemma Distribute(x: real, y: real, an: real, bn: real, d: real)
    ensures x + d * y + (an + d * bn) == (x + an) + d * (y + bn)
  {
    assert d * (y + bn) == d * y + d * bn;
  }

  lemma {:induction false} SumCombine(a: seq<real>, b: seq<real>, d: real)
    requires |a| == |b|
    ensures Sum(Combine(a, b, d)) == Sum(a) + d * Sum(b)
    decreases |a|
  {
    if |a| > 0 {
      var n := |a| - 1;
      CombinePrefix(a, b, d, n);
      SumCombine(a[..n], b[..n], d);
      Distribute(Sum(a[..n]), Sum(b[..n]), a[n], b[n], d);
    }
  }
}
