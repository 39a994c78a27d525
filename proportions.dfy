/** The cumulative probability tables Metro::convertToProportions builds from the
    fitted IPF rows (src/Metro.cpp:412-422), and that Agent::getValue then searches:
    each row divided by its total, then replaced by its running sums. */
module Proportions {
  import opened Wrappers
  import opened RealSums

  /** Each entry over the row total; all zeros when the total is zero. */
  function Shares(row: seq<real>): (r: seq<real>)
    ensures |r| == |row|
    ensures forall i :: 0 <= i < |row| ==> r[i] == (if Sum(row) != 0.0 then row[i] / Sum(row) else 0.0)
  {
    seq(|row|, i requires 0 <= i < |row| => if Sum(row) != 0.0 then row[i] / Sum(row) else 0.0)
  }

  /** std::partial_sum: entry i is the sum of the first i + 1 entries. */
  function PrefixSums(s: seq<real>): (r: seq<real>)
    ensures |r| == |s|
  {
    seq(|s|, i requires 0 <= i < |s| => Sum(s[..i + 1]))
  }

  /** The cumulative table of one row. */
  function Cumulative(row: seq<real>): (r: seq<real>)
    ensures |r| == |row|
  {
    PrefixSums(Shares(row))
  }

  /** Running sums of non-negative terms never decrease. */
  lemma PrefixSumsMonotone(s: seq<real>, i: nat, j: nat)
    requires forall k :: 0 <= k < |s| ==> s[k] >= 0.0
    requires i <= j < |s|
    ensures PrefixSums(s)[i] <= PrefixSums(s)[j]
  {
    var a, b := s[..i + 1], s[i + 1..j + 1];
    assert s[..j + 1] == a + b;
    SumAppend(a, b);
    assert forall k :: 0 <= k < |b| ==> b[k] == s[i + 1 + k];
    SumNonNegative(b);
  }

  /** With a non-zero total the shares add up to one. */
  lemma SharesSumToOne(row: seq<real>)
    requires Sum(row) != 0.0
    ensures Sum(Shares(row)) == 1.0
  {
    var t := Sum(row);
    forall i | 0 <= i < |row| ensures Shares(row)[i] == Scale(row, 1.0 / t)[i] {
      assert row[i] / t == row[i] * (1.0 / t);
    }
    assert Shares(row) == Scale(row, 1.0 / t);
    SumScale(row, 1.0 / t);
  }

  /** A row with a non-zero total ends its cumulative table at exactly one. */
  lemma CumulativeEndsAtOne(row: seq<real>)
    requires |row| > 0 && Sum(row) != 0.0
    ensures Cumulative(row)[|row| - 1] == 1.0
  {
    var s := Shares(row);
    assert s[..|row|] == s;
    SharesSumToOne(row);
  }

  /** The shares of a row of non-negative estimates are non-negative. */
  lemma SharesNonNegative(row: seq<real>)
    requires forall k :: 0 <= k < |row| ==> row[k] >= 0.0
    ensures forall k :: 0 <= k < |row| ==> Shares(row)[k] >= 0.0
  {
    SumNonNegative(row);
  }

  /** A row of non-negative estimates gives a non-decreasing table within [0, 1]. */
  lemma CumulativeNonDecreasing(row: seq<real>, i: nat, j: nat)
    requires forall k :: 0 <= k < |row| ==> row[k] >= 0.0
    requires i <= j < |row|
    ensures 0.0 <= Cumulative(row)[i] <= Cumulative(row)[j]
    ensures Sum(row) != 0.0 ==> Cumulative(row)[j] <= 1.0
  {
    var s := Shares(row);
    SharesNonNegative(row);
    PrefixSumsMonotone(s, 0, i);
    PrefixSumsMonotone(s, i, j);
    FirstPrefixSum(s);
    if Sum(row) != 0.0 {
      PrefixSumsMonotone(s, j, |row| - 1);
      CumulativeEndsAtOne(row);
    }
  }

  lemma FirstPrefixSum(s: seq<real>)
    requires |s| > 0
    ensures PrefixSums(s)[0] == s[0]
  {
    SumPrefixStep(s, 0);
    assert s[..0] == [];
  }

  /** A row whose total is zero gives a table of zeros. */
  lemma {:induction false} CumulativeOfZeroTotal(row: seq<real>)
    requires Sum(row) == 0.0
    ensures forall i :: 0 <= i < |row| ==> Cumulative(row)[i] == 0.0
  {
    var s := Shares(row);
    forall i | 0 <= i < |row| ensures Cumulative(row)[i] == 0.0 {
      ZeroSum(s[..i + 1]);
    }
  }

  lemma {:induction false} ZeroSum(s: seq<real>)
    requires forall k :: 0 <= k < |s| ==> s[k] == 0.0
    ensures Sum(s) == 0.0
    decreases |s|
  {
    if |s| > 0 {
      ZeroSum(s[..|s| - 1]);
    }
  }

  /** One row of convertToProportions: divided in place by its total, then
      std::partial_sum in place. */
  method ConvertRow(row: seq<real>) returns (r: seq<real>)
    ensures r == Cumulative(row)
  {
    var sum := Sum(row);
    ghost var shares := Shares(row);
    r := row;
    var i := 0;
    while i < |r|
      invariant 0 <= i <= |r| && |r| == |row|
      invariant forall k :: 0 <= k < i ==> r[k] == shares[k]
      invariant forall k :: i <= k < |r| ==> r[k] == row[k]
    {
      r := r[i := if sum != 0.0 then r[i] / sum else 0.0];
      i := i + 1;
    }
    assert r == shares;
    ghost var sums := PrefixSums(shares);
    if |r| > 0 {
      assert shares[..1] == [shares[0]];
      assert sums[0] == Sum(shares[..1]) == shares[0];
    }
    var j := 1;
    while j < |r|
      invariant 1 <= j <= |r| || |r| == 0
      invariant |r| == |row|
      invariant forall k :: 0 <= k < j && k < |r| ==> r[k] == sums[k]
      invariant forall k :: j <= k < |r| ==> r[k] == shares[k]
    {
      SumPrefixStep(shares, j);
      r := r[j := r[j - 1] + r[j]];
      j := j + 1;
    }
  }

  /** convertToProportions: every row of the map replaced by its cumulative table.
      The rows are independent, so the key order the source visits them in does
      not matter. */
  method ConvertToProportions(m: map<int, seq<real>>) returns (r: map<int, seq<real>>)
    ensures r.Keys == m.Keys
    ensures forall k :: k in m ==> r[k] == Cumulative(m[k])
  {
    r := m;
    var todo := m.Keys;
    while |todo| > 0
      invariant todo <= m.Keys && r.Keys == m.Keys
      invariant forall k :: k in m && k !in todo ==> r[k] == Cumulative(m[k])
      invariant forall k :: k in todo ==> r[k] == m[k]
      decreases |todo|
    {
      ghost var w := SomeElement(todo);
      var k :| k in todo;
      var row := ConvertRow(r[k]);
      r := r[k := row];
      todo := todo - {k};
    }
  }
}
