/** Remainder-carry ("cascading") rounding, the scheme shared by IPU::roundWeights
    and CardioModel::rounding: each value is rounded down or up depending on the
    carried fractional remainder of the values before it, so that the rounded total
    tracks the real total. */
module Rounding {
  import opened RealSums

  /** One step: the value's fractional part is added to the carry; at 0.5 or more the
      value is rounded up and the carry drops by one, otherwise it is rounded down. */
  function RoundStep(w: real, carry: real): (r: (int, real))
  {
    var diff := carry + (w - Floor(w) as real);
    if diff >= 0.5 then (Ceil(w), diff - 1.0) else (Floor(w), diff)
  }

  /** The carry left after rounding all of ws, starting from carry c. */
  function CarryAfter(ws: seq<real>, c: real): real
  {
    if |ws| == 0 then c else RoundStep(ws[|ws| - 1], CarryAfter(ws[..|ws| - 1], c)).1
  }

  /** The rounded values of ws, left to right, starting from carry c. */
  function RoundAll(ws: seq<real>, c: real): (r: seq<int>)
    ensures |r| == |ws|
  {
    if |ws| == 0 then []
    else RoundAll(ws[..|ws| - 1], c) + [RoundStep(ws[|ws| - 1], CarryAfter(ws[..|ws| - 1], c)).0]
  }

  function IntSum(s: seq<int>): int
  {
    if |s| == 0 then 0 else IntSum(s[..|s| - 1]) + s[|s| - 1]
  }

  predicate CarryInRange(c: real) { -0.5 <= c < 0.5 }

  /** Unfolding RoundAll and CarryAfter one element further. */
  lemma RoundAllPrefix(ws: seq<real>, i: nat, c: real)
    requires i < |ws|
    ensures RoundAll(ws[..i + 1], c) == RoundAll(ws[..i], c) + [RoundStep(ws[i], CarryAfter(ws[..i], c)).0]
    ensures CarryAfter(ws[..i + 1], c) == RoundStep(ws[i], CarryAfter(ws[..i], c)).1
  {
    assert ws[..i + 1][..i] == ws[..i];
  }

  /** A step keeps the carry in [-0.5, 0.5), and the rounded value plus the new carry
      equals the real value plus the old carry. */
  lemma RoundStepBalance(w: real, c: real)
    requires CarryInRange(c)
    ensures CarryInRange(RoundStep(w, c).1)
    ensures RoundStep(w, c).0 as real + RoundStep(w, c).1 == w + c
    ensures RoundStep(w, c).0 == Floor(w) || RoundStep(w, c).0 == Ceil(w)
  {
    var diff := c + (w - Floor(w) as real);
    if diff >= 0.5 {
      assert w != Floor(w) as real;
      CeilOfNonInteger(w);
    }
  }

  /** Every rounded value is the floor or the ceiling of its real value, whatever the
      starting carry. */
  lemma {:induction false} RoundAllFloorOrCeil(ws: seq<real>, c: real)
    ensures forall i :: 0 <= i < |ws| ==>
      RoundAll(ws, c)[i] == Floor(ws[i]) || RoundAll(ws, c)[i] == Ceil(ws[i])
    decreases |ws|
  {
    if |ws| > 0 {
      var n := |ws| - 1;
      RoundAllFloorOrCeil(ws[..n], c);
      var d := CarryAfter(ws[..n], c) + (ws[n] - Floor(ws[n]) as real);
      assert RoundAll(ws, c)[n] == Floor(ws[n]) || RoundAll(ws, c)[n] == Ceil(ws[n]);
      assert forall i :: 0 <= i < n ==> RoundAll(ws, c)[i] == RoundAll(ws[..n], c)[i];
    }
  }

  /** Conservation: from a carry in [-0.5, 0.5), the rounded total plus the final carry
      equals the real total plus the initial carry, and the carry stays in range. */
  lemma {:induction false} RoundAllConserves(ws: seq<real>, c: real)
    requires CarryInRange(c)
    ensures CarryInRange(CarryAfter(ws, c))
    ensures IntSum(RoundAll(ws, c)) as real + CarryAfter(ws, c) == Sum(ws) + c
    decreases |ws|
  {
    if |ws| > 0 {
      var n := |ws| - 1;
      RoundAllConserves(ws[..n], c);
      RoundStepBalance(ws[n], CarryAfter(ws[..n], c));
      assert RoundAll(ws, c)[..n] == RoundAll(ws[..n], c);
    }
  }

  /** Starting from a zero carry, the rounded total is the real total rounded to the
      nearest integer (halves rounding down), and equals it exactly when the real total
      is a whole number. */
  lemma RoundedTotal(ws: seq<real>)
    ensures Sum(ws) - 0.5 < IntSum(RoundAll(ws, 0.0)) as real <= Sum(ws) + 0.5
    ensures Sum(ws) == Floor(Sum(ws)) as real ==> IntSum(RoundAll(ws, 0.0)) as real == Sum(ws)
  {
    RoundAllConserves(ws, 0.0);
    var t := IntSum(RoundAll(ws, 0.0));
    if Sum(ws) == Floor(Sum(ws)) as real {
      var d := t - Floor(Sum(ws));
      assert -0.5 < d as real <= 0.5;
      assert d == 0;
    }
  }

  /** Rounding a concatenation in one pass is rounding the first part and then the
      second part from the carry the first part left: this is what passing the carry
      by reference from one run to the next achieves. */
  lemma {:induction false} RoundAllAppend(a: seq<real>, b: seq<real>, c: real)
    ensures RoundAll(a + b, c) == RoundAll(a, c) + RoundAll(b, CarryAfter(a, c))
    ensures CarryAfter(a + b, c) == CarryAfter(b, CarryAfter(a, c))
    decreases |b|
  {
    if |b| == 0 {
      assert a + b == a;
    } else {
      var n := |b| - 1;
      assert (a + b)[..|a + b| - 1] == a + b[..n];
      RoundAllAppend(a, b[..n], c);
    }
  }
}
