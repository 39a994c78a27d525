/** Iterative Proportional Updating (src/IPU.cpp): household weights are rescaled
    constraint by constraint until the mean relative deviation between the weighted
    column sums of the frequency matrix and the constraints stops improving, and the
    final weights are then rounded with the remainder-carry scheme. */
module Ipu {
  import opened Wrappers
  import opened RealSums
  import opened Rounding

  /** The iteration cap of the sweep loop. */
  const MaxIterations: nat := 2000

  /** A dense matrix: rows are households, columns are constraints. */
  datatype Matrix = Matrix(nRows: nat, nCols: nat, cells: seq<seq<real>>) {
    predicate WellFormed() {
      |cells| == nRows && forall i :: 0 <= i < nRows ==> |cells[i]| == nCols
    }

    function Column(j: nat): (c: seq<real>)
      requires WellFormed() && j < nCols
      ensures |c| == nRows && forall i :: 0 <= i < nRows ==> c[i] == cells[i][j]
    {
      seq(nRows, i requires 0 <= i < nRows => cells[i][j])
    }
  }

  /** Element-wise product of two vectors (Armadillo's %). */
  function Product(a: seq<real>, b: seq<real>): (r: seq<real>)
    requires |a| == |b|
    ensures |r| == |a| && forall i :: 0 <= i < |a| ==> r[i] == a[i] * b[i]
  {
    seq(|a|, i requires 0 <= i < |a| => a[i] * b[i])
  }

  /** sum(inp.col(j) % weights) */
  function WeightedColumnSum(m: Matrix, w: seq<real>, j: nat): real
    requires m.WellFormed() && |w| == m.nRows && j < m.nCols
  {
    Sum(Product(m.Column(j), w))
  }

  predicate PositiveVector(v: seq<real>) { forall i :: 0 <= i < |v| ==> v[i] > 0.0 }

  predicate NonNegativeMatrix(m: Matrix)
    requires m.WellFormed()
  {
    forall i, j :: 0 <= i < m.nRows && 0 <= j < m.nCols ==> m.cells[i][j] >= 0.0
  }

  /** Every constraint has at least one contributing household. */
  predicate EveryColumnCovered(m: Matrix)
    requires m.WellFormed()
  {
    forall j :: 0 <= j < m.nCols ==> ColumnCovered(m, j)
  }

  predicate ColumnCovered(m: Matrix, j: nat)
    requires m.WellFormed() && j < m.nCols
  {
    exists i :: 0 <= i < m.nRows && m.cells[i][j] > 0.0
  }

  /** The conditions under which no weighted column sum is ever zero during the
      sweeps: counts are non-negative, every constraint has a contributor, and
      constraints and weights are positive. */
  predicate SweepReady(m: Matrix, cons: seq<real>, w: seq<real>)
  {
    m.WellFormed() && |cons| == m.nCols && |w| == m.nRows &&
    NonNegativeMatrix(m) && EveryColumnCovered(m) && PositiveVector(cons) && PositiveVector(w)
  }

  lemma WeightedColumnSumPositive(m: Matrix, cons: seq<real>, w: seq<real>, j: nat)
    requires SweepReady(m, cons, w) && j < m.nCols
    ensures WeightedColumnSum(m, w, j) > 0.0
  {
    assert ColumnCovered(m, j);
    var i :| 0 <= i < m.nRows && m.cells[i][j] > 0.0;
    var p := Product(m.Column(j), w);
    assert p[i] > 0.0;
    SumPositive(p, i);
  }

  /** The update for constraint j (IPU.cpp:47-53): every household contributing to j
      is scaled by cons[j] over the current weighted column sum. */
  function Step(m: Matrix, cons: seq<real>, w: seq<real>, j: nat): (r: seq<real>)
    requires m.WellFormed() && |w| == m.nRows && j < m.nCols && j < |cons|
    requires WeightedColumnSum(m, w, j) != 0.0
    ensures |r| == |w|
  {
    var ratio := cons[j] / WeightedColumnSum(m, w, j);
    seq(|w|, i requires 0 <= i < |w| => if m.cells[i][j] != 0.0 then ratio * w[i] else w[i])
  }

  /** Right after the update for constraint j, the weighted column sum of j equals
      its constraint exactly. */
  lemma StepMeetsConstraint(m: Matrix, cons: seq<real>, w: seq<real>, j: nat)
    requires m.WellFormed() && |w| == m.nRows && j < m.nCols && j < |cons|
    requires WeightedColumnSum(m, w, j) != 0.0
    ensures WeightedColumnSum(m, Step(m, cons, w, j), j) == cons[j]
  {
    var s := WeightedColumnSum(m, w, j);
    var ratio := cons[j] / s;
    var w' := Step(m, cons, w, j);
    var p := Product(m.Column(j), w);
    var p' := Product(m.Column(j), w');
    assert p' == Scale(p, ratio) by {
      forall i | 0 <= i < |p|
        ensures p'[i] == Scale(p, ratio)[i]
      {
        if m.cells[i][j] != 0.0 {
          assert p'[i] == m.cells[i][j] * (ratio * w[i]);
        }
      }
    }
    SumScale(p, ratio);
    assert s * (cons[j] / s) == cons[j];
  }

  /** The update keeps weights positive, so the next weighted column sums stay
      positive too. */
  lemma StepKeepsReady(m: Matrix, cons: seq<real>, w: seq<real>, j: nat)
    requires SweepReady(m, cons, w) && j < m.nCols
    ensures WeightedColumnSum(m, w, j) > 0.0
    ensures SweepReady(m, cons, Step(m, cons, w, j))
  {
    WeightedColumnSumPositive(m, cons, w, j);
  }

  /** The first k constraint updates of one sweep. */
  function SweepPrefix(m: Matrix, cons: seq<real>, w: seq<real>, k: nat): (r: seq<real>)
    requires SweepReady(m, cons, w) && k <= m.nCols
    ensures SweepReady(m, cons, r)
  {
    if k == 0 then w
    else
      var prev := SweepPrefix(m, cons, w, k - 1);
      StepKeepsReady(m, cons, prev, k - 1);
      Step(m, cons, prev, k - 1)
  }

  /** One full sweep over all constraints (IPU.cpp:45-54). */
  function Sweep(m: Matrix, cons: seq<real>, w: seq<real>): (r: seq<real>)
    requires SweepReady(m, cons, w)
    ensures SweepReady(m, cons, r)
  {
    SweepPrefix(m, cons, w, m.nCols)
  }

  /** The weights after n sweeps. */
  function Iterate(m: Matrix, cons: seq<real>, w: seq<real>, n: nat): (r: seq<real>)
    requires SweepReady(m, cons, w)
    ensures SweepReady(m, cons, r)
  {
    if n == 0 then w else Sweep(m, cons, Iterate(m, cons, w, n - 1))
  }

  /** After a sweep, the constraint updated last is met exactly. */
  lemma SweepMeetsLastConstraint(m: Matrix, cons: seq<real>, w: seq<real>)
    requires SweepReady(m, cons, w) && m.nCols > 0
    ensures WeightedColumnSum(m, Sweep(m, cons, w), m.nCols - 1) == cons[m.nCols - 1]
  {
    var prev := SweepPrefix(m, cons, w, m.nCols - 1);
    StepKeepsReady(m, cons, prev, m.nCols - 1);
    StepMeetsConstraint(m, cons, prev, m.nCols - 1);
  }

  /** The relative deviation of each constraint, |sum - cons| / cons. */
  function Deviations(m: Matrix, cons: seq<real>, w: seq<real>): (r: seq<real>)
    requires m.WellFormed() && |w| == m.nRows && |cons| == m.nCols && PositiveVector(cons)
    ensures |r| == m.nCols
    ensures forall j :: 0 <= j < m.nCols ==> r[j] >= 0.0
  {
    seq(m.nCols, j requires 0 <= j < m.nCols => Abs(WeightedColumnSum(m, w, j) - cons[j]) / cons[j])
  }

  /** gamma: the mean relative deviation (IPU.cpp:34-37, 56-59). */
  function Gamma(m: Matrix, cons: seq<real>, w: seq<real>): real
    requires m.WellFormed() && |w| == m.nRows && |cons| == m.nCols && PositiveVector(cons)
    requires m.nCols > 0
  {
    Sum(Deviations(m, cons, w)) / m.nCols as real
  }

  /** gamma is never negative, and it is zero exactly when every constraint is met. */
  lemma GammaZeroIffAllMet(m: Matrix, cons: seq<real>, w: seq<real>)
    requires m.WellFormed() && |w| == m.nRows && |cons| == m.nCols && PositiveVector(cons)
    requires m.nCols > 0
    ensures Gamma(m, cons, w) >= 0.0
    ensures Gamma(m, cons, w) == 0.0 <==>
      forall j :: 0 <= j < m.nCols ==> WeightedColumnSum(m, w, j) == cons[j]
  {
    var d := Deviations(m, cons, w);
    SumNonNegative(d);
    SumZeroIffAllZero(d);
    forall j | 0 <= j < m.nCols
      ensures d[j] == 0.0 <==> WeightedColumnSum(m, w, j) == cons[j]
    {
      assert d[j] == Abs(WeightedColumnSum(m, w, j) - cons[j]) / cons[j];
    }
  }

  /** The improvement in gamma made by sweep n (n >= 1). */
  function Delta(m: Matrix, cons: seq<real>, w: seq<real>, n: nat): real
    requires SweepReady(m, cons, w) && m.nCols > 0 && n >= 1
  {
    Abs(Gamma(m, cons, Iterate(m, cons, w, n)) - Gamma(m, cons, Iterate(m, cons, w, n - 1)))
  }

  /** What IPU::solve reports: the sweeps run, whether the loop stopped because the
      improvement fell below epsilon, whether the non-convergence warning was printed,
      and the rounded weights that roundWeights computes. */
  datatype SolveReport = SolveReport(iterations: nat, converged: bool, warned: bool, rounded: seq<int>)

  class IpuSolver {
    const inp: Matrix
    const cons: seq<real>
    const eps: real
    var weights: seq<real>

    constructor (input: Matrix, constraints: seq<real>, w: seq<real>, epsilon: real)
      requires input.WellFormed()
      ensures inp == input && cons == constraints && weights == w && eps == epsilon
    {
      inp := input;
      cons := constraints;
      weights := w;
      eps := epsilon;
    }

    /** IPU::roundWeights: the remainder-carry rounding of the current weights, from a
        zero carry; the weights themselves are left as they are. */
    method RoundWeights() returns (rounded: seq<int>, carry: real)
      ensures rounded == RoundAll(weights, 0.0) && carry == CarryAfter(weights, 0.0)
      ensures |rounded| == |weights|
      ensures forall i :: 0 <= i < |weights| ==> rounded[i] == Floor(weights[i]) || rounded[i] == Ceil(weights[i])
      ensures Sum(weights) - 0.5 < IntSum(rounded) as real <= Sum(weights) + 0.5
    {
      rounded := [];
      carry := 0.0;
      var i := 0;
      while i < |weights|
        invariant 0 <= i <= |weights|
        invariant rounded == RoundAll(weights[..i], 0.0) && carry == CarryAfter(weights[..i], 0.0)
      {
        RoundAllPrefix(weights, i, 0.0);
        var diff := carry + (weights[i] - Floor(weights[i]) as real);
        if diff >= 0.5 {
          carry := diff - 1.0;
          rounded := rounded + [Ceil(weights[i])];
        } else {
          carry := diff;
          rounded := rounded + [Floor(weights[i])];
        }
        i := i + 1;
      }
      assert weights[..|weights|] == weights;
      RoundAllFloorOrCeil(weights, 0.0);
      RoundedTotal(weights);
    }

    /** The update for constraint j, row by row (IPU.cpp:47-53). */
    method UpdateConstraint(j: nat)
      requires inp.WellFormed() && |weights| == inp.nRows && j < inp.nCols && j < |cons|
      requires WeightedColumnSum(inp, weights, j) != 0.0
      modifies this
      ensures weights == Step(inp, cons, old(weights), j)
    {
      var ratio := cons[j] / WeightedColumnSum(inp, weights, j);
      ghost var w0 := weights;
      var i := 0;
      while i < inp.nRows
        invariant 0 <= i <= inp.nRows && |weights| == inp.nRows
        invariant ratio == cons[j] / WeightedColumnSum(inp, w0, j)
        invariant forall k :: 0 <= k < i ==>
          weights[k] == (if inp.cells[k][j] != 0.0 then ratio * w0[k] else w0[k])
        invariant forall k :: i <= k < inp.nRows ==> weights[k] == w0[k]
      {
        if inp.cells[i][j] != 0.0 {
          weights := weights[i := ratio * weights[i]];
        }
        i := i + 1;
      }
      assert forall k :: 0 <= k < |weights| ==> weights[k] == Step(inp, cons, w0, j)[k];
    }

    /** IPU::solve. Mismatched dimensions stop the program before any weight changes
        (IPU.cpp:19-27); with no constraints the mean of an empty deviation vector
        fails. Otherwise the weights are the result of as many sweeps as were run: the
        loop keeps sweeping while each sweep improves gamma by at least eps, and stops
        at the first sweep that does not, or after MaxIterations + 1 sweeps, where the
        non-convergence warning is printed. */
    method Solve() returns (r: Result<SolveReport>)
      requires inp.WellFormed()
      requires |cons| == inp.nCols && |weights| == inp.nRows ==> SweepReady(inp, cons, weights)
      modifies this
      ensures r.Fail? ==> weights == old(weights)
      ensures r.Fail? <==> inp.nCols != |cons| || inp.nRows != |old(weights)| || inp.nCols == 0
      ensures r.Success? ==>
        var n := r.value.iterations;
        var w0 := old(weights);
        SweepReady(inp, cons, w0) && inp.nCols > 0 &&
        1 <= n <= MaxIterations + 1 &&
        weights == Iterate(inp, cons, w0, n) &&
        (forall k :: 1 <= k < n ==> Delta(inp, cons, w0, k) >= eps) &&
        (r.value.converged <==> Delta(inp, cons, w0, n) < eps) &&
        (!r.value.converged ==> n == MaxIterations + 1) &&
        (r.value.warned <==> n > MaxIterations) &&
        r.value.rounded == RoundAll(weights, 0.0)
    {
      if inp.nCols != |cons| {
        return Fail(DimensionMismatch);
      }
      if inp.nRows != |weights| {
        return Fail(DimensionMismatch);
      }
      if inp.nCols == 0 {
        return Fail(InvalidData("mean of an empty vector"));
      }
      var iterations, converged, warned := RunSweeps();
      var rounded, _ := RoundWeights();
      return Success(SolveReport(iterations, converged, warned, rounded));
    }

    /** The sweep loop of IPU::solve (IPU.cpp:34-81). */
    method RunSweeps() returns (iterations: nat, converged: bool, warned: bool)
      requires SweepReady(inp, cons, weights) && inp.nCols > 0
      modifies this
      ensures 1 <= iterations <= MaxIterations + 1
      ensures weights == Iterate(inp, cons, old(weights), iterations)
      ensures forall k :: 1 <= k < iterations ==> Delta(inp, cons, old(weights), k) >= eps
      ensures converged <==> Delta(inp, cons, old(weights), iterations) < eps
      ensures !converged ==> iterations == MaxIterations + 1
      ensures warned <==> iterations > MaxIterations
    {
      ghost var w0 := weights;
      var gamma := Gamma(inp, cons, weights);
      var runIpu := true;
      iterations := 0;
      warned := false;
      while runIpu && iterations <= MaxIterations
        invariant iterations <= MaxIterations + 1
        invariant weights == Iterate(inp, cons, w0, iterations)
        invariant runIpu ==> gamma == Gamma(inp, cons, weights)
        invariant forall k :: 1 <= k < iterations ==> Delta(inp, cons, w0, k) >= eps
        invariant iterations >= 1 ==> (runIpu <==> Delta(inp, cons, w0, iterations) >= eps)
        invariant !runIpu ==> iterations >= 1
        invariant warned <==> iterations > MaxIterations
        decreases MaxIterations + 1 - iterations
      {
        ghost var before := iterations;
        iterations := iterations + 1;
        var gammaNew, delta := SweepAndMeasure(w0, before, gamma);
        if delta < eps {
          runIpu := false;
        } else {
          gamma := gammaNew;
        }
        if iterations > MaxIterations {
          warned := true;
        }
        forall k | 1 <= k < iterations
          ensures Delta(inp, cons, w0, k) >= eps
        {
          if k == before {
            assert Delta(inp, cons, w0, before) >= eps;
          }
        }
      }
      converged := !runIpu;
    }

    /** One pass of the loop body of IPU::solve: a sweep, then the new gamma and its
        change from the old one. */
    method SweepAndMeasure(ghost w0: seq<real>, ghost n: nat, gamma: real) returns (gammaNew: real, delta: real)
      requires SweepReady(inp, cons, w0) && inp.nCols > 0 && weights == Iterate(inp, cons, w0, n)
      requires gamma == Gamma(inp, cons, weights)
      modifies this
      ensures weights == Iterate(inp, cons, w0, n + 1)
      ensures gammaNew == Gamma(inp, cons, weights) && delta == Delta(inp, cons, w0, n + 1)
    {
      Sweep1(w0, n);
      gammaNew := Gamma(inp, cons, weights);
      delta := Abs(gammaNew - gamma);
    }

    /** One sweep in place: the updates for constraints 0, 1, ... in order. */
    method Sweep1(ghost w0: seq<real>, ghost n: nat)
      requires SweepReady(inp, cons, w0) && weights == Iterate(inp, cons, w0, n)
      modifies this
      ensures weights == Iterate(inp, cons, w0, n + 1)
    {
      ghost var start := weights;
      var j := 0;
      while j < inp.nCols
        invariant 0 <= j <= inp.nCols
        invariant weights == SweepPrefix(inp, cons, start, j)
      {
        StepKeepsReady(inp, cons, weights, j);
        UpdateConstraint(j);
        j := j + 1;
      }
    }
  }

  /** The frequency matrix of the worked example in src/Source.cpp. */
  const SampleMatrix: Matrix := Matrix(8, 5, [
    [1.0, 0.0, 1.0, 1.0, 1.0],
    [1.0, 0.0, 1.0, 0.0, 1.0],
    [1.0, 0.0, 2.0, 1.0, 0.0],
    [0.0, 1.0, 1.0, 0.0, 2.0],
    [0.0, 1.0, 0.0, 2.0, 1.0],
    [0.0, 1.0, 1.0, 1.0, 0.0],
    [0.0, 1.0, 2.0, 1.0, 2.0],
    [0.0, 1.0, 1.0, 1.0, 0.0]])

  const SampleConstraints: seq<real> := [35.0, 65.0, 91.0, 65.0, 104.0]

  const SampleWeights: seq<real> := [1.0, 1.0, 1.0, 1.0, 1.0, 1.0, 1.0, 1.0]

  /** The example meets every precondition of the sweeps. */
  lemma SampleIsSweepReady()
    ensures SweepReady(SampleMatrix, SampleConstraints, SampleWeights)
  {
    var m := SampleMatrix;
    assert m.WellFormed();
    assert EveryColumnCovered(m) by {
      assert m.cells[0][0] > 0.0 && m.cells[3][1] > 0.0 && m.cells[0][2] > 0.0;
      assert m.cells[0][3] > 0.0 && m.cells[0][4] > 0.0;
      assert ColumnCovered(m, 0) && ColumnCovered(m, 1) && ColumnCovered(m, 2);
      assert ColumnCovered(m, 3) && ColumnCovered(m, 4);
    }
  }

  /** In the example, constraint 0 has three contributing households of weight 1. */
  lemma SampleFirstColumnSum()
    ensures WeightedColumnSum(SampleMatrix, SampleWeights, 0) == 3.0
  {
    var m := SampleMatrix;
    assert m.WellFormed();
    var c := m.Column(0);
    assert c == [1.0, 1.0, 1.0, 0.0, 0.0, 0.0, 0.0, 0.0];
    var p := Product(c, SampleWeights);
    assert p == [1.0, 1.0, 1.0, 0.0, 0.0, 0.0, 0.0, 0.0];
    assert Sum(p[..0]) == 0.0;
    SumPrefixStep(p, 0); SumPrefixStep(p, 1); SumPrefixStep(p, 2); SumPrefixStep(p, 3);
    SumPrefixStep(p, 4); SumPrefixStep(p, 5); SumPrefixStep(p, 6); SumPrefixStep(p, 7);
    assert p[..8] == p;
  }

  /** The first update of the example scales the three households of constraint 0
      from 1 to 35/3 and leaves the others at 1. */
  lemma SampleFirstUpdate()
    ensures WeightedColumnSum(SampleMatrix, SampleWeights, 0) == 3.0
    ensures Step(SampleMatrix, SampleConstraints, SampleWeights, 0) ==
      [35.0 / 3.0, 35.0 / 3.0, 35.0 / 3.0, 1.0, 1.0, 1.0, 1.0, 1.0]
  {
    SampleFirstColumnSum();
    var r := Step(SampleMatrix, SampleConstraints, SampleWeights, 0);
    assert forall i :: 0 <= i < 8 ==> r[i] == (if SampleMatrix.cells[i][0] != 0.0 then 35.0 / 3.0 else 1.0);
  }
}
