/** The input preparation for two-dimensional IPF shared by IPUWrapper and Metro
    (src/IPUWrapper.cpp:654-720 and src/Metro.cpp:430-494 are the same code): a
    seed matrix of population-weighted sample counts, the marginal vectors sliced
    off the front of the caller's estimate vectors, and equalisation of the two
    marginal totals. */
module IpfPrep {
  import opened RealSums

  /** The value a seed cell takes when no sampled record falls in it. */
  const SeedEpsilon: real := 0.001

  /** One entry of the PUMA-to-county table: the PUMA, the county's name and the
      share of the PUMA's population living in the county. */
  datatype PumaCounty = PumaCounty(pumaCode: int, countyName: string, populationWeight: real)

  /** The population-weighted count of one seed cell over the county's PUMAs. */
  function WeightedCount(counties: seq<PumaCounty>, count: (int, int, int) -> int, row: int, col: int): real
  {
    if |counties| == 0 then 0.0
    else
      var last := counties[|counties| - 1];
      WeightedCount(counties[..|counties| - 1], count, row, col) + last.populationWeight * count(row, col, last.pumaCode) as real
  }

  /** A seed cell: its weighted count, or SeedEpsilon when that is zero. */
  function SeedCell(counties: seq<PumaCounty>, count: (int, int, int) -> int, row: int, col: int): real
  {
    var f := WeightedCount(counties, count, row, col);
    if f == 0.0 then SeedEpsilon else f
  }

  /** The seed cells in row-major order: categories row = 1..rowSize outer,
      col = 1..colSize inner. */
  function SeedCells(rowSize: nat, colSize: nat, counties: seq<PumaCounty>, count: (int, int, int) -> int): (r: seq<real>)
    ensures |r| == rowSize * colSize
  {
    if rowSize == 0 then []
    else SeedCells(rowSize - 1, colSize, counties, count) + SeedRow(rowSize, colSize, counties, count)
  }

  /** The cells of category row, for col = 1..colSize. */
  function SeedRow(row: nat, colSize: nat, counties: seq<PumaCounty>, count: (int, int, int) -> int): (r: seq<real>)
    ensures |r| == colSize
    ensures forall c :: 0 <= c < colSize ==> r[c] == SeedCell(counties, count, row, c + 1)
  {
    seq(colSize, c requires 0 <= c < colSize => SeedCell(counties, count, row, c + 1))
  }

  /** Cell (row, col) of the seed, for 1-based categories, is at index
      (row - 1) * colSize + (col - 1). */
  lemma {:induction false} SeedCellsLayout(rowSize: nat, colSize: nat, counties: seq<PumaCounty>, count: (int, int, int) -> int, row: nat, col: nat)
    requires 1 <= row <= rowSize && 1 <= col <= colSize
    ensures (row - 1) * colSize + (col - 1) < rowSize * colSize
    ensures SeedCells(rowSize, colSize, counties, count)[(row - 1) * colSize + (col - 1)] == SeedCell(counties, count, row, col)
    decreases rowSize
  {
    var prefix := SeedCells(rowSize - 1, colSize, counties, count);
    if row < rowSize {
      SeedCellsLayout(rowSize - 1, colSize, counties, count, row, col);
      assert (row - 1) * colSize + (col - 1) < (rowSize - 1) * colSize by {
        assert (row - 1) * colSize + colSize <= (rowSize - 1) * colSize;
      }
    } else {
      assert |prefix| == (row - 1) * colSize;
    }
  }

  /** With non-negative population weights and counts, every seed cell is positive:
      empty cells are protected by SeedEpsilon. */
  lemma {:induction false} SeedCellPositive(counties: seq<PumaCounty>, count: (int, int, int) -> int, row: int, col: int)
    requires forall k :: 0 <= k < |counties| ==> counties[k].populationWeight >= 0.0
    requires forall k :: 0 <= k < |counties| ==> count(row, col, counties[k].pumaCode) >= 0
    ensures WeightedCount(counties, count, row, col) >= 0.0
    ensures SeedCell(counties, count, row, col) > 0.0
    decreases |counties|
  {
    if |counties| > 0 {
      var last := counties[|counties| - 1];
      SeedCellPositive(counties[..|counties| - 1], count, row, col);
      assert last.populationWeight * count(row, col, last.pumaCode) as real >= 0.0;
    }
  }

  /** The scaled copy of a marginal whose total must become target: every entry
      times target over the old total. */
  function Rescaled(mar: seq<real>, target: real): (r: seq<real>)
    requires Sum(mar) != 0.0
    ensures |r| == |mar|
    ensures forall i :: 0 <= i < |mar| ==> r[i] == mar[i] * target / Sum(mar)
  {
    seq(|mar|, i requires 0 <= i < |mar| => mar[i] * target / Sum(mar))
  }

  lemma MulDiv(x: real, a: real, b: real)
    requires b != 0.0
    ensures x * a / b == x * (a / b)
  {
  }

  /** After rescaling, a marginal's total is the target. */
  lemma RescaledTotal(mar: seq<real>, target: real)
    requires Sum(mar) != 0.0
    ensures Sum(Rescaled(mar, target)) == target
  {
    var s := Sum(mar);
    var scaled := Scale(mar, target / s);
    forall i | 0 <= i < |mar| ensures Rescaled(mar, target)[i] == scaled[i] {
      MulDiv(mar[i], target, s);
    }
    assert Rescaled(mar, target) == scaled;
    SumScale(mar, target / s);
    assert s * (target / s) == target;
  }

  /** The pair of marginals adjustMarginals leaves: unchanged when their totals are
      equal, otherwise the one with the smaller total scaled up (or down) to the
      larger total. */
  function Adjusted(mar1: seq<real>, mar2: seq<real>): (seq<real>, seq<real>)
    requires Sum(mar1) != Sum(mar2) ==> (if Sum(mar1) > Sum(mar2) then Sum(mar2) != 0.0 else Sum(mar1) != 0.0)
  {
    var pop1, pop2 := Sum(mar1), Sum(mar2);
    if pop1 == pop2 then (mar1, mar2)
    else if pop1 > pop2 then (mar1, Rescaled(mar2, pop1))
    else (Rescaled(mar1, pop2), mar2)
  }

  /** adjustMarginals' promise: both marginals end with the same total, the larger of
      the two original totals, and the one holding it is untouched. */
  lemma AdjustedTotals(mar1: seq<real>, mar2: seq<real>)
    requires Sum(mar1) != Sum(mar2) ==> (if Sum(mar1) > Sum(mar2) then Sum(mar2) != 0.0 else Sum(mar1) != 0.0)
    ensures var (a, b) := Adjusted(mar1, mar2);
      Sum(a) == Sum(b) &&
      Sum(a) == (if Sum(mar1) >= Sum(mar2) then Sum(mar1) else Sum(mar2)) &&
      (Sum(mar1) >= Sum(mar2) ==> a == mar1) &&
      (Sum(mar2) >= Sum(mar1) ==> b == mar2) &&
      |a| == |mar1| && |b| == |mar2|
  {
    if Sum(mar1) > Sum(mar2) {
      RescaledTotal(mar2, Sum(mar1));
    } else if Sum(mar1) < Sum(mar2) {
      RescaledTotal(mar1, Sum(mar2));
    }
  }

  /** The IPF inputs under construction: seed cells and marginal vectors, plus the
      dimension vector handed to the IPF solver. */
  class IpfStaging {
    var seed: seq<real>
    var marginals: seq<seq<real>>
    var mSize: seq<nat>

    constructor ()
      ensures seed == [] && marginals == [] && mSize == []
    {
      seed := [];
      marginals := [];
      mSize := [];
    }

    /** createSeedMatrix: appends the rowSize * colSize seed cells in row-major order. */
    method CreateSeedMatrix(rowSize: nat, colSize: nat, counties: seq<PumaCounty>, count: (int, int, int) -> int)
      modifies this
      ensures seed == old(seed) + SeedCells(rowSize, colSize, counties, count)
      ensures marginals == old(marginals) && mSize == old(mSize)
    {
      var row := 1;
      while row <= rowSize
        invariant 1 <= row <= rowSize + 1
        invariant seed == old(seed) + SeedCells(row - 1, colSize, counties, count)
        invariant marginals == old(marginals) && mSize == old(mSize)
      {
        AppendSeedRow(row, colSize, counties, count);
        row := row + 1;
      }
    }

    /** The cells of one seed row, for col = 1..colSize. */
    method AppendSeedRow(row: nat, colSize: nat, counties: seq<PumaCounty>, count: (int, int, int) -> int)
      modifies this
      ensures seed == old(seed) + SeedRow(row, colSize, counties, count)
      ensures marginals == old(marginals) && mSize == old(mSize)
    {
      var col := 1;
      while col <= colSize
        invariant 1 <= col <= colSize + 1
        invariant seed == old(seed) + SeedRow(row, col - 1, counties, count)
        invariant marginals == old(marginals) && mSize == old(mSize)
      {
        var frequency := Frequency(counties, count, row, col);
        if frequency == 0.0 {
          seed := seed + [SeedEpsilon];
        } else {
          seed := seed + [frequency];
        }
        assert SeedRow(row, col, counties, count) == SeedRow(row, col - 1, counties, count) + [SeedCell(counties, count, row, col)];
        col := col + 1;
      }
    }

    /** setMarginals: the first size entries of mar become a new marginal and are
        erased from mar; what is left of mar is returned. */
    method SetMarginals(mar: seq<real>, size: nat) returns (rest: seq<real>)
      requires size <= |mar|
      modifies this
      ensures marginals == old(marginals) + [mar[..size]]
      ensures rest == mar[size..] && mar == marginals[|marginals| - 1] + rest
      ensures seed == old(seed) && mSize == old(mSize)
    {
      var temp: seq<real> := [];
      var count := 0;
      while count < size
        invariant 0 <= count <= size && temp == mar[..count]
      {
        temp := temp + [mar[count]];
        count := count + 1;
      }
      marginals := marginals + [temp];
      rest := mar[count..];
    }

    /** adjustMarginals on the first two marginals. */
    method AdjustMarginals()
      requires |marginals| >= 2
      requires var pop1, pop2 := Sum(marginals[0]), Sum(marginals[1]);
        pop1 != pop2 ==> (if pop1 > pop2 then pop2 != 0.0 else pop1 != 0.0)
      modifies this
      ensures |marginals| == |old(marginals)| && marginals[2..] == old(marginals)[2..]
      ensures (marginals[0], marginals[1]) == Adjusted(old(marginals)[0], old(marginals)[1])
      ensures seed == old(seed) && mSize == old(mSize)
    {
      var mar1, mar2 := marginals[0], marginals[1];
      var pop1, pop2 := Sum(mar1), Sum(mar2);
      if pop1 == pop2 {
        return;
      }
      if pop1 > pop2 {
        mar2 := ScaleTo(mar2, pop1, pop2);
      } else {
        mar1 := ScaleTo(mar1, pop2, pop1);
      }
      marginals := [mar1, mar2] + marginals[2..];
    }

    /** Sets the dimension vector to the lengths of the first two marginals. */
    method RecordSizes()
      requires |marginals| >= 2
      modifies this
      ensures seed == old(seed) && marginals == old(marginals)
      ensures mSize == old(mSize) + [|marginals[0]|, |marginals[1]|]
    {
      mSize := mSize + [|marginals[0]|, |marginals[1]|];
    }

    /** clear(): empties the seed, the marginals and the dimension vector. */
    method Clear()
      modifies this
      ensures seed == [] && marginals == [] && mSize == []
    {
      seed := [];
      marginals := [];
      mSize := [];
    }

    /** The preparation half of getIPFestimates: the seed, the two marginals sliced
        off rowMar and colMar, equalised, and their sizes. The IPF solve itself is
        not modelled. */
    method PrepareIpf(rowSize: nat, colSize: nat, counties: seq<PumaCounty>, count: (int, int, int) -> int,
                      rowMar: seq<real>, colMar: seq<real>) returns (rowRest: seq<real>, colRest: seq<real>)
      requires marginals == [] && rowSize <= |rowMar| && colSize <= |colMar|
      requires var pop1, pop2 := Sum(rowMar[..rowSize]), Sum(colMar[..colSize]);
        pop1 != pop2 ==> (if pop1 > pop2 then pop2 != 0.0 else pop1 != 0.0)
      modifies this
      ensures seed == old(seed) + SeedCells(rowSize, colSize, counties, count)
      ensures |marginals| == 2
      ensures (marginals[0], marginals[1]) == Adjusted(rowMar[..rowSize], colMar[..colSize])
      ensures Sum(marginals[0]) == Sum(marginals[1])
      ensures mSize == old(mSize) + [rowSize, colSize]
      ensures rowRest == rowMar[rowSize..] && colRest == colMar[colSize..]
    {
      CreateSeedMatrix(rowSize, colSize, counties, count);
      rowRest := SetMarginals(rowMar, rowSize);
      colRest := SetMarginals(colMar, colSize);
      AdjustMarginals();
      AdjustedTotals(rowMar[..rowSize], colMar[..colSize]);
      RecordSizes();
    }
  }

  /** The scaling loop of adjustMarginals: each entry times target over total. */
  method ScaleTo(mar: seq<real>, target: real, total: real) returns (r: seq<real>)
    requires total == Sum(mar) && total != 0.0
    ensures r == Rescaled(mar, target)
  {
    r := mar;
    var i := 0;
    while i < |r|
      invariant 0 <= i <= |r| && |r| == |mar|
      invariant forall k :: 0 <= k < i ==> r[k] == mar[k] * target / total
      invariant forall k :: i <= k < |r| ==> r[k] == mar[k]
    {
      r := r[i := r[i] * target / total];
      i := i + 1;
    }
  }

  /** The accumulation loop of one seed cell. */
  method Frequency(counties: seq<PumaCounty>, count: (int, int, int) -> int, row: int, col: int) returns (frequency: real)
    ensures frequency == WeightedCount(counties, count, row, col)
  {
    frequency := 0.0;
    var k := 0;
    while k < |counties|
      invariant 0 <= k <= |counties|
      invariant frequency == WeightedCount(counties[..k], count, row, col)
    {
      assert counties[..k + 1][..k] == counties[..k];
      frequency := frequency + counties[k].populationWeight * count(row, col, counties[k].pumaCode) as real;
      k := k + 1;
    }
    assert counties[..k] == counties;
  }
}
