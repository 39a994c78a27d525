/** One metropolitan area of src/Metro.cpp: its county table, the ACS estimate rows
    stored for it, and the preparation of the two-dimensional IPF runs that turn the
    estimates into the probability tables agents draw education and marital status
    from. The IPF solver is a function parameter. */
module Metro {
  import opened Wrappers
  import opened Text
  import opened Acs
  import opened RealSums
  import opened IpfPrep
  import opened PersonPums
  import opened CountPredicates
  import Proportions

  type Columns = seq<string>

  // ---------------------------------------------------------------------------
  // The county table and the estimate tables

  /** std::multimap<int, County>::insert keyed by PUMA code: the new entry goes after
      every entry whose key is not greater, so the table stays ordered by PUMA and
      entries with equal keys keep their insertion order. */
  function InsertByPuma(xs: seq<PumaCounty>, c: PumaCounty): (r: seq<PumaCounty>)
    ensures multiset(r) == multiset(xs) + multiset{c}
    ensures |r| == |xs| + 1
    decreases |xs|
  {
    if |xs| == 0 || xs[|xs| - 1].pumaCode <= c.pumaCode then xs + [c]
    else
      var last := xs[|xs| - 1];
      assert xs == xs[..|xs| - 1] + [last];
      InsertByPuma(xs[..|xs| - 1], c) + [last]
  }

  predicate SortedByPuma(xs: seq<PumaCounty>)
  {
    forall i, j :: 0 <= i < j < |xs| ==> xs[i].pumaCode <= xs[j].pumaCode
  }

  /** Inserting keeps the table ordered, and puts the entry after every entry of an
      equal or smaller key. */
  lemma {:induction false} InsertByPumaSorted(xs: seq<PumaCounty>, c: PumaCounty)
    requires SortedByPuma(xs)
    ensures SortedByPuma(InsertByPuma(xs, c))
    ensures forall k :: 0 <= k < |xs| && xs[k].pumaCode <= c.pumaCode ==> InsertByPuma(xs, c)[k] == xs[k]
    decreases |xs|
  {
    if |xs| > 0 && xs[|xs| - 1].pumaCode > c.pumaCode {
      var init := xs[..|xs| - 1];
      InsertByPumaSorted(init, c);
      var r := InsertByPuma(init, c);
      assert r + [xs[|xs| - 1]] == InsertByPuma(xs, c);
      forall i | 0 <= i < |r| ensures r[i].pumaCode <= xs[|xs| - 1].pumaCode {
        InsertByPumaElements(init, c, r[i]);
      }
    }
  }

  lemma InsertByPumaElements(xs: seq<PumaCounty>, c: PumaCounty, x: PumaCounty)
    requires x in InsertByPuma(xs, c)
    ensures x in xs || x == c
  {
    assert x in multiset(InsertByPuma(xs, c));
  }

  /** The rows an std::multimap<std::string, Columns> holds under one key, in
      insertion order: its equal_range. */
  function RowsFor(table: seq<(string, Columns)>, key: string): (r: seq<Columns>)
    ensures |r| <= |table|
    ensures forall row :: row in r ==> (key, row) in table
  {
    if |table| == 0 then []
    else
      var init := RowsFor(table[..|table| - 1], key);
      var last := table[|table| - 1];
      assert forall e :: e in table[..|table| - 1] ==> e in table;
      if last.0 == key then init + [last.1] else init
  }

  // ---------------------------------------------------------------------------
  // getRaceEstimatesMap

  /** The estimate columns recorded for an origin with no row: one "0" per age and sex
      column of RaceMarginalVar. */
  const ZeroEstimates: Columns := Zeros(RaceMarginalVarSize - 1)

  function Zeros(n: nat): (r: Columns)
    ensures |r| == n && forall i :: 0 <= i < n ==> r[i] == "0"
  {
    seq(n, i => "0")
  }

  /** Step 1 of getRaceEstimatesMap over the rows not yet read: each row's first
      column names an origin, looked up with .at and then erased from the origin
      table; the other columns are inserted under the origin's code unless the code
      already has an entry. */
  function InsertRaceRows(rows: seq<Columns>, origins: map<string, int>, acc: map<int, Columns>)
    : (r: Result<(map<int, Columns>, map<string, int>)>)
    requires forall i :: 0 <= i < |rows| ==> |rows[i]| > 0
    decreases |rows|
  {
    if |rows| == 0 then Success((acc, origins))
    else
      var origin := rows[0][0];
      if origin !in origins then Fail(MissingKey(origin))
      else
        var code := origins[origin];
        var acc' := if code in acc then acc else acc[code := rows[0][1..]];
        InsertRaceRows(rows[1..], origins - {origin}, acc')
  }

  /** Step 2: every code in codes without an entry gets ZeroEstimates. */
  function FillWithZeros(acc: map<int, Columns>, codes: set<int>): (r: map<int, Columns>)
    ensures r.Keys == acc.Keys + codes
  {
    map c | c in acc.Keys + codes :: if c in acc then acc[c] else ZeroEstimates
  }

  /** A map with FillWithZeros's keys and, at each key, its value, is FillWithZeros. */
  lemma FillWithZerosPointwise(acc: map<int, Columns>, codes: set<int>, r: map<int, Columns>)
    requires r.Keys == acc.Keys + codes
    requires forall c :: c in r ==> r[c] == if c in acc then acc[c] else ZeroEstimates
    ensures r == FillWithZeros(acc, codes)
  {
    var f := FillWithZeros(acc, codes);
    assert r.Keys == f.Keys;
    forall c | c in r ensures r[c] == f[c] {
    }
  }

  /** What getRaceEstimatesMap returns for the metro's race rows and the origin table,
      or the std::out_of_range of an origin name the table does not hold (again). */
  function RaceEstimatesMap(rows: seq<Columns>, origins: map<string, int>): Result<map<int, Columns>>
    requires forall i :: 0 <= i < |rows| ==> |rows[i]| > 0
  {
    match InsertRaceRows(rows, origins, map[])
    case Fail(e) => Fail(e)
    case Success((acc, remaining)) => Success(FillWithZeros(acc, remaining.Values))
  }

  lemma {:induction false} InsertRaceRowsKeys(rows: seq<Columns>, origins: map<string, int>, acc: map<int, Columns>)
    requires forall i :: 0 <= i < |rows| ==> |rows[i]| > 0
    ensures InsertRaceRows(rows, origins, acc).Success? ==>
      var (a, rem) := InsertRaceRows(rows, origins, acc).value;
      a.Keys + rem.Values == acc.Keys + origins.Values && acc.Keys <= a.Keys
    decreases |rows|
  {
    if |rows| > 0 && rows[0][0] in origins {
      var origin := rows[0][0];
      var code := origins[origin];
      var acc' := if code in acc then acc else acc[code := rows[0][1..]];
      var o' := origins - {origin};
      InsertRaceRowsKeys(rows[1..], o', acc');
      ValuesAfterRemove(origins, origin);
    }
  }

  /** Erasing a key removes at most its own value from the values of a map. */
  lemma ValuesAfterRemove(m: map<string, int>, k: string)
    requires k in m
    ensures (m - {k}).Values + {m[k]} == m.Values
  {
    forall v | v in m.Values ensures v in (m - {k}).Values + {m[k]} {
      var x :| x in m && m[x] == v;
      if x != k {
        assert x in m - {k};
      }
    }
  }

  /** The map has one entry per origin code of the origin table. */
  lemma RaceEstimatesKeys(rows: seq<Columns>, origins: map<string, int>)
    requires forall i :: 0 <= i < |rows| ==> |rows[i]| > 0
    ensures RaceEstimatesMap(rows, origins).Success? ==> RaceEstimatesMap(rows, origins).value.Keys == origins.Values
  {
    InsertRaceRowsKeys(rows, origins, map[]);
  }

  /** An entry is inserted only for the code of a row's origin. */
  lemma {:induction false} InsertRaceRowsOnlyRowCodes(rows: seq<Columns>, origins: map<string, int>,
                                                     acc: map<int, Columns>, c: int)
    requires forall i :: 0 <= i < |rows| ==> |rows[i]| > 0
    requires c !in acc
    requires forall i :: 0 <= i < |rows| && rows[i][0] in origins ==> origins[rows[i][0]] != c
    ensures InsertRaceRows(rows, origins, acc).Success? ==> c !in InsertRaceRows(rows, origins, acc).value.0
    decreases |rows|
  {
    if |rows| > 0 && rows[0][0] in origins {
      var origin := rows[0][0];
      var code := origins[origin];
      var acc' := if code in acc then acc else acc[code := rows[0][1..]];
      var o' := origins - {origin};
      forall i | 0 <= i < |rows[1..]| && rows[1..][i][0] in o'
        ensures o'[rows[1..][i][0]] != c
      {
        assert rows[1..][i] == rows[i + 1];
      }
      InsertRaceRowsOnlyRowCodes(rows[1..], o', acc', c);
    }
  }

  /** Origins without an estimate row get all-zero estimates. */
  lemma MissingOriginsAreZero(rows: seq<Columns>, origins: map<string, int>, c: int)
    requires forall i :: 0 <= i < |rows| ==> |rows[i]| > 0
    requires c in origins.Values
    requires forall i :: 0 <= i < |rows| && rows[i][0] in origins ==> origins[rows[i][0]] != c
    ensures RaceEstimatesMap(rows, origins).Success? ==>
      c in RaceEstimatesMap(rows, origins).value && RaceEstimatesMap(rows, origins).value[c] == ZeroEstimates
  {
    InsertRaceRowsOnlyRowCodes(rows, origins, map[], c);
    RaceEstimatesKeys(rows, origins);
  }

  /** A row for an origin that is read twice fails: the first read erased it. */
  lemma RepeatedOriginFails(row1: Columns, row2: Columns, origins: map<string, int>)
    requires |row1| > 0 && |row2| > 0 && row1[0] == row2[0]
    ensures RaceEstimatesMap([row1, row2], origins) == Fail(MissingKey(row1[0]))
  {
    var rows := [row1, row2];
    assert rows[1..] == [row2];
    if row1[0] in origins {
      var acc := map[origins[row1[0]] := row1[1..]];
      assert InsertRaceRows(rows, origins, map[]) == InsertRaceRows([row2], origins - {row1[0]}, acc);
    }
  }

  // ---------------------------------------------------------------------------
  // getRaceEstimateVector, getEducationEstimateVector, getMaritalStatusEstimateVector
  // (each a loop over a prefix that stops at the first failing column)

  /** A value in front of a result that may have failed. */
  function Prepend(p: seq<real>, r: Result<seq<real>>): (q: Result<seq<real>>)
    ensures q.Success? <==> r.Success?
    ensures q.Success? ==> q.value == p + r.value
  {
    match r
    case Fail(e) => Fail(e)
    case Success(rest) => Success(p + rest)
  }

  /** Prepending in two steps is prepending the concatenation. */
  lemma PrependTwice(p: seq<real>, q: seq<real>, r: Result<seq<real>>)
    ensures Prepend(p, Prepend(q, r)) == Prepend(p + q, r)
  {
    if r.Success? {
      assert p + (q + r.value) == (p + q) + r.value;
    }
  }

  /** One step of the loops that build a strided row: the block at i either fails
      the whole row or joins the values already collected. */
  lemma StridedStep(f: int -> Result<seq<real>>, i: int, step: nat, end: int, values: seq<real>,
                    block: Result<seq<real>>, whole: Result<seq<real>>)
    requires step > 0 && i < end && block == f(i) && whole == Prepend(values, Strided(f, i, step, end))
    ensures block.Fail? ==> whole == Fail(block.error)
    ensures block.Success? ==> whole == Prepend(values + block.value, Strided(f, i + step, step, end))
  {
    if block.Success? {
      PrependTwice(values, block.value, Strided(f, i + step, step, end));
    }
  }

  lemma PrependNothing(r: Result<seq<real>>)
    ensures Prepend([], r) == r
  {
    if r.Success? {
      assert [] + r.value == r.value;
    }
  }

  lemma PrependToEmpty(p: seq<real>)
    ensures Prepend(p, Success([])) == Success(p)
  {
    assert p + [] == p;
  }

  /** The values an std::unordered_multimap<int, int> holds under a key. */
  function ValuesUnder(mm: seq<(int, int)>, key: int): (r: seq<int>)
    ensures |r| <= |mm|
    ensures forall v :: v in r ==> (key, v) in mm
  {
    if |mm| == 0 then []
    else
      var init := ValuesUnder(mm[..|mm| - 1], key);
      assert forall e :: e in mm[..|mm| - 1] ==> e in mm;
      if mm[|mm| - 1].0 == key then init + [mm[|mm| - 1].1] else init
  }

  /** std::stod of columns.at(i). */
  function ColumnValue(row: Columns, i: int): Result<real>
  {
    if 0 <= i < |row| then Stod(row[i]) else Fail(IndexOutOfRange(i))
  }

  /** The sum over the listed columns of a row, or the first failing column. */
  function ColumnSum(row: Columns, idxs: seq<int>): Result<real>
    decreases |idxs|
  {
    if |idxs| == 0 then Success(0.0)
    else
      match ColumnValue(row, idxs[0])
      case Fail(e) => Fail(e)
      case Success(v) =>
        match ColumnSum(row, idxs[1..])
        case Fail(e) => Fail(e)
        case Success(s) => Success(v + s)
  }

  /** With every listed column a number, the sum is the sum of those numbers. */
  lemma {:induction false} ColumnSumOfNumbers(row: Columns, idxs: seq<int>, values: seq<real>)
    requires |values| == |idxs|
    requires forall k :: 0 <= k < |idxs| ==> ColumnValue(row, idxs[k]) == Success(values[k])
    ensures ColumnSum(row, idxs) == Success(Sum(values))
    decreases |idxs|
  {
    if |idxs| > 0 {
      assert forall k :: 0 <= k < |idxs| - 1 ==> idxs[1..][k] == idxs[k + 1] && values[1..][k] == values[k + 1];
      ColumnSumOfNumbers(row, idxs[1..], values[1..]);
      SumFront(values);
    }
  }

  /** Any listed column that is out of range or not a number makes the sum fail. */
  lemma {:induction false} ColumnSumFails(row: Columns, idxs: seq<int>, k: nat)
    requires k < |idxs| && ColumnValue(row, idxs[k]).Fail?
    ensures ColumnSum(row, idxs).Fail?
    decreases k
  {
    if k > 0 && ColumnValue(row, idxs[0]).Success? {
      assert idxs[1..][k - 1] == idxs[k];
      ColumnSumFails(row, idxs[1..], k - 1);
    }
  }

  lemma {:induction false} SumFront(s: seq<real>)
    requires |s| > 0
    ensures Sum(s) == s[0] + Sum(s[1..])
  {
    assert s == [s[0]] + s[1..];
    SumAppend([s[0]], s[1..]);
    assert Sum([s[0]]) == Sum([s[0]][..0]) + s[0];
    assert [s[0]][..0] == [];
  }

  /** Every key of the sequence has an entry in the estimates. */
  predicate KeysIn(keys: seq<int>, est: map<int, Columns>)
  {
    forall i :: 0 <= i < |keys| ==> keys[i] in est
  }

  /** The estimate rows of the keys, in the order of the keys. */
  function RowsOf(est: map<int, Columns>, keys: seq<int>): (r: seq<Columns>)
    requires KeysIn(keys, est)
    ensures |r| == |keys| && forall i :: 0 <= i < |keys| ==> r[i] == est[keys[i]]
    decreases |keys|
  {
    if |keys| == 0 then []
    else
      assert forall j :: 0 <= j < |keys| - 1 ==> keys[1..][j] == keys[j + 1];
      [est[keys[0]]] + RowsOf(est, keys[1..])
  }

  lemma SortedKeysIn(est: map<int, Columns>)
    ensures KeysIn(SortedKeys(est.Keys), est)
  {
  }

  /** The rows of an std::map<int, Columns> in its iteration order, ascending keys. */
  function EstimateRows(est: map<int, Columns>): (r: seq<Columns>)
    ensures |r| == |est.Keys|
  {
    SortedKeysIn(est);
    RowsOf(est, SortedKeys(est.Keys))
  }

  /** One sum per origin row, in row order. */
  function OriginSums(rows: seq<Columns>, idxs: seq<int>): (r: Result<seq<real>>)
    ensures r.Success? ==> |r.value| == |rows|
    decreases |rows|
  {
    if |rows| == 0 then Success([])
    else
      match ColumnSum(rows[0], idxs)
      case Fail(e) => Fail(e)
      case Success(v) => Prepend([v], OriginSums(rows[1..], idxs))
  }

  /** The k-th sum is the sum of the k-th row's listed columns. */
  lemma {:induction false} OriginSumsElement(rows: seq<Columns>, idxs: seq<int>, k: nat)
    requires k < |rows|
    requires OriginSums(rows, idxs).Success?
    ensures ColumnSum(rows[k], idxs) == Success(OriginSums(rows, idxs).value[k])
    decreases k
  {
    if k > 0 {
      assert rows[1..][k - 1] == rows[k];
      OriginSumsElement(rows[1..], idxs, k - 1);
    }
  }

  // ---------------------------------------------------------------------------
  // Nested loops that append a block per step

  /** c * n as repeated addition, so that the layout proofs below stay linear. */
  function Times(c: nat, n: nat): nat
  {
    if c == 0 then 0 else n + Times(c - 1, n)
  }

  lemma {:induction false} TimesIsProduct(c: nat, n: nat)
    ensures Times(c, n) == c * n
  {
    if c > 0 {
      TimesIsProduct(c - 1, n);
      assert c * n == (c - 1) * n + n;
    }
  }

  /** A loop for x := lo to hi that appends the block f(x) and stops at the first
      block that fails. */
  function Concat(f: int -> Result<seq<real>>, lo: int, hi: int): Result<seq<real>>
    decreases hi + 1 - lo
  {
    if lo > hi then Success([])
    else
      match f(lo)
      case Fail(e) => Fail(e)
      case Success(q) => Prepend(q, Concat(f, lo + 1, hi))
  }

  /** Blocks of n values each give hi + 1 - lo blocks of n values. */
  lemma {:induction false} ConcatLength(f: int -> Result<seq<real>>, lo: int, hi: int, n: nat)
    requires lo <= hi + 1
    requires forall x :: lo <= x <= hi && f(x).Success? ==> |f(x).value| == n
    ensures Concat(f, lo, hi).Success? ==> |Concat(f, lo, hi).value| == Times(hi + 1 - lo, n)
    decreases hi + 1 - lo
  {
    if lo <= hi {
      ConcatLength(f, lo + 1, hi, n);
    }
  }

  /** Value k of block x sits at Times(x - lo, n) + k. */
  lemma {:induction false} ConcatElement(f: int -> Result<seq<real>>, lo: int, hi: int, n: nat, x: int, k: nat)
    requires lo <= x <= hi && k < n
    requires forall y :: lo <= y <= hi && f(y).Success? ==> |f(y).value| == n
    requires Concat(f, lo, hi).Success?
    ensures |Concat(f, lo, hi).value| == Times(hi + 1 - lo, n)
    ensures f(x).Success? && Times(x - lo, n) + k < Times(hi + 1 - lo, n)
    ensures Concat(f, lo, hi).value[Times(x - lo, n) + k] == f(x).value[k]
    decreases x - lo
  {
    ConcatLength(f, lo, hi, n);
    var q := f(lo).value;
    var rest := Concat(f, lo + 1, hi);
    assert Concat(f, lo, hi) == Prepend(q, rest);
    assert Times(hi + 1 - lo, n) == n + Times(hi + 1 - (lo + 1), n);
    if x > lo {
      ConcatElement(f, lo + 1, hi, n, x, k);
      var j := Times(x - (lo + 1), n) + k;
      assert Times(x - lo, n) == n + Times(x - (lo + 1), n);
      assert Concat(f, lo, hi).value[|q| + j] == rest.value[j];
    } else {
      assert Concat(f, lo, hi).value[k] == q[k];
    }
  }

  /** A loop for (i = start; i < end; i += step) that appends the block f(i) and stops
      at the first block that fails. */
  function Strided(f: int -> Result<seq<real>>, i: int, step: nat, end: int): Result<seq<real>>
    requires step > 0
    decreases end - i
  {
    if i >= end then Success([])
    else
      match f(i)
      case Fail(e) => Fail(e)
      case Success(q) => Prepend(q, Strided(f, i + step, step, end))
  }

  lemma {:induction false} StridedLength(f: int -> Result<seq<real>>, i: int, step: nat, end: int, b: nat, n: nat)
    requires step > 0 && i + Times(b, step) == end
    requires forall x :: f(x).Success? ==> |f(x).value| == n
    ensures Strided(f, i, step, end).Success? ==> |Strided(f, i, step, end).value| == Times(b, n)
    decreases b
  {
    if b > 0 {
      StridedLength(f, i + step, step, end, b - 1, n);
    }
  }

  /** With b whole strides, value j of the block at stride k sits at Times(k, n) + j. */
  lemma {:induction false} StridedElement(f: int -> Result<seq<real>>, i: int, step: nat, end: int, b: nat, n: nat,
                                          k: nat, j: nat)
    requires step > 0 && i + Times(b, step) == end
    requires forall x :: f(x).Success? ==> |f(x).value| == n
    requires Strided(f, i, step, end).Success?
    requires k < b && j < n
    ensures |Strided(f, i, step, end).value| == Times(b, n)
    ensures f(i + Times(k, step)).Success? && Times(k, n) + j < Times(b, n)
    ensures Strided(f, i, step, end).value[Times(k, n) + j] == f(i + Times(k, step)).value[j]
    decreases b
  {
    StridedLength(f, i, step, end, b, n);
    var q := f(i).value;
    var rest := Strided(f, i + step, step, end);
    assert Strided(f, i, step, end) == Prepend(q, rest);
    if k > 0 {
      StridedElement(f, i + step, step, end, b - 1, n, k - 1, j);
      var t := Times(k - 1, n) + j;
      assert Strided(f, i, step, end).value[|q| + t] == rest.value[t];
    } else {
      assert Strided(f, i, step, end).value[j] == q[j];
    }
  }

  // ---------------------------------------------------------------------------
  // The race marginal

  /** The cells of sex s for age category a: one sum per origin. */
  function AgeCells(rows: seq<Columns>, ageGender: seq<(int, int)>, s: int): int -> Result<seq<real>>
  {
    (a: int) => OriginSums(rows, ValuesUnder(ageGender, 10 * s + a))
  }

  /** The cells of sex s: the age categories 1..totAge in turn. */
  function SexCells(rows: seq<Columns>, ageGender: seq<(int, int)>, totAge: nat): int -> Result<seq<real>>
  {
    (s: int) => Concat(AgeCells(rows, ageGender, s), 1, totAge)
  }

  /** The race marginal: the sexes 1..totSex, each over the age categories 1..totAge,
      each over the origins in ascending code. */
  function RaceVector(est: map<int, Columns>, ageGender: seq<(int, int)>, totSex: nat, totAge: nat): Result<seq<real>>
  {
    Concat(SexCells(EstimateRows(est), ageGender, totAge), 1, totSex)
  }

  /** A block index below c and an offset below n stay inside c blocks of n. */
  lemma {:induction false} TimesAddBound(a: nat, k: nat, c: nat, n: nat)
    requires a < c && k < n
    ensures Times(a, n) + k < Times(c, n)
    decreases c
  {
    if a < c - 1 {
      TimesAddBound(a, k, c - 1, n);
    }
  }

  /** The position of value k of inner block a of outer block s, with inner blocks
      of n values and inner inner-blocks per outer block. */
  function CellIndex(inner: nat, n: nat, s: int, a: int, k: nat): int
    requires s >= 1 && a >= 1
  {
    Times(s - 1, Times(inner, n)) + Times(a - 1, n) + k
  }

  /** Two nested loops: F(s) is the inner loop over G(s)(1..inner). Value k of inner
      block a of outer block s sits at (s - 1) * inner * n + (a - 1) * n + k. */
  lemma NestedConcatElement(F: int -> Result<seq<real>>, G: int -> int -> Result<seq<real>>,
                            outer: nat, inner: nat, n: nat, s: int, a: int, k: nat)
    requires forall x :: F(x) == Concat(G(x), 1, inner)
    requires forall x, y :: G(x)(y).Success? ==> |G(x)(y).value| == n
    requires Concat(F, 1, outer).Success?
    requires 1 <= s <= outer && 1 <= a <= inner && k < n
    ensures |Concat(F, 1, outer).value| == Times(outer, Times(inner, n))
    ensures Times(s - 1, Times(inner, n)) + (Times(a - 1, n) + k) < Times(outer, Times(inner, n))
    ensures G(s)(a).Success? && Concat(F, 1, outer).value[Times(s - 1, Times(inner, n)) + (Times(a - 1, n) + k)] == G(s)(a).value[k]
  {
    forall x | F(x).Success? ensures |F(x).value| == Times(inner, n) {
      ConcatLength(G(x), 1, inner, n);
    }
    TimesAddBound(a - 1, k, inner, n);
    ConcatElement(F, 1, outer, Times(inner, n), s, Times(a - 1, n) + k);
    ConcatElement(G(s), 1, inner, n, a, k);
  }

  /** The race layout over the rows of the origins in order. */
  lemma SexCellsLayout(rows: seq<Columns>, ageGender: seq<(int, int)>, totSex: nat, totAge: nat,
                       sex: nat, age: nat, k: nat)
    requires 1 <= sex <= totSex && 1 <= age <= totAge && k < |rows|
    requires Concat(SexCells(rows, ageGender, totAge), 1, totSex).Success?
    ensures |Concat(SexCells(rows, ageGender, totAge), 1, totSex).value| == Times(totSex, Times(totAge, |rows|))
    ensures CellIndex(totAge, |rows|, sex, age, k) < Times(totSex, Times(totAge, |rows|))
    ensures ColumnSum(rows[k], ValuesUnder(ageGender, 10 * sex + age)) ==
      Success(Concat(SexCells(rows, ageGender, totAge), 1, totSex).value[CellIndex(totAge, |rows|, sex, age, k)])
  {
    var idxs := ValuesUnder(ageGender, 10 * sex + age);
    var G := (s: int) => AgeCells(rows, ageGender, s);
    AgeCellsLength(rows, ageGender);
    NestedConcatElement(SexCells(rows, ageGender, totAge), G, totSex, totAge, |rows|, sex, age, k);
    assert G(sex)(age) == OriginSums(rows, idxs);
    OriginSumsElement(rows, idxs, k);
  }

  /** getRaceEstimateVector's layout, with Times(c, n) = c * n (TimesIsProduct): the
      cell of sex s, age category a and the k-th origin code in ascending order sits
      at (s - 1) * totAge * |origins| + (a - 1) * |origins| + k and holds the sum of
      that origin's columns the mapping lists under key 10 * s + a. */
  lemma RaceVectorLayout(est: map<int, Columns>, ageGender: seq<(int, int)>, totSex: nat, totAge: nat,
                         sex: nat, age: nat, k: nat)
    requires 1 <= sex <= totSex && 1 <= age <= totAge && k < |est.Keys|
    requires RaceVector(est, ageGender, totSex, totAge).Success?
    ensures |RaceVector(est, ageGender, totSex, totAge).value| == Times(totSex, Times(totAge, |est.Keys|))
    ensures CellIndex(totAge, |est.Keys|, sex, age, k) < Times(totSex, Times(totAge, |est.Keys|))
    ensures ColumnSum(est[SortedKeys(est.Keys)[k]], ValuesUnder(ageGender, 10 * sex + age)) ==
      Success(RaceVector(est, ageGender, totSex, totAge).value[CellIndex(totAge, |est.Keys|, sex, age, k)])
  {
    var rows := EstimateRows(est);
    SexCellsLayout(rows, ageGender, totSex, totAge, sex, age, k);
    EstimateRowsElement(est, k);
  }

  /** Row k of the estimates in iteration order is the row of the k-th smallest key. */
  lemma EstimateRowsElement(est: map<int, Columns>, k: nat)
    requires k < |est.Keys|
    ensures SortedKeys(est.Keys)[k] in est && EstimateRows(est)[k] == est[SortedKeys(est.Keys)[k]]
  {
    SortedKeysIn(est);
  }

  lemma AgeCellsLength(rows: seq<Columns>, ageGender: seq<(int, int)>)
    ensures forall s, a :: AgeCells(rows, ageGender, s)(a).Success? ==> |AgeCells(rows, ageGender, s)(a).value| == |rows|
  {
    forall s, a ensures AgeCells(rows, ageGender, s)(a) == OriginSums(rows, ValuesUnder(ageGender, 10 * s + a)) {
    }
  }

  /** The numbers of the columns of a row. */
  function ParseColumns(col: Columns): (r: Result<seq<real>>)
    ensures r.Success? ==> |r.value| == |col|
    decreases |col|
  {
    if |col| == 0 then Success([])
    else
      match Stod(col[0])
      case Fail(e) => Fail(e)
      case Success(v) => Prepend([v], ParseColumns(col[1..]))
  }

  /** Parsing succeeds exactly when every column is a number, and then gives each
      column's number in place. */
  lemma {:induction false} ParseColumnsMeaning(col: Columns)
    ensures ParseColumns(col).Success? <==> forall i :: 0 <= i < |col| ==> Stod(col[i]).Success?
    ensures ParseColumns(col).Success? ==> forall i :: 0 <= i < |col| ==> Stod(col[i]) == Success(ParseColumns(col).value[i])
    decreases |col|
  {
    if |col| > 0 {
      ParseColumnsMeaning(col[1..]);
      assert forall j :: 0 <= j < |col| - 1 ==> col[1..][j] == col[j + 1];
    }
  }

  /** The education marginal: the numbers of every column of every row, in row order. */
  function EducationVector(rows: seq<Columns>): (r: Result<seq<real>>)
    decreases |rows|
  {
    if |rows| == 0 then Success([])
    else
      match ParseColumns(rows[0])
      case Fail(e) => Fail(e)
      case Success(v) => Prepend(v, EducationVector(rows[1..]))
  }

  /** The education marginal exists exactly when every row parses, and is then the
      concatenation of the rows' numbers. */
  lemma {:induction false} EducationVectorMeaning(rows: seq<Columns>)
    ensures EducationVector(rows).Success? <==> forall n :: 0 <= n < |rows| ==> ParseColumns(rows[n]).Success?
    ensures EducationVector(rows).Success? && |rows| > 0 ==>
      EducationVector(rows).value == ParseColumns(rows[0]).value + EducationVector(rows[1..]).value
    decreases |rows|
  {
    if |rows| > 0 {
      EducationVectorMeaning(rows[1..]);
      assert forall j :: 0 <= j < |rows| - 1 ==> rows[1..][j] == rows[j + 1];
    }
  }

  /** The number of persons a percentage of a population stands for. */
  function PercentOf(pct: real, pop: int): real
  {
    pct / 100.0 * pop as real
  }

  /** Marital status t of the block whose population sits in column i: the
      percentage in column i + t + 1 (std::vector::at) over 100 times the population. */
  function PercentCells(col: Columns, i: int, pop: int): int -> Result<seq<real>>
  {
    (t: int) =>
      match ColumnValue(col, i + t + 1)
      case Fail(e) => Fail(e)
      case Success(pct) => Success([PercentOf(pct, pop)])
  }

  /** std::stoi of the population in column i of a marital-status row, checked by
      std::vector::at. */
  function BlockPopulation(col: Columns, i: int): Result<int>
  {
    if 0 <= i < |col| then Stoi(col[i]) else Fail(IndexOutOfRange(i))
  }

  /** The block of a marital-status row that starts at column i: the population
      there, then the maritalSize statuses. */
  function MaritalCells(col: Columns, maritalSize: nat): int -> Result<seq<real>>
  {
    (i: int) =>
      var pop := BlockPopulation(col, i);
      if pop.Success? then Concat(PercentCells(col, i, pop.value), 0, maritalSize - 1) else Fail(pop.error)
  }

  /** The values of one marital-status row: its blocks, maritalSize + 1 columns apart. */
  function MaritalRowValues(col: Columns, maritalSize: nat): Result<seq<real>>
  {
    Strided(MaritalCells(col, maritalSize), 0, maritalSize + 1, |col|)
  }

  lemma {:induction false} TimesOne(c: nat)
    ensures Times(c, 1) == c
  {
    if c > 0 {
      TimesOne(c - 1);
    }
  }

  lemma PercentCellsLength(col: Columns, i: int, pop: int)
    ensures forall t :: PercentCells(col, i, pop)(t).Success? ==> |PercentCells(col, i, pop)(t).value| == 1
  {
  }

  /** The block starting at column i, when it parses, holds maritalSize values: value j
      is the percentage in column i + j + 1 over 100 times the population in column i. */
  lemma MaritalBlockValues(col: Columns, maritalSize: nat, i: int, j: nat)
    requires MaritalCells(col, maritalSize)(i).Success?
    ensures |MaritalCells(col, maritalSize)(i).value| == maritalSize
    ensures j < maritalSize ==>
      0 <= i && i + j + 1 < |col| && Stoi(col[i]).Success? && Stod(col[i + j + 1]).Success? &&
      MaritalCells(col, maritalSize)(i).value[j] == PercentOf(Stod(col[i + j + 1]).value, Stoi(col[i]).value)
  {
    var pop := BlockPopulation(col, i).value;
    var f := PercentCells(col, i, pop);
    assert MaritalCells(col, maritalSize)(i) == Concat(f, 0, maritalSize - 1);
    PercentCellsLength(col, i, pop);
    ConcatLength(f, 0, maritalSize - 1, 1);
    TimesOne(maritalSize);
    if j < maritalSize {
      ConcatElement(f, 0, maritalSize - 1, 1, j, 0);
      TimesOne(j);
      var cv := ColumnValue(col, i + j + 1);
      assert f(j).Success?;
      assert cv.Success?;
    }
  }

  lemma MaritalCellsLength(col: Columns, maritalSize: nat)
    ensures forall i :: MaritalCells(col, maritalSize)(i).Success? ==> |MaritalCells(col, maritalSize)(i).value| == maritalSize
  {
    forall i | MaritalCells(col, maritalSize)(i).Success?
      ensures |MaritalCells(col, maritalSize)(i).value| == maritalSize
    {
      MaritalBlockValues(col, maritalSize, i, 0);
    }
  }

  /** A marital-status row of b whole blocks gives b * maritalSize values; the value
      of status j in block k is the j-th percentage of the block over 100 times the
      block's population (with Times(c, n) = c * n, TimesIsProduct). */
  lemma MaritalRowLayout(col: Columns, maritalSize: nat, b: nat, k: nat, j: nat)
    requires Times(b, maritalSize + 1) == |col|
    requires MaritalRowValues(col, maritalSize).Success?
    requires k < b && j < maritalSize
    ensures |MaritalRowValues(col, maritalSize).value| == Times(b, maritalSize)
    ensures var start := Times(k, maritalSize + 1);
      Times(k, maritalSize) + j < Times(b, maritalSize) && start + j + 1 < |col| &&
      Stoi(col[start]).Success? && Stod(col[start + j + 1]).Success? &&
      MaritalRowValues(col, maritalSize).value[Times(k, maritalSize) + j] ==
        PercentOf(Stod(col[start + j + 1]).value, Stoi(col[start]).value)
  {
    var f := MaritalCells(col, maritalSize);
    MaritalCellsLength(col, maritalSize);
    StridedElement(f, 0, maritalSize + 1, |col|, b, maritalSize, k, j);
    MaritalBlockValues(col, maritalSize, Times(k, maritalSize + 1), j);
  }

  /** The marital marginal: the blocks of every row, in row order. */
  function MaritalVector(rows: seq<Columns>, maritalSize: nat): (r: Result<seq<real>>)
    decreases |rows|
  {
    if |rows| == 0 then Success([])
    else
      match MaritalRowValues(rows[0], maritalSize)
      case Fail(e) => Fail(e)
      case Success(v) => Prepend(v, MaritalVector(rows[1..], maritalSize))
  }

  // ---------------------------------------------------------------------------
  // getCount and the seed

  /** The functor Metro's getCount uses for one marital seed cell. */
  function MaritalCell(sex: int, maritalAge: int, origin: int, marital: int, pumaCode: int): PersonRecord -> bool
  {
    (p: PersonRecord) => MaritalStatusByPUMA(sex, maritalAge, origin, marital, pumaCode).Holds(p)
  }

  /** getCount: the persons of the sample that fall in a seed cell; 0 for estimate
      types other than education and marital status. */
  function CountOf(pums: seq<PersonRecord>, estType: Estimates, var1: int, var2: int, var3: int, var4: int,
                   pumaCode: int): (n: nat)
    ensures n <= |pums|
    ensures estType != EstEducation && estType != EstMarital ==> n == 0
  {
    match estType
    case EstEducation => CountIf(pums, EducationCell(var1, var2, var3, var4, pumaCode))
    case EstMarital => CountIf(pums, MaritalCell(var1, var2, var3, var4, pumaCode))
    case _ => 0
  }

  /** The count createSeedMatrix asks for at (var3, var4) in a PUMA, for fixed
      sex var1 and age band var2. */
  function SeedCount(pums: seq<PersonRecord>, estType: Estimates, var1: int, var2: int): (int, int, int) -> int
  {
    (var3: int, var4: int, pumaCode: int) => CountOf(pums, estType, var1, var2, var3, var4, pumaCode)
  }

  /** The seed of one IPF run counts only persons of the run's sex and age band. */
  lemma SeedCountsMatchingPersons(pums: seq<PersonRecord>, var1: int, var2: int, var3: int, var4: int, pumaCode: int)
    ensures SeedCount(pums, EstEducation, var1, var2)(var3, var4, pumaCode) ==
      CountIf(pums, EducationCell(var1, var2, var3, var4, pumaCode))
    ensures forall p :: EducationCell(var1, var2, var3, var4, pumaCode)(p) ==>
      p.sex == var1 && p.eduAgeCat == var2 && p.origin == var3 && p.education == var4 && p.pumaCode == pumaCode
  {
  }

  // ---------------------------------------------------------------------------
  // getEstimatesVector

  /** getEstimatesVector: fails when the age-gender mapping is empty, then builds the
      race marginal, then the education or marital marginal; any other type leaves a
      single marginal, which is an error too. */
  function EstimatesVector(raceMarginal: Result<seq<real>>, secondMarginal: Result<seq<real>>,
                           ageGender: seq<(int, int)>, estType: Estimates): (r: Result<seq<seq<real>>>)
    ensures r.Success? ==> |r.value| == 2 && (estType == EstEducation || estType == EstMarital)
    ensures r.Success? ==> |ageGender| > 0 && raceMarginal == Success(r.value[0]) && secondMarginal == Success(r.value[1])
    ensures |ageGender| == 0 ==> r == Fail(InvalidData("Invalid data type!"))
    ensures |ageGender| > 0 && raceMarginal.Success? && estType != EstEducation && estType != EstMarital ==>
      r == Fail(InvalidData("Invalid number of marginals!"))
  {
    if |ageGender| == 0 then Fail(InvalidData("Invalid data type!"))
    else match raceMarginal
      case Fail(e) => Fail(e)
      case Success(race) =>
        if estType == EstEducation || estType == EstMarital then
          match secondMarginal
          case Fail(e) => Fail(e)
          case Success(second) => Success([race, second])
        else Fail(InvalidData("Invalid number of marginals!"))
  }

  class Metro {
    var geoID: string
    var metroName: string
    var population: int
    var pumaCounty: seq<PumaCounty>
    var raceEst: seq<(string, Columns)>
    var eduEst: seq<(string, Columns)>
    var maritalEst: seq<(string, Columns)>
    var hhTypeEst: seq<(string, Columns)>
    var pumsList: seq<PersonRecord>
    const staging: IpfStaging

    constructor ()
      ensures fresh(staging)
      ensures staging.seed == [] && staging.marginals == [] && staging.mSize == []
      ensures pumaCounty == [] && raceEst == [] && eduEst == [] && maritalEst == [] && hhTypeEst == [] && pumsList == []
    {
      geoID, metroName, population := "", "", 0;
      pumaCounty := [];
      raceEst, eduEst, maritalEst, hhTypeEst := [], [], [], [];
      pumsList := [];
      staging := new IpfStaging();
    }

    method SetMetroIDandName(id: string, name: string)
      modifies this
      ensures geoID == id && metroName == name
      ensures population == old(population) && pumaCounty == old(pumaCounty) && raceEst == old(raceEst)
      ensures eduEst == old(eduEst) && maritalEst == old(maritalEst) && hhTypeEst == old(hhTypeEst)
      ensures pumsList == old(pumsList)
    {
      geoID, metroName := id, name;
    }

    /** setCounties: the county is filed under its PUMA code. */
    method SetCounties(cnty: PumaCounty)
      modifies this
      ensures pumaCounty == InsertByPuma(old(pumaCounty), cnty)
      ensures geoID == old(geoID) && metroName == old(metroName) && population == old(population)
      ensures raceEst == old(raceEst) && eduEst == old(eduEst)
      ensures maritalEst == old(maritalEst) && hhTypeEst == old(hhTypeEst) && pumsList == old(pumsList)
    {
      pumaCounty := InsertByPuma(pumaCounty, cnty);
    }

    /** setEstimates: the row is filed under the metro's GEO ID in the table of its
      estimate type; other types are ignored. */
    method SetEstimates(estimates: Columns, estType: Estimates)
      modifies this
      ensures raceEst == old(raceEst) + (if estType == EstRace then [(geoID, estimates)] else [])
      ensures eduEst == old(eduEst) + (if estType == EstEducation then [(geoID, estimates)] else [])
      ensures maritalEst == old(maritalEst) + (if estType == EstMarital then [(geoID, estimates)] else [])
      ensures hhTypeEst == old(hhTypeEst) + (if estType == EstHHType then [(geoID, estimates)] else [])
      ensures geoID == old(geoID) && metroName == old(metroName) && population == old(population)
      ensures pumaCounty == old(pumaCounty) && pumsList == old(pumsList)
    {
      match estType
      case EstRace => raceEst := raceEst + [(geoID, estimates)];
      case EstEducation => eduEst := eduEst + [(geoID, estimates)];
      case EstMarital => maritalEst := maritalEst + [(geoID, estimates)];
      case EstHHType => hhTypeEst := hhTypeEst + [(geoID, estimates)];
      case _ =>
    }

    /** isValidGeoID: whatever estimate the caller names, the test is whether the
      education table holds a row for this GEO ID. */
    predicate IsValidGeoID()
      reads this
    {
      |RowsFor(eduEst, geoID)| > 0
    }

    /** getRaceEstimatesMap over the origin table of the parameters. */
    method GetRaceEstimatesMap(origins: map<string, int>) returns (r: Result<map<int, Columns>>)
      requires forall row :: row in RowsFor(raceEst, geoID) ==> |row| > 0
      ensures r == RaceEstimatesMap(RowsFor(raceEst, geoID), origins)
    {
      var rows := RowsFor(raceEst, geoID);
      var acc: map<int, Columns> := map[];
      var allOrigins := origins;
      var i := 0;
      while i < |rows|
        invariant 0 <= i <= |rows|
        invariant InsertRaceRows(rows, origins, map[]) == InsertRaceRows(rows[i..], allOrigins, acc)
      {
        assert rows[i..][0] == rows[i] && rows[i..][1..] == rows[i + 1..];
        var cols := rows[i];
        var origin := cols[0];
        if origin !in allOrigins {
          return Fail(MissingKey(origin));
        }
        var raceCols := cols[1..];
        var code := allOrigins[origin];
        if code !in acc {
          acc := acc[code := raceCols];
        }
        allOrigins := allOrigins - {origin};
        i := i + 1;
      }
      assert rows[i..] == [];
      var filled := FillZeros(acc, allOrigins);
      r := Success(filled);
    }

    /** getRaceEstimateVector; a GEO ID without education rows ends the program. */
    method GetRaceEstimateVector(est: map<int, Columns>, ageGender: seq<(int, int)>, totSex: nat, totAge: nat)
      returns (r: Result<seq<real>>)
      ensures !IsValidGeoID() ==> r.Fail?
      ensures IsValidGeoID() ==> r == RaceVector(est, ageGender, totSex, totAge)
    {
      if |RowsFor(eduEst, geoID)| == 0 {
        return Fail(InvalidData("GEO ID not in the estimates list"));
      }
      var keys := SortedKeys(est.Keys);
      SortedKeysIn(est);
      ghost var f := SexCells(EstimateRows(est), ageGender, totAge);
      PrependNothing(Concat(f, 1, totSex));
      var marginal: seq<real> := [];
      var sex := 1;
      while sex <= totSex
        invariant 1 <= sex <= totSex + 1
        invariant RaceVector(est, ageGender, totSex, totAge) == Prepend(marginal, Concat(f, sex, totSex))
      {
        var block := SexBlock(est, keys, ageGender, sex, totAge);
        assert block == f(sex);
        if block.Fail? {
          return Fail(block.error);
        }
        PrependTwice(marginal, block.value, Concat(f, sex + 1, totSex));
        marginal := marginal + block.value;
        sex := sex + 1;
      }
      PrependToEmpty(marginal);
      r := Success(marginal);
    }

    /** getEducationEstimateVector. */
    method GetEducationEstimateVector() returns (r: Result<seq<real>>)
      ensures !IsValidGeoID() ==> r.Fail?
      ensures IsValidGeoID() ==> r == EducationVector(RowsFor(eduEst, geoID))
    {
      var rows := RowsFor(eduEst, geoID);
      if |rows| == 0 {
        return Fail(InvalidData("GEO ID not in the estimates list"));
      }
      var marginal: seq<real> := [];
      var i := 0;
      assert rows[0..] == rows;
      PrependNothing(EducationVector(rows));
      while i < |rows|
        invariant 0 <= i <= |rows|
        invariant EducationVector(rows) == Prepend(marginal, EducationVector(rows[i..]))
      {
        assert rows[i..][0] == rows[i] && rows[i..][1..] == rows[i + 1..];
        var values := ParseRow(rows[i]);
        if values.Fail? {
          return Fail(values.error);
        }
        PrependTwice(marginal, values.value, EducationVector(rows[i + 1..]));
        marginal := marginal + values.value;
        i := i + 1;
      }
      assert rows[i..] == [];
      PrependToEmpty(marginal);
      r := Success(marginal);
    }

    /** getMaritalStatusEstimateVector, for maritalSize marital statuses. */
    method GetMaritalStatusEstimateVector(maritalSize: nat) returns (r: Result<seq<real>>)
      ensures !IsValidGeoID() ==> r.Fail?
      ensures IsValidGeoID() ==> r == MaritalVector(RowsFor(maritalEst, geoID), maritalSize)
    {
      if |RowsFor(eduEst, geoID)| == 0 {
        return Fail(InvalidData("GEO ID not in the estimates list"));
      }
      var rows := RowsFor(maritalEst, geoID);
      var marginal: seq<real> := [];
      var n := 0;
      assert rows[0..] == rows;
      PrependNothing(MaritalVector(rows, maritalSize));
      while n < |rows|
        invariant 0 <= n <= |rows|
        invariant MaritalVector(rows, maritalSize) == Prepend(marginal, MaritalVector(rows[n..], maritalSize))
      {
        assert rows[n..][0] == rows[n] && rows[n..][1..] == rows[n + 1..];
        var values := MaritalRow(rows[n], maritalSize);
        if values.Fail? {
          return Fail(values.error);
        }
        PrependTwice(marginal, values.value, MaritalVector(rows[n + 1..], maritalSize));
        marginal := marginal + values.value;
        n := n + 1;
      }
      assert rows[n..] == [];
      PrependToEmpty(marginal);
      r := Success(marginal);
    }

    /** getEstimatesVector, with the age-gender mapping the parameters hold for the type. */
    method GetEstimatesVector(est: map<int, Columns>, ageGender: seq<(int, int)>, totSex: nat, totAge: nat,
                              estType: Estimates, maritalSize: nat) returns (r: Result<seq<seq<real>>>)
      ensures IsValidGeoID() ==> r == EstimatesVector(RaceVector(est, ageGender, totSex, totAge),
        if estType == EstEducation then EducationVector(RowsFor(eduEst, geoID))
        else MaritalVector(RowsFor(maritalEst, geoID), maritalSize), ageGender, estType)
      ensures !IsValidGeoID() ==> r.Fail?
    {
      ghost var second := if estType == EstEducation then EducationVector(RowsFor(eduEst, geoID))
        else MaritalVector(RowsFor(maritalEst, geoID), maritalSize);
      if |ageGender| == 0 {
        return Fail(InvalidData("Invalid data type!"));
      }
      var race := GetRaceEstimateVector(est, ageGender, totSex, totAge);
      if race.Fail? {
        return Fail(race.error);
      }
      var marginals := [race.value];
      if estType == EstEducation {
        var edu := GetEducationEstimateVector();
        if edu.Fail? {
          return Fail(edu.error);
        }
        marginals := marginals + [edu.value];
      } else if estType == EstMarital {
        var marital := GetMaritalStatusEstimateVector(maritalSize);
        if marital.Fail? {
          return Fail(marital.error);
        }
        marginals := marginals + [marital.value];
      }
      assert |marginals| == if estType == EstEducation || estType == EstMarital then 2 else 1;
      if |marginals| < 2 {
        return Fail(InvalidData("Invalid number of marginals!"));
      }
      assert IsValidGeoID() ==> marginals == [race.value, second.value];
      r := Success(marginals);
    }

    /** createSeedMatrix for sex var1 and age band var2. */
    method CreateSeedMatrix(var1: int, var2: int, sizeVar3: nat, sizeVar4: nat, estType: Estimates)
      modifies staging
      ensures staging.seed == old(staging.seed) + SeedCells(sizeVar3, sizeVar4, pumaCounty, SeedCount(pumsList, estType, var1, var2))
      ensures staging.marginals == old(staging.marginals) && staging.mSize == old(staging.mSize)
    {
      staging.CreateSeedMatrix(sizeVar3, sizeVar4, pumaCounty, SeedCount(pumsList, estType, var1, var2));
    }
  }

  /** Step 2 of getRaceEstimatesMap over the origins left in the table. */
  method FillZeros(acc: map<int, Columns>, remaining: map<string, int>) returns (r: map<int, Columns>)
    ensures r == FillWithZeros(acc, remaining.Values)
  {
    r := acc;
    var todo := remaining.Keys;
    ghost var done: set<string> := {};
    CodesOfNone(remaining);
    while todo != {}
      invariant todo <= remaining.Keys && done == remaining.Keys - todo
      invariant r.Keys == acc.Keys + CodesOf(remaining, done)
      invariant forall c :: c in r ==> r[c] == if c in acc then acc[c] else ZeroEstimates
      decreases todo
    {
      var org :| org in todo;
      var code := remaining[org];
      CodesOfAdd(remaining, done, org);
      if code !in r {
        r := r[code := ZeroEstimates];
      }
      todo := todo - {org};
      done := done + {org};
    }
    CodesOfAll(remaining);
    FillWithZerosPointwise(acc, remaining.Values, r);
  }

  /** The codes of the given origins. */
  function CodesOf(m: map<string, int>, ks: set<string>): set<int>
  {
    set k | k in ks && k in m :: m[k]
  }

  lemma CodesOfNone(m: map<string, int>)
    ensures CodesOf(m, {}) == {}
  {
  }

  lemma CodesOfAdd(m: map<string, int>, ks: set<string>, k: string)
    requires k in m
    ensures CodesOf(m, ks + {k}) == CodesOf(m, ks) + {m[k]}
  {
  }

  lemma CodesOfAll(m: map<string, int>)
    ensures CodesOf(m, m.Keys) == m.Values
  {
  }

  /** The cells of one sex: the age categories 1..totAge, each over every origin. */
  method SexBlock(est: map<int, Columns>, keys: seq<int>, ageGender: seq<(int, int)>, sex: int, totAge: nat)
    returns (r: Result<seq<real>>)
    requires KeysIn(keys, est)
    ensures r == Concat(AgeCells(RowsOf(est, keys), ageGender, sex), 1, totAge)
  {
    ghost var f := AgeCells(RowsOf(est, keys), ageGender, sex);
    PrependNothing(Concat(f, 1, totAge));
    var cells: seq<real> := [];
    var age := 1;
    while age <= totAge
      invariant 1 <= age <= totAge + 1
      invariant Concat(f, 1, totAge) == Prepend(cells, Concat(f, age, totAge))
    {
      var key := 10 * sex + age;
      var sums := OriginSumsLoop(est, keys, ValuesUnder(ageGender, key));
      assert sums == f(age);
      if sums.Fail? {
        return Fail(sums.error);
      }
      PrependTwice(cells, sums.value, Concat(f, age + 1, totAge));
      cells := cells + sums.value;
      age := age + 1;
    }
    PrependToEmpty(cells);
    r := Success(cells);
  }

  /** For every origin in key order, the sum over the columns listed for the key. */
  method OriginSumsLoop(est: map<int, Columns>, keys: seq<int>, idxs: seq<int>) returns (r: Result<seq<real>>)
    requires KeysIn(keys, est)
    ensures r == OriginSums(RowsOf(est, keys), idxs)
  {
    ghost var rows := RowsOf(est, keys);
    var sums: seq<real> := [];
    var n := 0;
    assert rows[0..] == rows;
    PrependNothing(OriginSums(rows, idxs));
    while n < |keys|
      invariant 0 <= n <= |keys|
      invariant OriginSums(rows, idxs) == Prepend(sums, OriginSums(rows[n..], idxs))
    {
      assert rows[n..][0] == est[keys[n]] && rows[n..][1..] == rows[n + 1..];
      var sum := ColumnSumLoop(est[keys[n]], idxs);
      if sum.Fail? {
        return Fail(sum.error);
      }
      PrependTwice(sums, [sum.value], OriginSums(rows[n + 1..], idxs));
      sums := sums + [sum.value];
      n := n + 1;
    }
    assert rows[n..] == [];
    PrependToEmpty(sums);
    r := Success(sums);
  }

  /** A running total in front of a sum that may have failed. */
  function AddTo(total: real, r: Result<real>): (q: Result<real>)
    ensures q.Success? <==> r.Success?
    ensures q.Success? ==> q.value == total + r.value
  {
    match r
    case Fail(e) => Fail(e)
    case Success(s) => Success(total + s)
  }

  lemma AddToTwice(a: real, b: real, r: Result<real>)
    ensures AddTo(a, AddTo(b, r)) == AddTo(a + b, r)
  {
  }

  method ColumnSumLoop(row: Columns, idxs: seq<int>) returns (r: Result<real>)
    ensures r == ColumnSum(row, idxs)
  {
    var sum := 0.0;
    var n := 0;
    assert idxs[0..] == idxs;
    while n < |idxs|
      invariant 0 <= n <= |idxs|
      invariant ColumnSum(row, idxs) == AddTo(sum, ColumnSum(row, idxs[n..]))
    {
      assert idxs[n..][0] == idxs[n] && idxs[n..][1..] == idxs[n + 1..];
      var idx := idxs[n];
      if !(0 <= idx < |row|) {
        return Fail(IndexOutOfRange(idx));
      }
      var v := Stod(row[idx]);
      if v.Fail? {
        return Fail(v.error);
      }
      AddToTwice(sum, v.value, ColumnSum(row, idxs[n + 1..]));
      sum := sum + v.value;
      n := n + 1;
    }
    assert idxs[n..] == [];
    r := Success(sum);
  }

  /** std::stod of every column of a row. */
  method ParseRow(col: Columns) returns (r: Result<seq<real>>)
    ensures r == ParseColumns(col)
  {
    var values: seq<real> := [];
    var i := 0;
    assert col[0..] == col;
    PrependNothing(ParseColumns(col));
    while i < |col|
      invariant 0 <= i <= |col|
      invariant ParseColumns(col) == Prepend(values, ParseColumns(col[i..]))
    {
      assert col[i..][0] == col[i] && col[i..][1..] == col[i + 1..];
      var v := Stod(col[i]);
      if v.Fail? {
        return Fail(v.error);
      }
      PrependTwice(values, [v.value], ParseColumns(col[i + 1..]));
      values := values + [v.value];
      i := i + 1;
    }
    assert col[i..] == [];
    PrependToEmpty(values);
    r := Success(values);
  }

  /** The block loop over one marital-status row: the population, then the statuses. */
  method MaritalRow(col: Columns, maritalSize: nat) returns (r: Result<seq<real>>)
    ensures r == MaritalRowValues(col, maritalSize)
  {
    ghost var f := MaritalCells(col, maritalSize);
    ghost var whole := MaritalRowValues(col, maritalSize);
    PrependNothing(whole);
    var values: seq<real> := [];
    var i := 0;
    while i < |col|
      invariant whole == Prepend(values, Strided(f, i, maritalSize + 1, |col|))
      decreases |col| - i
    {
      var block := MaritalBlock(col, maritalSize, i);
      StridedStep(f, i, maritalSize + 1, |col|, values, block, whole);
      if block.Fail? {
        return Fail(block.error);
      }
      values := values + block.value;
      i := i + maritalSize + 1;
    }
    PrependToEmpty(values);
    r := Success(values);
  }

  /** One block of a marital-status row: std::stoi of the population in column i,
      then the statuses after it. */
  method MaritalBlock(col: Columns, maritalSize: nat, i: int) returns (r: Result<seq<real>>)
    ensures r == MaritalCells(col, maritalSize)(i)
  {
    var pop := BlockPopulation(col, i);
    if pop.Fail? {
      return Fail(pop.error);
    }
    r := MaritalBlockLoop(col, maritalSize, i, pop.value);
  }

  /** The statuses of the block whose population sits in column i. */
  method MaritalBlockLoop(col: Columns, maritalSize: nat, i: int, pop: int) returns (r: Result<seq<real>>)
    ensures r == Concat(PercentCells(col, i, pop), 0, maritalSize - 1)
  {
    ghost var f := PercentCells(col, i, pop);
    PrependNothing(Concat(f, 0, maritalSize - 1));
    var block: seq<real> := [];
    var j := 0;
    while j < maritalSize
      invariant 0 <= j <= maritalSize
      invariant Concat(f, 0, maritalSize - 1) == Prepend(block, Concat(f, j, maritalSize - 1))
    {
      var pct := ColumnValue(col, i + j + 1);
      if pct.Fail? {
        return Fail(pct.error);
      }
      PrependTwice(block, [PercentOf(pct.value, pop)], Concat(f, j + 1, maritalSize - 1));
      block := block + [PercentOf(pct.value, pop)];
      j := j + 1;
    }
    PrependToEmpty(block);
    r := Success(block);
  }
}
