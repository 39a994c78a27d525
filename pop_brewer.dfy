/** The table plumbing of src/PopBrewer.cpp: finding estimate variables among the
    header columns, forwarding each metro's estimate row, and giving every county
    its share of the population of the PUMA it belongs to. The files themselves are
    already-read rows here. */
module PopBrewer {
  import opened Wrappers
  import opened Text

  type Columns = seq<string>

  // ---------------------------------------------------------------------------
  // getColumnIndex and getColumnIndexMap

  /** The position of the first header equal to the name, or -1. */
  function FirstIndex(col: Columns, name: string): (r: int)
    ensures -1 <= r < |col|
    ensures r == -1 <==> name !in col
    ensures r >= 0 ==> col[r] == name && name !in col[..r]
  {
    if |col| == 0 then -1
    else if col[0] == name then 0
    else
      var t := FirstIndex(col[1..], name);
      assert col[1..][..if t >= 0 then t else 0] == col[1..1 + (if t >= 0 then t else 0)];
      assert name in col[1..] ==> name in col;
      assert name in col ==> name in col[1..] by {
        if name in col {
          var j :| 0 <= j < |col| && col[j] == name;
          assert j > 0 && col[1..][j - 1] == name;
        }
      }
      if t == -1 then -1 else t + 1
  }

  /** getColumnIndex: a linear scan of the headers. */
  method GetColumnIndex(col: Columns, name: string) returns (idx: int)
    ensures idx == FirstIndex(col, name)
  {
    idx := 0;
    while idx < |col|
      invariant 0 <= idx <= |col|
      invariant FirstIndex(col, name) == -1 || idx <= FirstIndex(col, name)
      invariant name !in col[..idx]
    {
      if col[idx] == name {
        return;
      }
      assert col[..idx + 1] == col[..idx] + [col[idx]];
      idx := idx + 1;
    }
    assert col[..idx] == col;
    idx := -1;
  }

  /** One enum constant of a marginal-variable list: its name and its integral. */
  datatype EnumVar = EnumVar(name: string, integral: int)

  /** The index map of getColumnIndexMap: None where a variable has no column (the
      program exits); std::map::insert keeps the entry of the first variable with a
      given integral. */
  function IndexMap(col: Columns, vars: seq<EnumVar>): Option<map<int, int>>
    decreases |vars|
  {
    if |vars| == 0 then Some(map[])
    else
      var n := |vars| - 1;
      match IndexMap(col, vars[..n])
      case None => None
      case Some(m) =>
        var c := FirstIndex(col, vars[n].name);
        if c < 0 then None
        else Some(if vars[n].integral in m then m else m[vars[n].integral := c])
  }

  /** getColumnIndexMap: looks every variable up in turn and stops at the first one
      that is missing. */
  method GetColumnIndexMap(vars: seq<EnumVar>, col: Columns) returns (r: Option<map<int, int>>)
    ensures r == IndexMap(col, vars)
  {
    var m: map<int, int> := map[];
    var i := 0;
    while i < |vars|
      invariant 0 <= i <= |vars|
      invariant IndexMap(col, vars[..i]) == Some(m)
    {
      var colIdx := GetColumnIndex(col, vars[i].name);
      assert vars[..i + 1][..i] == vars[..i];
      if colIdx < 0 {
        IndexMapStaysNone(col, vars, i + 1);
        return None;
      }
      if vars[i].integral !in m {
        m := m[vars[i].integral := colIdx];
      }
      i := i + 1;
    }
    assert vars[..i] == vars;
    r := Some(m);
  }

  /** Once a prefix has failed, every longer prefix fails. */
  lemma {:induction false} IndexMapStaysNone(col: Columns, vars: seq<EnumVar>, k: nat)
    requires k <= |vars|
    requires IndexMap(col, vars[..k]).None?
    ensures IndexMap(col, vars).None?
    decreases |vars| - k
  {
    if k < |vars| {
      assert vars[..k + 1][..k] == vars[..k];
      IndexMapStaysNone(col, vars, k + 1);
    } else {
      assert vars[..k] == vars;
    }
  }

  /** The index map fails exactly when some variable's name is not a header. */
  lemma {:induction false} IndexMapFails(col: Columns, vars: seq<EnumVar>)
    ensures IndexMap(col, vars).None? <==> exists j :: 0 <= j < |vars| && vars[j].name !in col
    decreases |vars|
  {
    if |vars| > 0 {
      var n := |vars| - 1;
      IndexMapFails(col, vars[..n]);
      assert forall j :: 0 <= j < n ==> vars[..n][j] == vars[j];
    }
  }

  /** On success the keys are exactly the variables' integrals. */
  lemma {:induction false} IndexMapKeys(col: Columns, vars: seq<EnumVar>)
    requires IndexMap(col, vars).Some?
    ensures var m := IndexMap(col, vars).value;
      forall k :: k in m <==> exists j :: 0 <= j < |vars| && vars[j].integral == k
    decreases |vars|
  {
    if |vars| > 0 {
      var n := |vars| - 1;
      IndexMapKeys(col, vars[..n]);
      var m0 := IndexMap(col, vars[..n]).value;
      var m := IndexMap(col, vars).value;
      assert m.Keys == m0.Keys + {vars[n].integral};
      forall k | k in m
        ensures exists j :: 0 <= j < |vars| && vars[j].integral == k
      {
        if k in m0 {
          var j :| 0 <= j < n && vars[..n][j].integral == k;
          assert vars[j].integral == k;
        }
      }
      forall j | 0 <= j < |vars|
        ensures vars[j].integral in m
      {
        if j < n {
          assert vars[..n][j] == vars[j];
        }
      }
    }
  }

  /** On success a key holds the column of the first variable with that integral
      (std::map::insert does not overwrite). */
  lemma {:induction false} IndexMapFirst(col: Columns, vars: seq<EnumVar>, j: nat)
    requires IndexMap(col, vars).Some?
    requires j < |vars|
    requires forall i :: 0 <= i < j ==> vars[i].integral != vars[j].integral
    ensures vars[j].integral in IndexMap(col, vars).value
    ensures IndexMap(col, vars).value[vars[j].integral] == FirstIndex(col, vars[j].name)
    decreases |vars|
  {
    var n := |vars| - 1;
    var m0 := IndexMap(col, vars[..n]).value;
    if j < n {
      assert vars[..n][j] == vars[j];
      assert forall i :: 0 <= i < j ==> vars[..n][i] == vars[i];
      IndexMapFirst(col, vars[..n], j);
    } else {
      IndexMapKeys(col, vars[..n]);
      assert forall i :: 0 <= i < n ==> vars[..n][i] == vars[i];
      assert vars[j].integral !in m0;
    }
  }

  // ---------------------------------------------------------------------------
  // setEstimates

  /** The estimate row forwarded for one input row: column idx[i] for i = 0..size-1,
      or the std::out_of_range of the first missing index or column. */
  function PickColumns(row: Columns, idx: map<int, int>, size: nat): (r: Result<Columns>)
    ensures r.Success? ==> |r.value| == size
    decreases size
  {
    if size == 0 then Success([])
    else
      match PickColumns(row, idx, size - 1)
      case Fail(e) => Fail(e)
      case Success(est) =>
        var i := size - 1;
        if i !in idx then Fail(IndexOutOfRange(i))
        else if !(0 <= idx[i] < |row|) then Fail(IndexOutOfRange(idx[i]))
        else Success(est + [row[idx[i]]])
  }

  /** What setEstimates forwards, in row order: the GEO ID and the picked columns
      of every row whose first field names a known metro. */
  function Forwarded(rows: seq<Columns>, metros: set<string>, idx: map<int, int>, size: nat)
    : Result<seq<(string, Columns)>>
    requires forall i :: 0 <= i < |rows| ==> |rows[i]| > 0
    decreases |rows|
  {
    if |rows| == 0 then Success([])
    else
      var n := |rows| - 1;
      match Forwarded(rows[..n], metros, idx, size)
      case Fail(e) => Fail(e)
      case Success(done) =>
        if rows[n][0] !in metros then Success(done)
        else
          match PickColumns(rows[n], idx, size)
          case Fail(e) => Fail(e)
          case Success(est) => Success(done + [(rows[n][0], est)])
  }

  /** The rows of known metros, in order. */
  function KnownRows(rows: seq<Columns>, metros: set<string>): (r: seq<Columns>)
    requires forall i :: 0 <= i < |rows| ==> |rows[i]| > 0
    ensures forall k :: 0 <= k < |r| ==> |r[k]| > 0 && r[k][0] in metros
    decreases |rows|
  {
    if |rows| == 0 then []
    else
      var n := |rows| - 1;
      KnownRows(rows[..n], metros) + (if rows[n][0] in metros then [rows[n]] else [])
  }

  /** setEstimates: the rows of unknown GEO IDs are skipped; every other row sends
      its picked columns to its metro. A row is never empty (front() is applied to
      it). */
  method SetEstimates(rows: seq<Columns>, metros: set<string>, idx: map<int, int>, size: nat)
    returns (r: Result<seq<(string, Columns)>>)
    requires forall i :: 0 <= i < |rows| ==> |rows[i]| > 0
    ensures r == Forwarded(rows, metros, idx, size)
  {
    var sent: seq<(string, Columns)> := [];
    var k := 0;
    while k < |rows|
      invariant 0 <= k <= |rows|
      invariant Forwarded(rows[..k], metros, idx, size) == Success(sent)
    {
      assert rows[..k + 1][..k] == rows[..k];
      var geoID := rows[k][0];
      if geoID in metros {
        var est: Columns := [];
        var i := 0;
        while i < size
          invariant 0 <= i <= size
          invariant PickColumns(rows[k], idx, i) == Success(est)
        {
          if i !in idx || !(0 <= idx[i] < |rows[k]|) {
            PickColumnsStaysFailed(rows[k], idx, i + 1, size);
            ForwardedStaysFailed(rows, metros, idx, size, k + 1);
            return Fail(PickColumns(rows[k], idx, size).error);
          }
          est := est + [rows[k][idx[i]]];
          i := i + 1;
        }
        sent := sent + [(geoID, est)];
      }
      k := k + 1;
    }
    assert rows[..k] == rows;
    r := Success(sent);
  }

  /** A failed pick stays failed, with the same error, for more columns. */
  lemma {:induction false} PickColumnsStaysFailed(row: Columns, idx: map<int, int>, i: nat, size: nat)
    requires i <= size
    requires PickColumns(row, idx, i).Fail?
    ensures PickColumns(row, idx, size) == PickColumns(row, idx, i)
    decreases size - i
  {
    if i < size {
      PickColumnsStaysFailed(row, idx, i + 1, size);
    }
  }

  /** A failed forward stays failed, with the same error, for more rows. */
  lemma {:induction false} ForwardedStaysFailed(rows: seq<Columns>, metros: set<string>, idx: map<int, int>,
                                                size: nat, k: nat)
    requires forall i :: 0 <= i < |rows| ==> |rows[i]| > 0
    requires k <= |rows|
    requires Forwarded(rows[..k], metros, idx, size).Fail?
    ensures Forwarded(rows, metros, idx, size) == Forwarded(rows[..k], metros, idx, size)
    decreases |rows| - k
  {
    if k < |rows| {
      assert rows[..k + 1][..k] == rows[..k];
      ForwardedStaysFailed(rows, metros, idx, size, k + 1);
    } else {
      assert rows[..k] == rows;
    }
  }

  /** A successful pick holds column idx[i] at position i. */
  lemma {:induction false} PickColumnsValues(row: Columns, idx: map<int, int>, size: nat)
    requires PickColumns(row, idx, size).Success?
    ensures forall i :: 0 <= i < size ==>
      i in idx && 0 <= idx[i] < |row| && PickColumns(row, idx, size).value[i] == row[idx[i]]
    decreases size
  {
    if size > 0 {
      PickColumnsValues(row, idx, size - 1);
    }
  }

  /** On success one estimate row goes to each known metro row, in order, under that
      row's GEO ID, holding exactly the size columns the index map picks. */
  lemma {:induction false} ForwardedRows(rows: seq<Columns>, metros: set<string>, idx: map<int, int>, size: nat)
    requires forall i :: 0 <= i < |rows| ==> |rows[i]| > 0
    requires Forwarded(rows, metros, idx, size).Success?
    ensures var sent := Forwarded(rows, metros, idx, size).value;
      var known := KnownRows(rows, metros);
      && |sent| == |known|
      && forall k :: 0 <= k < |sent| ==>
           && sent[k].0 == known[k][0] && |sent[k].1| == size
           && forall i :: 0 <= i < size ==> i in idx && 0 <= idx[i] < |known[k]| && sent[k].1[i] == known[k][idx[i]]
    decreases |rows|
  {
    if |rows| > 0 {
      var n := |rows| - 1;
      assert forall i :: 0 <= i < n ==> rows[..n][i] == rows[i];
      ForwardedRows(rows[..n], metros, idx, size);
      var sent0, known0 := Forwarded(rows[..n], metros, idx, size).value, KnownRows(rows[..n], metros);
      if rows[n][0] in metros {
        var est := PickColumns(rows[n], idx, size).value;
        PickColumnsValues(rows[n], idx, size);
        var sent, known := sent0 + [(rows[n][0], est)], known0 + [rows[n]];
        assert Forwarded(rows, metros, idx, size).value == sent;
        assert KnownRows(rows, metros) == known;
        forall k | 0 <= k < |sent|
          ensures && sent[k].0 == known[k][0] && |sent[k].1| == size
                  && forall i :: 0 <= i < size ==> i in idx && 0 <= idx[i] < |known[k]| && sent[k].1[i] == known[k][idx[i]]
        {
          if k < |sent0| {
            assert sent[k] == sent0[k] && known[k] == known0[k];
          }
        }
      } else {
        assert Forwarded(rows, metros, idx, size).value == sent0;
        assert KnownRows(rows, metros) == known0 + [] == known0;
      }
    }
  }
}
