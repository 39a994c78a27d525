/** Optional values and success/failure results used where the C++ code returns a
    sentinel, leaves a field unassigned, throws or calls exit(). */
module Wrappers {

  datatype Option<T> = None | Some(value: T) {
    predicate IsSome() { this.Some? }

    function GetOr(default: T): T {
      match this
      case Some(v) => v
      case None => default
    }
  }

  /** Why a computation stopped where the C++ code throws or calls exit(). */
  datatype Failure =
    | MissingKey(key: string)       // std::map::at / std::vector::at out of range
    | IndexOutOfRange(index: int)
    | NotANumber(text: string)      // std::stoi throws std::invalid_argument
    | DimensionMismatch             // IPU.cpp rejects mismatched inputs
    | InvalidData(reason: string)   // explicit error message followed by exit()

  datatype Result<T> = Success(value: T) | Fail(error: Failure) {
    predicate IsSuccess() { this.Success? }

    /** The members that let `:-` stop at the first failure, as a thrown exception does. */
    predicate IsFailure() { this.Fail? }

    function PropagateFailure<U>(): Result<U>
      requires this.Fail?
    {
      Fail(this.error)
    }

    function Extract(): T
      requires this.Success?
    {
      this.value
    }
  }

  /** std::map::at: the value under the key, or the out_of_range it throws. */
  function At(m: map<string, int>, key: string): (r: Result<int>)
    ensures r.Success? <==> key in m
    ensures r.Success? ==> r.value == m[key]
    ensures r.Fail? ==> r.error == MissingKey(key)
  {
    if key in m then Success(m[key]) else Fail(MissingKey(key))
  }

  /** std::map::at applied to every label in turn: the codes, or the first missing label. */
  function LookupAll(m: map<string, int>, labels: seq<string>): (r: Result<seq<int>>)
    ensures r.Success? <==> forall i :: 0 <= i < |labels| ==> labels[i] in m
    ensures r.Success? ==> |r.value| == |labels|
    ensures r.Success? ==> forall i :: 0 <= i < |labels| ==> r.value[i] == m[labels[i]]
    ensures r.Fail? ==> exists i :: 0 <= i < |labels| && labels[i] !in m && r.error == MissingKey(labels[i])
  {
    if |labels| == 0 then Success([])
    else if labels[0] !in m then Fail(MissingKey(labels[0]))
    else
      match LookupAll(m, labels[1..])
      case Fail(e) => Fail(e)
      case Success(rest) =>
        assert forall i :: 1 <= i < |labels| ==> labels[i] == labels[1..][i - 1];
        Success([m[labels[0]]] + rest)
  }

  /** A set with elements has one to pick: what iterating over a map's keys in
      some order relies on. */
  lemma SomeElement<T>(s: set<T>) returns (w: T)
    requires |s| > 0
    ensures w in s
  {
    if forall x :: x !in s {
      assert false;
    }
    w :| w in s;
  }

  /** A non-empty finite set of integers has a least element. */
  lemma {:induction false} HasMinimum(s: set<int>)
    requires |s| > 0
    ensures exists m :: m in s && forall x :: x in s ==> m <= x
    decreases |s|
  {
    var w := SomeElement(s);
    if s != {w} {
      var rest := s - {w};
      HasMinimum(rest);
      var m :| m in rest && forall x :: x in rest ==> m <= x;
      var least := if w < m then w else m;
      forall x | x in s ensures least <= x {
        if x != w {
          assert x in rest;
        }
      }
      assert least in s;
    } else {
      assert forall x :: x in s ==> w <= x;
    }
  }

  /** The least element of a non-empty set of integers. */
  function SetMin(s: set<int>): (m: int)
    requires |s| > 0
    ensures m in s && forall x :: x in s ==> m <= x
  {
    HasMinimum(s);
    var m :| m in s && forall x :: x in s ==> m <= x;
    m
  }

  /** The keys of a std::map<int, ...> in its iteration order: ascending. */
  function SortedKeys(s: set<int>): (r: seq<int>)
    ensures |r| == |s|
    ensures forall x :: x in s <==> x in r
    ensures forall i, j :: 0 <= i < j < |r| ==> r[i] < r[j]
    decreases |s|
  {
    if |s| == 0 then []
    else
      var m := SetMin(s);
      [m] + SortedKeys(s - {m})
  }
}
