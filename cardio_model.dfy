/** CardioModel (src/CardioModel.cpp): the eligible agents of a metro area, keyed by
    NHANES person type, and the allocation of risk strata to them. For each person
    type the parameter file gives a share per risk stratum; the shares are scaled by
    the number of agents of that type, rounded with the remainder carry of module
    Rounding (the carry running on from one person type to the next), and then each
    agent of the type, in turn, takes one unit from the first stratum of a shuffled
    list that still has units, strata with no units left being erased. The assigned
    numbers are finally compared with the rounded targets. */
module CardioModel {
  import opened RealSums
  import opened Rounding
  import opened Wrappers
  import opened Text
  import opened Acs
  import opened PersonPums
  import opened CountPredicates
  import CA = CardioAgent
  import Counters

  /** A PairDD of a risk-strata vector: first the share (later the count), second the
      stratum number, both doubles. */
  datatype Stratum = Stratum(count: real, riskType: real)

  /** One entry of the ProbMapRf: a person-type key and its strata vector. */
  datatype StrataEntry = StrataEntry(personType: string, strata: seq<Stratum>)

  /** The counts of a strata vector. */
  function Counts(s: seq<Stratum>): (r: seq<real>)
    ensures |r| == |s| && forall i :: 0 <= i < |s| ==> r[i] == s[i].count
  {
    seq(|s|, i requires 0 <= i < |s| => s[i].count)
  }

  function AsReals(s: seq<int>): (r: seq<real>)
    ensures |r| == |s| && forall i :: 0 <= i < |s| ==> r[i] == s[i] as real
  {
    seq(|s|, i requires 0 <= i < |s| => s[i] as real)
  }

  lemma CountsAppend(a: seq<Stratum>, b: seq<Stratum>)
    ensures Counts(a + b) == Counts(a) + Counts(b)
  {
    assert forall i :: 0 <= i < |a + b| ==> Counts(a + b)[i] == (Counts(a) + Counts(b))[i];
  }

  lemma AsRealsAppend(a: seq<int>, b: seq<int>)
    ensures AsReals(a + b) == AsReals(a) + AsReals(b)
  {
    assert forall i :: 0 <= i < |a + b| ==> AsReals(a + b)[i] == (AsReals(a) + AsReals(b))[i];
  }

  /** The sum of integers, taken as reals, is the integer sum. */
  lemma {:induction false} SumAsReals(s: seq<int>)
    ensures Sum(AsReals(s)) == IntSum(s) as real
    decreases |s|
  {
    if |s| > 0 {
      var n := |s| - 1;
      assert AsReals(s)[..n] == AsReals(s[..n]);
      SumAsReals(s[..n]);
    }
  }

  /** CardioModel::rounding on one strata vector: every count is replaced by its
      rounding under the carry adj, which is passed on; the stratum numbers stay. */
  method RoundCounts(popCount: seq<Stratum>, adj: real) returns (rounded: seq<Stratum>, adjOut: real)
    ensures |rounded| == |popCount|
    ensures RiskTypes(rounded) == RiskTypes(popCount)
    ensures Counts(rounded) == AsReals(RoundAll(Counts(popCount), adj))
    ensures adjOut == CarryAfter(Counts(popCount), adj)
  {
    ghost var ws := Counts(popCount);
    rounded := popCount;
    adjOut := adj;
    var i := 0;
    while i < |popCount|
      invariant 0 <= i <= |popCount| && |rounded| == |popCount|
      invariant forall k :: 0 <= k < |popCount| ==> rounded[k].riskType == popCount[k].riskType
      invariant forall k :: i <= k < |popCount| ==> rounded[k] == popCount[k]
      invariant forall k :: 0 <= k < i ==> rounded[k].count == RoundAll(ws[..i], adj)[k] as real
      invariant adjOut == CarryAfter(ws[..i], adj)
    {
      RoundAllPrefix(ws, i, adj);
      var w := rounded[i].count;
      var diff := adjOut + (w - Floor(w) as real);
      if diff >= 0.5 {
        adjOut := diff - 1.0;
        rounded := rounded[i := rounded[i].(count := Ceil(w) as real)];
      } else {
        adjOut := diff;
        rounded := rounded[i := rounded[i].(count := Floor(w) as real)];
      }
      i := i + 1;
    }
    assert ws[..i] == ws;
    assert forall k :: 0 <= k < |rounded| ==> Counts(rounded)[k] == AsReals(RoundAll(ws, adj))[k];
    assert RiskTypes(rounded) == RiskTypes(popCount);
  }

  /** Each rounded count is the floor or the ceiling of the count, and from a carry in
      [-0.5, 0.5) the rounded total plus the new carry is the real total plus the old
      carry, the new carry staying in range. */
  lemma RoundCountsProperties(popCount: seq<Stratum>, adj: real)
    ensures forall i :: 0 <= i < |popCount| ==>
      AsReals(RoundAll(Counts(popCount), adj))[i] == Floor(popCount[i].count) as real ||
      AsReals(RoundAll(Counts(popCount), adj))[i] == Ceil(popCount[i].count) as real
    ensures CarryInRange(adj) ==>
      CarryInRange(CarryAfter(Counts(popCount), adj)) &&
      Sum(AsReals(RoundAll(Counts(popCount), adj))) + CarryAfter(Counts(popCount), adj) ==
      Sum(Counts(popCount)) + adj
  {
    RoundAllFloorOrCeil(Counts(popCount), adj);
    SumAsReals(RoundAll(Counts(popCount), adj));
    if CarryInRange(adj) {
      RoundAllConserves(Counts(popCount), adj);
    }
  }

  /** agentsPtrMap.count(key): the number of agents of a person type. */
  function PopSize(agentKeys: seq<string>, key: string): nat
  {
    CountIf(agentKeys, (k: string) => k == key)
  }

  /** A strata vector whose shares are multiplied by the population size. */
  function ScaledStrata(s: seq<Stratum>, popSize: real): (r: seq<Stratum>)
    ensures |r| == |s|
    ensures forall i :: 0 <= i < |s| ==> r[i] == Stratum(popSize * s[i].count, s[i].riskType)
  {
    seq(|s|, i requires 0 <= i < |s| => Stratum(popSize * s[i].count, s[i].riskType))
  }

  /** The scaling loop of setRiskFactors for one person type (rf->first = pop_size * rf->first). */
  method ScaleStrata(s: seq<Stratum>, popSize: real) returns (r: seq<Stratum>)
    ensures r == ScaledStrata(s, popSize)
    ensures RiskTypes(r) == RiskTypes(s)
  {
    r := s;
    var i := 0;
    while i < |r|
      invariant 0 <= i <= |r| && |r| == |s|
      invariant forall k :: 0 <= k < i ==> r[k] == Stratum(popSize * s[k].count, s[k].riskType)
      invariant forall k :: i <= k < |r| ==> r[k] == s[k]
    {
      r := r[i := r[i].(count := popSize * r[i].count)];
      i := i + 1;
    }
    assert RiskTypes(r) == RiskTypes(s);
  }

  /** The scaled counts add up to the population size times the total share; with
      shares that sum to one they add up to the population size. */
  lemma ScaledTotal(s: seq<Stratum>, popSize: real)
    ensures Sum(Counts(ScaledStrata(s, popSize))) == popSize * Sum(Counts(s))
    ensures Sum(Counts(s)) == 1.0 ==> Sum(Counts(ScaledStrata(s, popSize))) == popSize
  {
    assert forall i :: 0 <= i < |s| ==> Counts(ScaledStrata(s, popSize))[i] == Scale(Counts(s), popSize)[i];
    assert Counts(ScaledStrata(s, popSize)) == Scale(Counts(s), popSize);
    SumScale(Counts(s), popSize);
    assert Sum(Counts(s)) * popSize == popSize * Sum(Counts(s));
  }

  /** All counts of a ProbMapRf, in iteration order, one person type after the other. */
  function AllCounts(es: seq<StrataEntry>): seq<real>
  {
    if |es| == 0 then [] else AllCounts(es[..|es| - 1]) + Counts(es[|es| - 1].strata)
  }

  /** The counts of one person type after its scaling loop. */
  function EntryCounts(e: StrataEntry, agentKeys: seq<string>): seq<real>
  {
    Counts(ScaledStrata(e.strata, PopSize(agentKeys, e.personType) as real))
  }

  /** All scaled counts of a ProbMapRf, in iteration order. */
  function ScaledCounts(es: seq<StrataEntry>, agentKeys: seq<string>): seq<real>
  {
    if |es| == 0 then [] else ScaledCounts(es[..|es| - 1], agentKeys) + EntryCounts(es[|es| - 1], agentKeys)
  }

  /** The stratum numbers of a strata vector. */
  function RiskTypes(s: seq<Stratum>): (r: seq<real>)
    ensures |r| == |s| && forall i :: 0 <= i < |s| ==> r[i] == s[i].riskType
  {
    seq(|s|, i requires 0 <= i < |s| => s[i].riskType)
  }

  /** The keys of a ProbMapRf with the stratum numbers of each. */
  function Shape(es: seq<StrataEntry>): seq<(string, seq<real>)>
  {
    if |es| == 0 then [] else Shape(es[..|es| - 1]) + [(es[|es| - 1].personType, RiskTypes(es[|es| - 1].strata))]
  }

  lemma ShapeSnoc(a: seq<StrataEntry>, x: StrataEntry)
    ensures Shape(a + [x]) == Shape(a) + [(x.personType, RiskTypes(x.strata))]
  {
    assert (a + [x])[..|a|] == a;
  }

  /** The body of the first loop of setRiskFactors for one person type: scaling by
      the number of agents of the type, then rounding from the carry so far. */
  method RoundEntry(e: StrataEntry, agentKeys: seq<string>, adj: real) returns (r: StrataEntry, adj': real)
    ensures r.personType == e.personType && RiskTypes(r.strata) == RiskTypes(e.strata)
    ensures Counts(r.strata) == AsReals(RoundAll(EntryCounts(e, agentKeys), adj))
    ensures adj' == CarryAfter(EntryCounts(e, agentKeys), adj)
  {
    var scaled := ScaleStrata(e.strata, PopSize(agentKeys, e.personType) as real);
    var rounded;
    rounded, adj' := RoundCounts(scaled, adj);
    r := StrataEntry(e.personType, rounded);
  }

  /** The first loop of setRiskFactors: every person type's shares are scaled by its
      number of agents and rounded, adj being declared once before the loop and
      passed by reference. The whole map is therefore rounded as one vector, from a
      zero carry. */
  method ScaleAndRound(es: seq<StrataEntry>, agentKeys: seq<string>) returns (rounded: seq<StrataEntry>, adj: real)
    ensures Shape(rounded) == Shape(es)
    ensures AllCounts(rounded) == AsReals(RoundAll(ScaledCounts(es, agentKeys), 0.0))
    ensures adj == CarryAfter(ScaledCounts(es, agentKeys), 0.0)
    ensures |rounded| == |es|
    ensures forall k :: 0 <= k < |es| ==> RoundedAt(rounded, es, agentKeys, k)
  {
    rounded := [];
    adj := 0.0;
    var i := 0;
    while i < |es|
      invariant 0 <= i <= |es|
      invariant Shape(rounded) == Shape(es[..i])
      invariant AllCounts(rounded) == AsReals(RoundAll(ScaledCounts(es[..i], agentKeys), 0.0))
      invariant adj == CarryAfter(ScaledCounts(es[..i], agentKeys), 0.0)
      invariant |rounded| == i
      invariant forall k :: 0 <= k < i ==> RoundedAt(rounded, es, agentKeys, k)
    {
      var r, adj' := RoundEntry(es[i], agentKeys, adj);
      EntryPrefixStep(es, agentKeys, i);
      ThreadStep(rounded, r, ScaledCounts(es[..i], agentKeys), EntryCounts(es[i], agentKeys));
      ShapeSnoc(rounded, r);
      RoundedAtSnoc(rounded, r, es, agentKeys);
      rounded := rounded + [r];
      adj := adj';
      i := i + 1;
    }
    assert es[..i] == es;
  }

  /** The carry with which the person type at index k of a ProbMapRf is rounded. */
  function CarryBefore(es: seq<StrataEntry>, agentKeys: seq<string>, k: nat): real
    requires k <= |es|
  {
    CarryAfter(ScaledCounts(es[..k], agentKeys), 0.0)
  }

  /** Entry k of the rounded map holds the scaled counts of person type k rounded
      from the carry the earlier types left. */
  predicate RoundedAt(rounded: seq<StrataEntry>, es: seq<StrataEntry>, agentKeys: seq<string>, k: nat)
  {
    k < |rounded| && k < |es| &&
    Counts(rounded[k].strata) == AsReals(RoundAll(EntryCounts(es[k], agentKeys), CarryBefore(es, agentKeys, k)))
  }

  lemma RoundedAtSnoc(rounded: seq<StrataEntry>, r: StrataEntry, es: seq<StrataEntry>, agentKeys: seq<string>)
    requires |rounded| < |es|
    requires forall k :: 0 <= k < |rounded| ==> RoundedAt(rounded, es, agentKeys, k)
    requires Counts(r.strata) == AsReals(RoundAll(EntryCounts(es[|rounded|], agentKeys), CarryBefore(es, agentKeys, |rounded|)))
    ensures forall k :: 0 <= k <= |rounded| ==> RoundedAt(rounded + [r], es, agentKeys, k)
  {
    forall k | 0 <= k <= |rounded|
      ensures RoundedAt(rounded + [r], es, agentKeys, k)
    {
      if k < |rounded| {
        assert RoundedAt(rounded, es, agentKeys, k);
        assert (rounded + [r])[k] == rounded[k];
      }
    }
  }

  /** Extending a prefix of a ProbMapRf by its next person type. */
  lemma EntryPrefixStep(es: seq<StrataEntry>, agentKeys: seq<string>, i: nat)
    requires i < |es|
    ensures ScaledCounts(es[..i + 1], agentKeys) == ScaledCounts(es[..i], agentKeys) + EntryCounts(es[i], agentKeys)
    ensures Shape(es[..i + 1]) == Shape(es[..i]) + [(es[i].personType, RiskTypes(es[i].strata))]
  {
    assert es[..i + 1][..i] == es[..i];
  }

  /** One person type more in ScaleAndRound. */
  lemma ThreadStep(rounded: seq<StrataEntry>, r: StrataEntry, a: seq<real>, b: seq<real>)
    requires AllCounts(rounded) == AsReals(RoundAll(a, 0.0))
    requires Counts(r.strata) == AsReals(RoundAll(b, CarryAfter(a, 0.0)))
    ensures AllCounts(rounded + [r]) == AsReals(RoundAll(a + b, 0.0))
    ensures CarryAfter(b, CarryAfter(a, 0.0)) == CarryAfter(a + b, 0.0)
  {
    assert (rounded + [r])[..|rounded|] == rounded;
    RoundAllAppend(a, b, 0.0);
    AsRealsAppend(RoundAll(a, 0.0), RoundAll(b, CarryAfter(a, 0.0)));
  }

  /** Every count is a whole, non-negative number: what rounding non-negative shares
      leaves. */
  predicate WholeCounts(s: seq<Stratum>)
  {
    forall i :: 0 <= i < |s| ==> 0.0 <= s[i].count && s[i].count == Floor(s[i].count) as real
  }

  /** One agent's turn in the assignment loop: strata whose count is zero are erased
      from the front; the first stratum with a non-zero count gives the agent its
      stratum number and loses one unit, its count going through an int on the way.
      When every stratum has been erased the agent gets none. */
  function Consume(s: seq<Stratum>): (r: (seq<Stratum>, Option<int>))
    decreases |s|
  {
    if |s| == 0 then ([], None)
    else if s[0].count == 0.0 then Consume(s[1..])
    else ([s[0].(count := (Trunc(s[0].count) - 1) as real)] + s[1..], Some(Trunc(s[0].riskType)))
  }

  /** The inner loop over riskIdx for one agent, with its erase and its break. */
  method TakeUnit(s: seq<Stratum>) returns (rest: seq<Stratum>, riskType: Option<int>)
    ensures (rest, riskType) == Consume(s)
  {
    rest := s;
    while |rest| > 0
      invariant Consume(rest) == Consume(s)
      decreases |rest|
    {
      if rest[0].count == 0.0 {
        rest := rest[1..];
      } else {
        var riskCount := Trunc(rest[0].count);
        riskType := Some(Trunc(rest[0].riskType));
        riskCount := riskCount - 1;
        rest := [rest[0].(count := riskCount as real)] + rest[1..];
        return;
      }
    }
    riskType := None;
  }

  /** The sum of f over a strata vector, from the front. */
  function Weight(s: seq<Stratum>, f: Stratum -> real): real
  {
    if |s| == 0 then 0.0 else f(s[0]) + Weight(s[1..], f)
  }

  /** The units a stratum holds for stratum number t. */
  function UnitsFor(t: int): Stratum -> real
  {
    (x: Stratum) => if Trunc(x.riskType) == t then x.count else 0.0
  }

  /** The units left in the strata numbered t. */
  function Units(s: seq<Stratum>, t: int): real
  {
    Weight(s, UnitsFor(t))
  }

  /** All units left. */
  function TotalUnits(s: seq<Stratum>): real
  {
    Weight(s, (x: Stratum) => x.count)
  }

  lemma {:induction false} WeightAppend(a: seq<Stratum>, b: seq<Stratum>, f: Stratum -> real)
    ensures Weight(a + b, f) == Weight(a, f) + Weight(b, f)
    decreases |a|
  {
    if |a| == 0 {
      assert a + b == b;
    } else {
      assert (a + b)[1..] == a[1..] + b;
      WeightAppend(a[1..], b, f);
    }
  }

  lemma MultisetCancel<T>(x: T, p: multiset<T>, q: multiset<T>)
    requires multiset{x} + p == multiset{x} + q
    ensures p == q
  {
    forall y
      ensures p[y] == q[y]
    {
      assert (multiset{x} + p)[y] == (multiset{x} + q)[y];
    }
  }

  /** Taking out the element at j. */
  lemma MultisetRemoveAt(b: seq<Stratum>, j: nat)
    requires j < |b|
    ensures multiset(b) == multiset{b[j]} + multiset(b[..j] + b[j + 1..])
  {
    var lo, hi := b[..j], b[j + 1..];
    assert b == lo + [b[j]] + hi;
    assert multiset(lo + hi) == multiset(lo) + multiset(hi);
  }

  lemma WeightRemoveAt(b: seq<Stratum>, j: nat, f: Stratum -> real)
    requires j < |b|
    ensures Weight(b, f) == f(b[j]) + Weight(b[..j] + b[j + 1..], f)
  {
    var lo, hi := b[..j], b[j + 1..];
    assert b == lo + ([b[j]] + hi);
    WeightAppend(lo, [b[j]] + hi, f);
    WeightAppend(lo, hi, f);
    assert ([b[j]] + hi)[1..] == hi;
  }

  /** Shuffling does not change any weight. */
  lemma {:induction false} WeightPermutation(a: seq<Stratum>, b: seq<Stratum>, f: Stratum -> real)
    requires multiset(a) == multiset(b)
    ensures Weight(a, f) == Weight(b, f)
    decreases |a|
  {
    if |a| == 0 {
      assert |b| == |multiset(b)| == 0;
    } else {
      assert a[0] in multiset(b);
      var j :| 0 <= j < |b| && b[j] == a[0];
      MultisetRemoveAt(b, j);
      WeightRemoveAt(b, j, f);
      assert a == [a[0]] + a[1..];
      assert multiset(a) == multiset{a[0]} + multiset(a[1..]);
      MultisetCancel(a[0], multiset(a[1..]), multiset(b[..j] + b[j + 1..]));
      WeightPermutation(a[1..], b[..j] + b[j + 1..], f);
    }
  }

  /** Unfolding a weight at the front of a vector whose head is replaced. */
  lemma WeightCons(x: Stratum, s: seq<Stratum>, f: Stratum -> real)
    ensures Weight([x] + s, f) == f(x) + Weight(s, f)
  {
    assert ([x] + s)[1..] == s;
  }

  /** Taking a unit from a whole count leaves a whole count one lower. */
  lemma TakeFromWhole(c: real)
    requires 0.0 < c && c == Floor(c) as real
    ensures (Trunc(c) - 1) as real == c - 1.0 && 0.0 <= c - 1.0
    ensures c - 1.0 == Floor(c - 1.0) as real
  {
  }

  /** An agent's turn moves exactly one unit, of the stratum it is given, out of the
      vector: for every stratum number t the units left plus the unit taken are the
      units before, and the counts stay whole. */
  lemma {:induction false} ConsumeUnits(s: seq<Stratum>, t: int)
    requires WholeCounts(s)
    ensures WholeCounts(Consume(s).0)
    ensures Units(Consume(s).0, t) + (if Consume(s).1 == Some(t) then 1.0 else 0.0) == Units(s, t)
    decreases |s|
  {
    if |s| > 0 {
      if s[0].count == 0.0 {
        ConsumeUnits(s[1..], t);
      } else {
        TakeFromWhole(s[0].count);
        var x := s[0].(count := (Trunc(s[0].count) - 1) as real);
        WeightCons(x, s[1..], UnitsFor(t));
        assert forall i :: 1 <= i < |s| ==> ([x] + s[1..])[i] == s[i];
      }
    }
  }

  lemma {:induction false} TotalUnitsNonNegative(s: seq<Stratum>)
    requires WholeCounts(s)
    ensures TotalUnits(s) >= 0.0
    decreases |s|
  {
    if |s| > 0 {
      TotalUnitsNonNegative(s[1..]);
    }
  }

  /** An agent gets a stratum exactly when some unit is left; the total then drops by
      one, and otherwise nothing is left at all. */
  lemma {:induction false} ConsumeTotal(s: seq<Stratum>)
    requires WholeCounts(s)
    ensures Consume(s).1.Some? <==> TotalUnits(s) != 0.0
    ensures TotalUnits(Consume(s).0) + (if Consume(s).1.Some? then 1.0 else 0.0) == TotalUnits(s)
    ensures Consume(s).1.None? ==> Consume(s).0 == []
    decreases |s|
  {
    if |s| > 0 {
      if s[0].count == 0.0 {
        ConsumeTotal(s[1..]);
      } else {
        TakeFromWhole(s[0].count);
        var x := s[0].(count := (Trunc(s[0].count) - 1) as real);
        WeightCons(x, s[1..], (y: Stratum) => y.count);
        TotalUnitsNonNegative(s[1..]);
      }
    }
  }

  /** boost::range::random_shuffle, given as a parameter: for the agent at index a of
      the agent list, the order in which the strata are tried. */
  ghost predicate IsShuffle(shuffle: (nat, seq<Stratum>) -> seq<Stratum>)
  {
    forall a, x :: multiset(shuffle(a, x)) == multiset(x)
  }

  /** Whole counts stay whole under a shuffle. */
  lemma WholeCountsPermutation(a: seq<Stratum>, b: seq<Stratum>)
    requires multiset(a) == multiset(b) && WholeCounts(a)
    ensures WholeCounts(b)
  {
    forall i | 0 <= i < |b|
      ensures 0.0 <= b[i].count && b[i].count == Floor(b[i].count) as real
    {
      assert b[i] in multiset(a);
    }
  }

  /** The loop over the agents of one person type, in their multimap order: each
      agent shuffles the strata left and takes one unit. The result is the stratum
      each agent got, if any, and the strata left. */
  function AssignAll(s: seq<Stratum>, agents: seq<nat>, shuffle: (nat, seq<Stratum>) -> seq<Stratum>)
    : (r: (seq<Option<int>>, seq<Stratum>))
    ensures |r.0| == |agents|
    decreases |agents|
  {
    if |agents| == 0 then ([], s)
    else
      var before := AssignAll(s, agents[..|agents| - 1], shuffle);
      var turn := Consume(shuffle(agents[|agents| - 1], before.1));
      (before.0 + [turn.1], turn.0)
  }

  /** The number of agents given stratum t. */
  function Chosen(choices: seq<Option<int>>, t: int): nat
  {
    if |choices| == 0 then 0
    else Chosen(choices[..|choices| - 1], t) + (if choices[|choices| - 1] == Some(t) then 1 else 0)
  }

  /** The number of agents given some stratum. */
  function Assigned(choices: seq<Option<int>>): nat
  {
    if |choices| == 0 then 0
    else Assigned(choices[..|choices| - 1]) + (if choices[|choices| - 1].Some? then 1 else 0)
  }

  /** The agent loop of setRiskFactors for one person type, with the tally
      pop_risk_strata of the agents given each stratum number 1..|s|. */
  method AssignPersonType(s: seq<Stratum>, key: string, agents: seq<nat>, list: seq<CA.CardioFields>,
                          shuffle: (nat, seq<Stratum>) -> seq<Stratum>)
    returns (choices: seq<Option<int>>, rest: seq<Stratum>, popRiskStrata: seq<int>,
             list': seq<CA.CardioFields>, hits: seq<string>)
    requires forall j :: 0 <= j < |agents| ==> agents[j] < |list|
    ensures (choices, rest) == AssignAll(s, agents, shuffle)
    ensures |popRiskStrata| == |s|
    ensures forall i :: 0 <= i < |s| ==> popRiskStrata[i] == Chosen(choices, i + 1)
    ensures list' == ApplyChoices(list, agents, choices)
    ensures hits == HitKeys(key, choices)
  {
    choices, rest, list', hits := [], s, list, [];
    popRiskStrata := seq(|s|, i => 0);
    var ai := 0;
    while ai < |agents|
      invariant 0 <= ai <= |agents| && |popRiskStrata| == |s| && |list'| == |list|
      invariant (choices, rest) == AssignAll(s, agents[..ai], shuffle)
      invariant forall i :: 0 <= i < |s| ==> popRiskStrata[i] == Chosen(choices, i + 1)
      invariant list' == ApplyChoices(list, agents[..ai], choices)
      invariant hits == HitKeys(key, choices)
    {
      var shuffled := shuffle(agents[ai], rest);
      var t;
      rest, t := TakeUnit(shuffled);
      if t.Some? {
        list' := list'[agents[ai] := list'[agents[ai]].(rfStrata := t.value)];
        hits := hits + [IntToString(t.value) + key];
      }
      TallyStep(popRiskStrata, choices, t);
      popRiskStrata := Bump(popRiskStrata, t);
      ApplyChoicesSnoc(list, agents, choices, t, ai);
      HitKeysSnoc(key, choices, t);
      assert agents[..ai + 1][..ai] == agents[..ai];
      choices := choices + [t];
      ai := ai + 1;
    }
    assert agents[..ai] == agents;
  }

  /** pop_risk_strata[risk_type - 1]++ for an agent whose new stratum is positive. */
  function Bump(tally: seq<int>, t: Option<int>): (r: seq<int>)
    ensures |r| == |tally|
    ensures forall i :: 0 <= i < |tally| ==> r[i] == tally[i] + (if t == Some(i + 1) then 1 else 0)
  {
    if t.Some? && 0 < t.value <= |tally| then tally[t.value - 1 := tally[t.value - 1] + 1] else tally
  }

  lemma TallyStep(tally: seq<int>, choices: seq<Option<int>>, t: Option<int>)
    requires forall i :: 0 <= i < |tally| ==> tally[i] == Chosen(choices, i + 1)
    ensures forall i :: 0 <= i < |tally| ==> Bump(tally, t)[i] == Chosen(choices + [t], i + 1)
  {
    ChosenSnoc(choices, t);
  }

  lemma ChosenSnoc(choices: seq<Option<int>>, c: Option<int>)
    ensures forall t :: Chosen(choices + [c], t) == Chosen(choices, t) + (if c == Some(t) then 1 else 0)
    ensures Assigned(choices + [c]) == Assigned(choices) + (if c.Some? then 1 else 0)
  {
    assert (choices + [c])[..|choices|] == choices;
  }

  /** A total of whole counts is whole. */
  lemma {:induction false} TotalUnitsWhole(s: seq<Stratum>)
    requires WholeCounts(s)
    ensures TotalUnits(s) == Floor(TotalUnits(s)) as real && TotalUnits(s) >= 0.0
    decreases |s|
  {
    if |s| > 0 {
      TotalUnitsWhole(s[1..]);
      var a, b := Floor(s[0].count), Floor(TotalUnits(s[1..]));
      assert TotalUnits(s) == (a + b) as real;
    }
  }

  /** One agent's turn inside AssignConserves. */
  lemma ConserveStep(prev: seq<Stratum>, shuffled: seq<Stratum>, t: int, before: nat, units: real)
    requires WholeCounts(prev) && multiset(shuffled) == multiset(prev)
    requires Units(prev, t) + before as real == units
    ensures WholeCounts(Consume(shuffled).0)
    ensures Units(Consume(shuffled).0, t) + (before + if Consume(shuffled).1 == Some(t) then 1 else 0) as real == units
  {
    WholeCountsPermutation(prev, shuffled);
    WeightPermutation(prev, shuffled, UnitsFor(t));
    ConsumeUnits(shuffled, t);
  }

  /** A shuffle keeps the counts whole and the total. */
  lemma ShuffleTotal(prev: seq<Stratum>, shuffled: seq<Stratum>)
    requires WholeCounts(prev) && multiset(shuffled) == multiset(prev)
    ensures WholeCounts(shuffled) && TotalUnits(shuffled) == TotalUnits(prev)
  {
    WholeCountsPermutation(prev, shuffled);
    WeightPermutation(prev, shuffled, (x: Stratum) => x.count);
  }

  /** One agent's turn inside AssignTotal. */
  lemma TotalStep(prev: seq<Stratum>, shuffled: seq<Stratum>, before: nat, total: real, n: nat)
    requires WholeCounts(prev) && multiset(shuffled) == multiset(prev)
    requires TotalUnits(prev) + before as real == total
    requires before as real == if total <= n as real then total else n as real
    requires total == Floor(total) as real
    ensures var after := before + if Consume(shuffled).1.Some? then 1 else 0;
      && TotalUnits(Consume(shuffled).0) + after as real == total
      && after as real == if total <= (n + 1) as real then total else (n + 1) as real
  {
    ShuffleTotal(prev, shuffled);
    ConsumeTotal(shuffled);
    if total > n as real {
      assert Floor(total) >= n + 1;
    }
  }

  /** Unit conservation over a whole person type: for every stratum number t, the
      units left plus the agents given t are the rounded units of t. */
  lemma {:induction false} AssignConserves(s: seq<Stratum>, agents: seq<nat>,
                                           shuffle: (nat, seq<Stratum>) -> seq<Stratum>, t: int)
    requires WholeCounts(s) && IsShuffle(shuffle)
    ensures WholeCounts(AssignAll(s, agents, shuffle).1)
    ensures Units(AssignAll(s, agents, shuffle).1, t) + Chosen(AssignAll(s, agents, shuffle).0, t) as real == Units(s, t)
    decreases |agents|
  {
    if |agents| > 0 {
      var n := |agents| - 1;
      var before := AssignAll(s, agents[..n], shuffle);
      AssignConserves(s, agents[..n], shuffle, t);
      var shuffled := shuffle(agents[n], before.1);
      ConserveStep(before.1, shuffled, t, Chosen(before.0, t), Units(s, t));
      ChosenSnoc(before.0, Consume(shuffled).1);
    }
  }

  /** Every agent gets a stratum while units are left: the number of agents served
      is the smaller of the number of agents and the number of units, and the units
      left are the rest. */
  lemma {:induction false} AssignTotal(s: seq<Stratum>, agents: seq<nat>, shuffle: (nat, seq<Stratum>) -> seq<Stratum>)
    requires WholeCounts(s) && IsShuffle(shuffle)
    ensures Assigned(AssignAll(s, agents, shuffle).0) as real ==
      if TotalUnits(s) <= |agents| as real then TotalUnits(s) else |agents| as real
    ensures TotalUnits(AssignAll(s, agents, shuffle).1) + Assigned(AssignAll(s, agents, shuffle).0) as real == TotalUnits(s)
    decreases |agents|
  {
    TotalUnitsWhole(s);
    if |agents| > 0 {
      var n := |agents| - 1;
      var before := AssignAll(s, agents[..n], shuffle);
      AssignTotal(s, agents[..n], shuffle);
      AssignConserves(s, agents[..n], shuffle, 0);
      var shuffled := shuffle(agents[n], before.1);
      TotalStep(before.1, shuffled, Assigned(before.0), TotalUnits(s), n);
      ChosenSnoc(before.0, Consume(shuffled).1);
      assert AssignAll(s, agents, shuffle) == (before.0 + [Consume(shuffled).1], Consume(shuffled).0);
    }
  }

  /** The strata of a person type as the parameter file lists them: entry i is
      stratum number i + 1. */
  predicate Numbered(s: seq<Stratum>)
  {
    forall i :: 0 <= i < |s| ==> Trunc(s[i].riskType) == i + 1
  }

  /** Every stratum number is one of 1..n. */
  predicate TypesWithin(s: seq<Stratum>, n: int)
  {
    forall i :: 0 <= i < |s| ==> 1 <= Trunc(s[i].riskType) <= n
  }

  /** The units of a stratum number that only entry j carries. */
  lemma {:induction false} UnitsOfUnique(s: seq<Stratum>, j: nat)
    requires j < |s|
    requires forall i :: 0 <= i < |s| && i != j ==> Trunc(s[i].riskType) != Trunc(s[j].riskType)
    ensures Units(s, Trunc(s[j].riskType)) == s[j].count
    decreases |s|
  {
    var t := Trunc(s[j].riskType);
    if j == 0 {
      UnitsOfAbsent(s[1..], t);
    } else {
      assert forall i :: 0 <= i < |s[1..]| && i != j - 1 ==> s[1..][i] == s[i + 1];
      UnitsOfUnique(s[1..], j - 1);
    }
  }

  /** A stratum number that no entry carries has no units. */
  lemma {:induction false} UnitsOfAbsent(s: seq<Stratum>, t: int)
    requires forall i :: 0 <= i < |s| ==> Trunc(s[i].riskType) != t
    ensures Units(s, t) == 0.0
    decreases |s|
  {
    if |s| > 0 {
      assert forall i :: 0 <= i < |s[1..]| ==> s[1..][i] == s[i + 1];
      UnitsOfAbsent(s[1..], t);
    }
  }

  /** The units of a stratum number are at least the count of any entry carrying it. */
  lemma {:induction false} UnitsAtLeast(s: seq<Stratum>, j: nat)
    requires WholeCounts(s) && j < |s|
    ensures Units(s, Trunc(s[j].riskType)) >= s[j].count
    decreases |s|
  {
    var t := Trunc(s[j].riskType);
    UnitsNonNegative(s, t);
    if j > 0 {
      assert s[1..][j - 1] == s[j];
      UnitsAtLeast(s[1..], j - 1);
    } else {
      UnitsNonNegative(s[1..], t);
    }
  }

  lemma {:induction false} UnitsNonNegative(s: seq<Stratum>, t: int)
    requires WholeCounts(s)
    ensures Units(s, t) >= 0.0
    decreases |s|
  {
    if |s| > 0 {
      UnitsNonNegative(s[1..], t);
    }
  }

  /** Whole counts with a zero total are all zero. */
  lemma {:induction false} ZeroTotalAllZero(s: seq<Stratum>)
    requires WholeCounts(s) && TotalUnits(s) == 0.0
    ensures forall i :: 0 <= i < |s| ==> s[i].count == 0.0
    decreases |s|
  {
    if |s| > 0 {
      TotalUnitsNonNegative(s[1..]);
      ZeroTotalAllZero(s[1..]);
      assert forall i :: 1 <= i < |s| ==> s[i] == s[1..][i - 1];
    }
  }

  /** All-zero counts have no units of any number. */
  lemma {:induction false} AllZeroNoUnits(s: seq<Stratum>, t: int)
    requires forall i :: 0 <= i < |s| ==> s[i].count == 0.0
    ensures Units(s, t) == 0.0
    decreases |s|
  {
    if |s| > 0 {
      assert forall i :: 0 <= i < |s[1..]| ==> s[1..][i] == s[i + 1];
      AllZeroNoUnits(s[1..], t);
    }
  }

  /** An agent's turn only lowers counts and erases entries, so the stratum numbers
      left are among those before. */
  lemma {:induction false} ConsumeTypes(s: seq<Stratum>, n: int)
    requires TypesWithin(s, n)
    ensures TypesWithin(Consume(s).0, n)
    decreases |s|
  {
    if |s| > 0 && s[0].count == 0.0 {
      assert forall i :: 0 <= i < |s[1..]| ==> s[1..][i] == s[i + 1];
      ConsumeTypes(s[1..], n);
    }
  }

  lemma ShuffleTypes(a: seq<Stratum>, b: seq<Stratum>, n: int)
    requires multiset(a) == multiset(b) && TypesWithin(a, n)
    ensures TypesWithin(b, n)
  {
    forall i | 0 <= i < |b|
      ensures 1 <= Trunc(b[i].riskType) <= n
    {
      assert b[i] in multiset(a);
    }
  }

  lemma {:induction false} AssignTypes(s: seq<Stratum>, agents: seq<nat>,
                                       shuffle: (nat, seq<Stratum>) -> seq<Stratum>, n: int)
    requires TypesWithin(s, n) && IsShuffle(shuffle)
    ensures TypesWithin(AssignAll(s, agents, shuffle).1, n)
    decreases |agents|
  {
    if |agents| > 0 {
      var k := |agents| - 1;
      var before := AssignAll(s, agents[..k], shuffle);
      AssignTypes(s, agents[..k], shuffle, n);
      var shuffled := shuffle(agents[k], before.1);
      ShuffleTypes(before.1, shuffled, n);
      ConsumeTypes(shuffled, n);
    }
  }

  /** With whole counts and numbers in 1..n, no number has units left exactly when
      nothing at all is left. */
  lemma NoUnitsIffEmpty(rest: seq<Stratum>, n: int)
    requires WholeCounts(rest) && TypesWithin(rest, n)
    ensures (forall t :: 1 <= t <= n ==> Units(rest, t) == 0.0) <==> TotalUnits(rest) == 0.0
  {
    if TotalUnits(rest) == 0.0 {
      ZeroTotalAllZero(rest);
      forall t | 1 <= t <= n
        ensures Units(rest, t) == 0.0
      {
        AllZeroNoUnits(rest, t);
      }
    } else {
      var j := NonZeroEntry(rest);
      UnitsAtLeast(rest, j);
    }
  }

  /** For a numbered person type, stratum i + 1's tally matches its target exactly
      when no unit of it is left over. */
  lemma TallyMatchesIffNoneLeft(s: seq<Stratum>, agents: seq<nat>, shuffle: (nat, seq<Stratum>) -> seq<Stratum>, i: nat)
    requires WholeCounts(s) && Numbered(s) && IsShuffle(shuffle) && i < |s|
    ensures (s[i].count == Chosen(AssignAll(s, agents, shuffle).0, i + 1) as real)
        <==> Units(AssignAll(s, agents, shuffle).1, i + 1) == 0.0
  {
    UnitsOfUnique(s, i);
    AssignConserves(s, agents, shuffle, i + 1);
  }

  /** Nothing is left of a person type exactly when it has at least as many agents as
      units. */
  lemma EmptyIffEnoughAgents(s: seq<Stratum>, agents: seq<nat>, shuffle: (nat, seq<Stratum>) -> seq<Stratum>)
    requires WholeCounts(s) && IsShuffle(shuffle)
    ensures TotalUnits(AssignAll(s, agents, shuffle).1) == 0.0 <==> TotalUnits(s) <= |agents| as real
  {
    AssignTotal(s, agents, shuffle);
  }

  /** The final check of setRiskFactors for a person type whose strata are numbered
      1..n with whole counts: every tally matches its rounded target exactly when the
      type has at least as many agents as units. With fewer agents than units some
      units stay unassigned and the program aborts; with more agents than units the
      check passes although the extra agents get no stratum. */
  lemma CheckPassesIff(s: seq<Stratum>, agents: seq<nat>, shuffle: (nat, seq<Stratum>) -> seq<Stratum>)
    requires WholeCounts(s) && Numbered(s) && IsShuffle(shuffle)
    ensures (forall i :: 0 <= i < |s| ==> s[i].count == Chosen(AssignAll(s, agents, shuffle).0, i + 1) as real)
        <==> TotalUnits(s) <= |agents| as real
  {
    var rest := AssignAll(s, agents, shuffle).1;
    AssignConserves(s, agents, shuffle, 0);
    assert TypesWithin(s, |s|);
    AssignTypes(s, agents, shuffle, |s|);
    NoUnitsIffEmpty(rest, |s|);
    EmptyIffEnoughAgents(s, agents, shuffle);
    var choices := AssignAll(s, agents, shuffle).0;
    if forall i :: 0 <= i < |s| ==> s[i].count == Chosen(choices, i + 1) as real {
      forall t | 1 <= t <= |s|
        ensures Units(rest, t) == 0.0
      {
        TallyMatchesIffNoneLeft(s, agents, shuffle, t - 1);
      }
    }
    if TotalUnits(s) <= |agents| as real {
      forall i | 0 <= i < |s|
        ensures s[i].count == Chosen(choices, i + 1) as real
      {
        TallyMatchesIffNoneLeft(s, agents, shuffle, i);
      }
    }
  }

  /** The agents' fields after the agents at the given indices take their choices
      in turn: an agent given a stratum records it (setRiskFactors), an agent given
      none keeps its fields. */
  function ApplyChoices(list: seq<CA.CardioFields>, agents: seq<nat>, choices: seq<Option<int>>)
    : (r: seq<CA.CardioFields>)
    requires forall j :: 0 <= j < |agents| ==> agents[j] < |list|
    requires |choices| == |agents|
    ensures |r| == |list|
    decreases |agents|
  {
    if |agents| == 0 then list
    else
      var before := ApplyChoices(list, agents[..|agents| - 1], choices[..|agents| - 1]);
      var a, c := agents[|agents| - 1], choices[|agents| - 1];
      if c.Some? then before[a := before[a].(rfStrata := c.value)] else before
  }

  lemma ApplyChoicesSnoc(list: seq<CA.CardioFields>, agents: seq<nat>, choices: seq<Option<int>>, t: Option<int>, ai: nat)
    requires forall j :: 0 <= j < |agents| ==> agents[j] < |list|
    requires ai < |agents| && |choices| == ai
    ensures ApplyChoices(list, agents[..ai + 1], choices + [t]) ==
      var before := ApplyChoices(list, agents[..ai], choices);
      if t.Some? then before[agents[ai] := before[agents[ai]].(rfStrata := t.value)] else before
  {
    assert agents[..ai + 1][..ai] == agents[..ai];
    assert (choices + [t])[..ai] == choices;
  }

  /** The counter keys one person type adds to the risk-factor counts: the chosen
      stratum's number in front of the type (addRiskFactorCount). */
  function HitKeys(key: string, choices: seq<Option<int>>): seq<string>
  {
    if |choices| == 0 then []
    else
      var c := choices[|choices| - 1];
      HitKeys(key, choices[..|choices| - 1]) + (if c.Some? then [IntToString(c.value) + key] else [])
  }

  lemma HitKeysSnoc(key: string, choices: seq<Option<int>>, t: Option<int>)
    ensures HitKeys(key, choices + [t]) == HitKeys(key, choices) + (if t.Some? then [IntToString(t.value) + key] else [])
  {
    assert (choices + [t])[..|choices|] == choices;
  }

  /** An entry with a non-zero count, when the total is not zero. */
  lemma NonZeroEntry(s: seq<Stratum>) returns (j: nat)
    requires WholeCounts(s) && TotalUnits(s) != 0.0
    ensures j < |s| && s[j].count > 0.0
  {
    if forall i :: 0 <= i < |s| ==> s[i].count == 0.0 {
      AllZeroTotal(s);
      assert false;
    }
    j :| 0 <= j < |s| && s[j].count != 0.0;
  }

  lemma {:induction false} AllZeroTotal(s: seq<Stratum>)
    requires forall i :: 0 <= i < |s| ==> s[i].count == 0.0
    ensures TotalUnits(s) == 0.0
    decreases |s|
  {
    if |s| > 0 {
      assert forall i :: 0 <= i < |s[1..]| ==> s[1..][i] == s[i + 1];
      AllZeroTotal(s[1..]);
    }
  }

  /** The indices of the agents of one person type in the order they were added:
      agentsPtrMap.equal_range, whose equal keys keep their insertion order. */
  function AgentsOfType(agentKeys: seq<string>, key: string): (r: seq<nat>)
    ensures |r| == PopSize(agentKeys, key)
    ensures forall j :: 0 <= j < |r| ==> r[j] < |agentKeys| && agentKeys[r[j]] == key
  {
    if |agentKeys| == 0 then []
    else
      var n := |agentKeys| - 1;
      var before := AgentsOfType(agentKeys[..n], key);
      assert forall i :: 0 <= i < n ==> agentKeys[..n][i] == agentKeys[i];
      before + (if agentKeys[n] == key then [n] else [])
  }

  /** equal_range visits the agents of the type in insertion order, each once. */
  lemma {:induction false} AgentsOfTypeIncreasing(agentKeys: seq<string>, key: string)
    ensures forall j, k :: 0 <= j < k < |AgentsOfType(agentKeys, key)| ==>
      AgentsOfType(agentKeys, key)[j] < AgentsOfType(agentKeys, key)[k]
  {
    if |agentKeys| > 0 {
      var n := |agentKeys| - 1;
      var before, r := AgentsOfType(agentKeys[..n], key), AgentsOfType(agentKeys, key);
      AgentsOfTypeIncreasing(agentKeys[..n], key);
      assert r == before + (if agentKeys[n] == key then [n] else []);
      forall j, k | 0 <= j < k < |r|
        ensures r[j] < r[k]
      {
        if k >= |before| {
          assert r[j] == before[j];
        }
      }
    }
  }

  /** equal_range misses no agent of the type. */
  lemma {:induction false} AgentsOfTypeComplete(agentKeys: seq<string>, key: string)
    ensures forall i :: 0 <= i < |agentKeys| && agentKeys[i] == key ==> i in AgentsOfType(agentKeys, key)
  {
    if |agentKeys| > 0 {
      var n := |agentKeys| - 1;
      var before, r := AgentsOfType(agentKeys[..n], key), AgentsOfType(agentKeys, key);
      AgentsOfTypeComplete(agentKeys[..n], key);
      assert r == before + (if agentKeys[n] == key then [n] else []);
      forall i | 0 <= i < |agentKeys| && agentKeys[i] == key
        ensures i in r
      {
        if i < n {
          assert agentKeys[..n][i] == key;
          assert i in before;
        }
      }
    }
  }

  /** The final check for one person type: every rounded target equals its tally. */
  predicate TargetsMet(s: seq<Stratum>, choices: seq<Option<int>>)
  {
    forall i :: 0 <= i < |s| ==> s[i].count == Chosen(choices, i + 1) as real
  }

  /** The comparison loop at the end of each person type of setRiskFactors. */
  method CheckTargets(riskPair: seq<Stratum>, popRiskStrata: seq<int>) returns (ok: bool)
    requires |popRiskStrata| == |riskPair|
    ensures ok <==> forall i :: 0 <= i < |riskPair| ==> riskPair[i].count == popRiskStrata[i] as real
  {
    var i := 0;
    while i < |riskPair|
      invariant 0 <= i <= |riskPair|
      invariant forall k :: 0 <= k < i ==> riskPair[k].count == popRiskStrata[k] as real
    {
      if riskPair[i].count != popRiskStrata[i] as real {
        return false;
      }
      i := i + 1;
    }
    return true;
  }

  /** What the assignment phase of setRiskFactors leaves: the agents' fields, the
      counter keys it added in order, and whether it stopped on a failed check. */
  datatype RiskAssignment = RiskAssignment(agents: seq<CA.CardioFields>, hits: seq<string>, aborted: bool)

  /** The assignment of one person type of the rounded map. */
  function AssignEntry(list: seq<CA.CardioFields>, agentKeys: seq<string>, e: StrataEntry,
                       shuffle: (nat, seq<Stratum>) -> seq<Stratum>): (r: RiskAssignment)
    requires |list| == |agentKeys|
    ensures |r.agents| == |list|
  {
    var agents := AgentsOfType(agentKeys, e.personType);
    var choices := AssignAll(e.strata, agents, shuffle).0;
    RiskAssignment(ApplyChoices(list, agents, choices), HitKeys(e.personType, choices), !TargetsMet(e.strata, choices))
  }

  /** The assignment of the next person type, unless the program has stopped. */
  function Continue(before: RiskAssignment, agentKeys: seq<string>, e: StrataEntry,
                    shuffle: (nat, seq<Stratum>) -> seq<Stratum>): (r: RiskAssignment)
    requires |before.agents| == |agentKeys|
    ensures |r.agents| == |before.agents|
  {
    if before.aborted then before
    else
      var step := AssignEntry(before.agents, agentKeys, e, shuffle);
      RiskAssignment(step.agents, before.hits + step.hits, step.aborted)
  }

  /** The assignment loop over the person types of the rounded map, which stops at
      the first type whose check fails (exit). */
  function AssignEntries(list: seq<CA.CardioFields>, agentKeys: seq<string>, es: seq<StrataEntry>,
                         shuffle: (nat, seq<Stratum>) -> seq<Stratum>): (r: RiskAssignment)
    requires |list| == |agentKeys|
    ensures |r.agents| == |list|
  {
    if |es| == 0 then RiskAssignment(list, [], false)
    else Continue(AssignEntries(list, agentKeys, es[..|es| - 1], shuffle), agentKeys, es[|es| - 1], shuffle)
  }

  /** Only the chosen agents change, and only their stratum: each agent of the list
      given Some(t) now has stratum t, every other agent is as before. */
  lemma {:induction false} ApplyChoicesAt(list: seq<CA.CardioFields>, agents: seq<nat>, choices: seq<Option<int>>)
    requires forall j :: 0 <= j < |agents| ==> agents[j] < |list|
    requires |choices| == |agents|
    requires forall j, k :: 0 <= j < k < |agents| ==> agents[j] < agents[k]
    ensures forall i :: 0 <= i < |list| ==>
      ApplyChoices(list, agents, choices)[i] == list[i].(rfStrata := ApplyChoices(list, agents, choices)[i].rfStrata)
    ensures forall i :: 0 <= i < |list| && i !in agents ==> ApplyChoices(list, agents, choices)[i] == list[i]
    ensures forall j :: 0 <= j < |agents| ==>
      ApplyChoices(list, agents, choices)[agents[j]] ==
        if choices[j].Some? then list[agents[j]].(rfStrata := choices[j].value) else list[agents[j]]
    decreases |agents|
  {
    if |agents| > 0 {
      var n := |agents| - 1;
      var a := agents[n];
      ApplyChoicesAt(list, agents[..n], choices[..n]);
      forall j | 0 <= j < n
        ensures agents[..n][j] == agents[j] && agents[j] != a && choices[..n][j] == choices[j]
      {
      }
    }
  }

  /** The counter key of stratum t for a person type. */
  function NamesStratum(t: int, key: string): string -> bool
  {
    (x: string) => x == IntToString(t) + key
  }

  /** The number of the counter keys of a person type that name stratum t is the
      number of its agents given t. */
  lemma {:induction false} HitKeysCount(key: string, choices: seq<Option<int>>, t: int)
    ensures CountIf(HitKeys(key, choices), NamesStratum(t, key)) == Chosen(choices, t)
    decreases |choices|
  {
    if |choices| > 0 {
      var n := |choices| - 1;
      var c := choices[n];
      var tail := if c.Some? then [IntToString(c.value) + key] else [];
      assert HitKeys(key, choices) == HitKeys(key, choices[..n]) + tail;
      HitKeysCount(key, choices[..n], t);
      CountIfAppend(HitKeys(key, choices[..n]), tail, NamesStratum(t, key));
      TailCount(key, c, t);
    }
  }

  lemma TailCount(key: string, c: Option<int>, t: int)
    ensures CountIf(if c.Some? then [IntToString(c.value) + key] else [], NamesStratum(t, key)) ==
      if c == Some(t) then 1 else 0
  {
    if c.Some? {
      var tail := [IntToString(c.value) + key];
      assert tail[..0] == [];
      if IntToString(c.value) + key == IntToString(t) + key {
        PrefixInjective(c.value, t, key);
      }
    }
  }

  /** The stratum number in front of a person type can be read back. */
  lemma PrefixInjective(u: int, t: int, key: string)
    requires IntToString(u) + key == IntToString(t) + key
    ensures u == t
  {
    var a, b := IntToString(u), IntToString(t);
    assert |a| == |b|;
    assert a == (a + key)[..|a|] && b == (b + key)[..|b|];
    ParseIntOfIntToString(u);
    ParseIntOfIntToString(t);
  }

  /** One key per agent given a stratum. */
  lemma {:induction false} HitKeysLength(key: string, choices: seq<Option<int>>)
    ensures |HitKeys(key, choices)| == Assigned(choices)
    decreases |choices|
  {
    if |choices| > 0 {
      HitKeysLength(key, choices[..|choices| - 1]);
    }
  }

  lemma AssignEntriesSnoc(list: seq<CA.CardioFields>, agentKeys: seq<string>, es: seq<StrataEntry>,
                          shuffle: (nat, seq<Stratum>) -> seq<Stratum>, k: nat)
    requires |list| == |agentKeys| && k < |es|
    ensures AssignEntries(list, agentKeys, es[..k + 1], shuffle) ==
      Continue(AssignEntries(list, agentKeys, es[..k], shuffle), agentKeys, es[k], shuffle)
  {
    assert es[..k + 1][..k] == es[..k];
  }

  /** After exit nothing more happens. */
  lemma {:induction false} AbortedStays(list: seq<CA.CardioFields>, agentKeys: seq<string>, es: seq<StrataEntry>,
                                        shuffle: (nat, seq<Stratum>) -> seq<Stratum>, k: nat)
    requires |list| == |agentKeys| && k <= |es|
    requires AssignEntries(list, agentKeys, es[..k], shuffle).aborted
    ensures AssignEntries(list, agentKeys, es, shuffle) == AssignEntries(list, agentKeys, es[..k], shuffle)
    decreases |es|
  {
    if k < |es| {
      var n := |es| - 1;
      assert es[..n][..k] == es[..k];
      AbortedStays(list, agentKeys, es[..n], shuffle, k);
    } else {
      assert es[..k] == es;
    }
  }

  /** The assignment phase changes the agents' strata and nothing else about them. */
  lemma {:induction false} AssignEntriesKeepsFields(list: seq<CA.CardioFields>, agentKeys: seq<string>,
                                                    es: seq<StrataEntry>, shuffle: (nat, seq<Stratum>) -> seq<Stratum>)
    requires |list| == |agentKeys|
    ensures forall i :: 0 <= i < |list| ==>
      AssignEntries(list, agentKeys, es, shuffle).agents[i] ==
      list[i].(rfStrata := AssignEntries(list, agentKeys, es, shuffle).agents[i].rfStrata)
    decreases |es|
  {
    if |es| > 0 {
      var before := AssignEntries(list, agentKeys, es[..|es| - 1], shuffle);
      AssignEntriesKeepsFields(list, agentKeys, es[..|es| - 1], shuffle);
      if !before.aborted {
        var e := es[|es| - 1];
        var agents := AgentsOfType(agentKeys, e.personType);
        AgentsOfTypeIncreasing(agentKeys, e.personType);
        ApplyChoicesAt(before.agents, agents, AssignAll(e.strata, agents, shuffle).0);
      }
    }
  }

  /** Assigning risk strata keeps every agent under its person type. */
  lemma AssignEntriesTyped(list: seq<CA.CardioFields>, agentKeys: seq<string>,
                           es: seq<StrataEntry>, shuffle: (nat, seq<Stratum>) -> seq<Stratum>)
    requires |list| == |agentKeys|
    requires forall i :: 0 <= i < |list| ==> agentKeys[i] == TypeOf(list[i])
    ensures var r := AssignEntries(list, agentKeys, es, shuffle).agents;
      |r| == |list| && forall i :: 0 <= i < |r| ==> agentKeys[i] == TypeOf(r[i])
  {
    AssignEntriesKeepsFields(list, agentKeys, es, shuffle);
  }

  /** The total of the units of a strata vector is the sum of its counts. */
  lemma {:induction false} TotalUnitsIsSum(s: seq<Stratum>)
    ensures TotalUnits(s) == Sum(Counts(s))
    decreases |s|
  {
    if |s| > 0 {
      var n := |s| - 1;
      assert s == s[..n] + [s[n]];
      WeightAppend(s[..n], [s[n]], (x: Stratum) => x.count);
      assert [s[n]][1..] == [];
      assert Counts(s)[..n] == Counts(s[..n]);
      TotalUnitsIsSum(s[..n]);
    }
  }

  /** Entry k of the shape of a ProbMapRf. */
  lemma {:induction false} ShapeAt(es: seq<StrataEntry>, k: nat)
    requires k < |es|
    ensures |Shape(es)| == |es|
    ensures Shape(es)[k] == (es[k].personType, RiskTypes(es[k].strata))
    decreases |es|
  {
    var n := |es| - 1;
    if k < n {
      ShapeAt(es[..n], k);
    } else if n > 0 {
      ShapeAt(es[..n], 0);
    }
  }

  /** Rounding values with a whole sum from a zero carry hits the sum exactly and
      leaves no carry. */
  lemma {:induction false} ExactRounding(ws: seq<real>)
    requires Sum(ws) == Floor(Sum(ws)) as real
    ensures CarryAfter(ws, 0.0) == 0.0
    ensures IntSum(RoundAll(ws, 0.0)) as real == Sum(ws)
  {
    RoundAllConserves(ws, 0.0);
    var d := Floor(Sum(ws)) - IntSum(RoundAll(ws, 0.0));
    assert CarryAfter(ws, 0.0) == d as real;
  }

  /** A risk-strata probability vector of the parameter file: strata numbered 1..n,
      non-negative shares that add up to one. */
  predicate ShareVector(s: seq<Stratum>)
  {
    Numbered(s) && (forall i :: 0 <= i < |s| ==> 0.0 <= s[i].count) && Sum(Counts(s)) == 1.0
  }

  /** When every share vector adds up to one, each person type's scaled counts add up
      to its population, so the carry between person types stays zero. */
  lemma {:induction false} CarryStaysZero(es: seq<StrataEntry>, agentKeys: seq<string>, k: nat)
    requires k <= |es|
    requires forall j :: 0 <= j < |es| ==> Sum(Counts(es[j].strata)) == 1.0
    ensures CarryBefore(es, agentKeys, k) == 0.0
  {
    if k > 0 {
      CarryStaysZero(es, agentKeys, k - 1);
      EntryPrefixStep(es, agentKeys, k - 1);
      var a, b := ScaledCounts(es[..k - 1], agentKeys), EntryCounts(es[k - 1], agentKeys);
      RoundAllAppend(a, b, 0.0);
      ScaledTotal(es[k - 1].strata, PopSize(agentKeys, es[k - 1].personType) as real);
      ExactRounding(b);
    }
  }

  /** The rounded map keeps the person types and stratum numbers. */
  lemma {:induction false} RoundedEntryNumbered(rounded: seq<StrataEntry>, es: seq<StrataEntry>, k: nat)
    requires k < |es| && Shape(rounded) == Shape(es) && Numbered(es[k].strata)
    ensures k < |rounded| && rounded[k].personType == es[k].personType && Numbered(rounded[k].strata)
  {
    ShapeAt(es, k);
    ShapeAt(rounded, 0);
    ShapeAt(rounded, k);
    var r, e := rounded[k].strata, es[k].strata;
    assert RiskTypes(r) == RiskTypes(e);
    assert forall i :: 0 <= i < |r| ==> r[i].riskType == RiskTypes(r)[i];
  }

  /** When the shares are non-negative and add up to one, the rounded vector of each
      person type is made of whole non-negative counts and holds one unit per agent
      of the type. */
  lemma {:induction false} RoundedEntryWhole(rounded: seq<StrataEntry>, es: seq<StrataEntry>, agentKeys: seq<string>, k: nat)
    requires RoundedAt(rounded, es, agentKeys, k)
    requires forall j :: 0 <= j < |es| ==> Sum(Counts(es[j].strata)) == 1.0
    requires forall i :: 0 <= i < |es[k].strata| ==> 0.0 <= es[k].strata[i].count
    ensures WholeCounts(rounded[k].strata)
    ensures TotalUnits(rounded[k].strata) == PopSize(agentKeys, es[k].personType) as real
  {
    var r := rounded[k].strata;
    var ws := EntryCounts(es[k], agentKeys);
    CarryStaysZero(es, agentKeys, k);
    RoundedWhole(r, ws);
    ScaledTotal(es[k].strata, PopSize(agentKeys, es[k].personType) as real);
    ExactRounding(ws);
    SumAsReals(RoundAll(ws, 0.0));
    TotalUnitsIsSum(r);
  }

  lemma {:induction false} RoundedWhole(r: seq<Stratum>, ws: seq<real>)
    requires Counts(r) == AsReals(RoundAll(ws, 0.0))
    requires forall i :: 0 <= i < |ws| ==> 0.0 <= ws[i]
    ensures WholeCounts(r)
  {
    RoundAllFloorOrCeil(ws, 0.0);
    forall i | 0 <= i < |r|
      ensures 0.0 <= r[i].count && r[i].count == Floor(r[i].count) as real
    {
      assert r[i].count == Counts(r)[i];
      assert 0.0 <= ws[i];
    }
  }

  /** A stratum that one agent's turn hands out is one of the vector's numbers. */
  lemma {:induction false} ConsumeChoiceWithin(s: seq<Stratum>, n: int)
    requires TypesWithin(s, n)
    ensures Consume(s).1.Some? ==> 1 <= Consume(s).1.value <= n
    decreases |s|
  {
    if |s| > 0 && s[0].count == 0.0 {
      assert forall i :: 0 <= i < |s[1..]| ==> s[1..][i] == s[i + 1];
      ConsumeChoiceWithin(s[1..], n);
    }
  }

  /** Every stratum handed out for a person type is one of its numbers. */
  lemma {:induction false} ChoicesWithin(s: seq<Stratum>, agents: seq<nat>,
                                         shuffle: (nat, seq<Stratum>) -> seq<Stratum>, n: int)
    requires TypesWithin(s, n) && IsShuffle(shuffle)
    ensures forall j :: 0 <= j < |agents| && AssignAll(s, agents, shuffle).0[j].Some? ==>
      1 <= AssignAll(s, agents, shuffle).0[j].value <= n
    decreases |agents|
  {
    if |agents| > 0 {
      var k := |agents| - 1;
      var before := AssignAll(s, agents[..k], shuffle);
      ChoicesWithin(s, agents[..k], shuffle, n);
      AssignTypes(s, agents[..k], shuffle, n);
      var shuffled := shuffle(agents[k], before.1);
      ShuffleTypes(before.1, shuffled, n);
      ConsumeChoiceWithin(shuffled, n);
      var choices := AssignAll(s, agents, shuffle).0;
      assert choices == before.0 + [Consume(shuffled).1];
      forall j | 0 <= j < |agents| && choices[j].Some?
        ensures 1 <= choices[j].value <= n
      {
        if j < k {
          assert choices[j] == before.0[j];
        }
      }
    }
  }

  /** When every agent was served, every choice is a stratum. */
  lemma {:induction false} AllServed(choices: seq<Option<int>>)
    requires Assigned(choices) == |choices|
    ensures forall j :: 0 <= j < |choices| ==> choices[j].Some?
    decreases |choices|
  {
    if |choices| > 0 {
      var n := |choices| - 1;
      AssignedAtMost(choices[..n]);
      AllServed(choices[..n]);
      assert forall j :: 0 <= j < n ==> choices[..n][j] == choices[j];
    }
  }

  lemma {:induction false} AssignedAtMost(choices: seq<Option<int>>)
    ensures Assigned(choices) <= |choices|
    decreases |choices|
  {
    if |choices| > 0 {
      AssignedAtMost(choices[..|choices| - 1]);
    }
  }

  /** The number of agents of the person types of a ProbMapRf. */
  function TypesTotal(agentKeys: seq<string>, es: seq<StrataEntry>): nat
  {
    if |es| == 0 then 0 else TypesTotal(agentKeys, es[..|es| - 1]) + PopSize(agentKeys, es[|es| - 1].personType)
  }

  /** Some entry of the map is for this person type. */
  predicate Listed(es: seq<StrataEntry>, key: string)
  {
    |es| > 0 && (Listed(es[..|es| - 1], key) || es[|es| - 1].personType == key)
  }

  /** Listed means some entry has the type. */
  lemma {:induction false} ListedIff(es: seq<StrataEntry>, key: string)
    ensures Listed(es, key) <==> exists k :: 0 <= k < |es| && es[k].personType == key
    decreases |es|
  {
    if |es| > 0 {
      var n := |es| - 1;
      ListedIff(es[..n], key);
      if exists k :: 0 <= k < |es| && es[k].personType == key {
        var k :| 0 <= k < |es| && es[k].personType == key;
        if k < n {
          assert es[..n][k] == es[k];
        }
      }
      if exists k :: 0 <= k < n && es[..n][k].personType == key {
        var k :| 0 <= k < n && es[..n][k].personType == key;
        assert es[k] == es[..n][k];
      }
    }
  }

  /** One person type whose rounded vector holds one unit per agent: the check
      passes, every agent of the type gets a stratum and a counter key, and agents of
      other types are untouched. */
  lemma {:induction false} EntryCompletes(list: seq<CA.CardioFields>, agentKeys: seq<string>, e: StrataEntry,
                                          shuffle: (nat, seq<Stratum>) -> seq<Stratum>)
    requires |list| == |agentKeys| && IsShuffle(shuffle)
    requires WholeCounts(e.strata) && Numbered(e.strata)
    requires TotalUnits(e.strata) == PopSize(agentKeys, e.personType) as real
    ensures !AssignEntry(list, agentKeys, e, shuffle).aborted
    ensures |AssignEntry(list, agentKeys, e, shuffle).hits| == PopSize(agentKeys, e.personType)
    ensures forall i :: 0 <= i < |list| && agentKeys[i] == e.personType ==>
      1 <= AssignEntry(list, agentKeys, e, shuffle).agents[i].rfStrata <= |e.strata|
    ensures forall i :: 0 <= i < |list| && agentKeys[i] != e.personType ==>
      AssignEntry(list, agentKeys, e, shuffle).agents[i] == list[i]
  {
    var agents := AgentsOfType(agentKeys, e.personType);
    var choices := AssignAll(e.strata, agents, shuffle).0;
    var r := AssignEntry(list, agentKeys, e, shuffle);
    CheckPassesIff(e.strata, agents, shuffle);
    AssignTotal(e.strata, agents, shuffle);
    HitKeysLength(e.personType, choices);
    AllServed(choices);
    assert TypesWithin(e.strata, |e.strata|);
    ChoicesWithin(e.strata, agents, shuffle, |e.strata|);
    AgentsOfTypeIncreasing(agentKeys, e.personType);
    AgentsOfTypeComplete(agentKeys, e.personType);
    ApplyChoicesAt(list, agents, choices);
    forall i | 0 <= i < |list| && agentKeys[i] == e.personType
      ensures 1 <= r.agents[i].rfStrata <= |e.strata|
    {
      var j :| 0 <= j < |agents| && agents[j] == i;
    }
    forall i | 0 <= i < |list| && agentKeys[i] != e.personType
      ensures r.agents[i] == list[i]
    {
      assert i !in agents;
    }
  }

  lemma ListedSnoc(es: seq<StrataEntry>, m: nat, key: string)
    requires m < |es|
    ensures Listed(es[..m + 1], key) <==> Listed(es[..m], key) || es[m].personType == key
  {
    assert es[..m + 1][..m] == es[..m];
  }

  /** The first m person types of the rounded map pass their checks and add one
      counter key per agent, when every share vector adds up to one. */
  lemma {:induction false} PrefixPasses(list: seq<CA.CardioFields>, agentKeys: seq<string>,
                                        es: seq<StrataEntry>, rounded: seq<StrataEntry>,
                                        shuffle: (nat, seq<Stratum>) -> seq<Stratum>, m: nat)
    requires |list| == |agentKeys| && IsShuffle(shuffle)
    requires |rounded| == |es| && Shape(rounded) == Shape(es)
    requires forall k :: 0 <= k < |es| ==> RoundedAt(rounded, es, agentKeys, k)
    requires forall k :: 0 <= k < |es| ==> ShareVector(es[k].strata)
    requires m <= |es|
    ensures !AssignEntries(list, agentKeys, rounded[..m], shuffle).aborted
    ensures |AssignEntries(list, agentKeys, rounded[..m], shuffle).hits| == TypesTotal(agentKeys, es[..m])
  {
    if m > 0 {
      var k := m - 1;
      PrefixPasses(list, agentKeys, es, rounded, shuffle, k);
      var before := AssignEntries(list, agentKeys, rounded[..k], shuffle);
      AssignEntriesSnoc(list, agentKeys, rounded, shuffle, k);
      RoundedEntryPasses(before.agents, agentKeys, es, rounded, shuffle, k);
      assert es[..m][..k] == es[..k];
    }
  }

  lemma RoundedEntryPasses(list: seq<CA.CardioFields>, agentKeys: seq<string>,
                           es: seq<StrataEntry>, rounded: seq<StrataEntry>,
                           shuffle: (nat, seq<Stratum>) -> seq<Stratum>, k: nat)
    requires |list| == |agentKeys| && IsShuffle(shuffle)
    requires |rounded| == |es| && Shape(rounded) == Shape(es)
    requires forall k :: 0 <= k < |es| ==> RoundedAt(rounded, es, agentKeys, k)
    requires forall k :: 0 <= k < |es| ==> ShareVector(es[k].strata)
    requires k < |es|
    ensures !AssignEntry(list, agentKeys, rounded[k], shuffle).aborted
    ensures |AssignEntry(list, agentKeys, rounded[k], shuffle).hits| == PopSize(agentKeys, es[k].personType)
  {
    RoundedEntryNumbered(rounded, es, k);
    RoundedEntryWhole(rounded, es, agentKeys, k);
    EntryCompletes(list, agentKeys, rounded[k], shuffle);
  }

  /** After the first m person types every agent of a listed type has a stratum and
      every other agent its old fields. */
  lemma {:induction false} PrefixMarks(list: seq<CA.CardioFields>, agentKeys: seq<string>,
                                       es: seq<StrataEntry>, rounded: seq<StrataEntry>,
                                       shuffle: (nat, seq<Stratum>) -> seq<Stratum>, m: nat)
    requires |list| == |agentKeys| && IsShuffle(shuffle)
    requires |rounded| == |es| && Shape(rounded) == Shape(es)
    requires forall k :: 0 <= k < |es| ==> RoundedAt(rounded, es, agentKeys, k)
    requires forall k :: 0 <= k < |es| ==> ShareVector(es[k].strata)
    requires m <= |es|
    ensures forall i :: 0 <= i < |list| && Listed(es[..m], agentKeys[i]) ==>
      AssignEntries(list, agentKeys, rounded[..m], shuffle).agents[i].rfStrata >= 1
    ensures forall i :: 0 <= i < |list| && !Listed(es[..m], agentKeys[i]) ==>
      AssignEntries(list, agentKeys, rounded[..m], shuffle).agents[i] == list[i]
  {
    if m > 0 {
      var k := m - 1;
      PrefixMarks(list, agentKeys, es, rounded, shuffle, k);
      PrefixPasses(list, agentKeys, es, rounded, shuffle, k);
      var before := AssignEntries(list, agentKeys, rounded[..k], shuffle);
      AssignEntriesSnoc(list, agentKeys, rounded, shuffle, k);
      RoundedEntryNumbered(rounded, es, k);
      RoundedEntryWhole(rounded, es, agentKeys, k);
      EntryCompletes(before.agents, agentKeys, rounded[k], shuffle);
      MarkStep(list, before.agents, AssignEntry(before.agents, agentKeys, rounded[k], shuffle).agents, agentKeys, es, k);
    }
  }

  /** The agents served so far after one more person type. */
  lemma MarkStep(list: seq<CA.CardioFields>, before: seq<CA.CardioFields>, after: seq<CA.CardioFields>,
                 agentKeys: seq<string>, es: seq<StrataEntry>, k: nat)
    requires |list| == |agentKeys| && |before| == |list| && |after| == |list| && k < |es|
    requires forall i :: 0 <= i < |list| && Listed(es[..k], agentKeys[i]) ==> before[i].rfStrata >= 1
    requires forall i :: 0 <= i < |list| && !Listed(es[..k], agentKeys[i]) ==> before[i] == list[i]
    requires forall i :: 0 <= i < |list| && agentKeys[i] == es[k].personType ==> 1 <= after[i].rfStrata
    requires forall i :: 0 <= i < |list| && agentKeys[i] != es[k].personType ==> after[i] == before[i]
    ensures forall i :: 0 <= i < |list| && Listed(es[..k + 1], agentKeys[i]) ==> after[i].rfStrata >= 1
    ensures forall i :: 0 <= i < |list| && !Listed(es[..k + 1], agentKeys[i]) ==> after[i] == list[i]
  {
    forall i | 0 <= i < |list|
      ensures Listed(es[..k + 1], agentKeys[i]) ==> after[i].rfStrata >= 1
      ensures !Listed(es[..k + 1], agentKeys[i]) ==> after[i] == list[i]
    {
      ListedSnoc(es, k, agentKeys[i]);
    }
  }

  /** Assignment theorem: when every risk-strata vector of the parameter file is
      numbered 1..n with non-negative shares adding up to one, setRiskFactors never
      stops on a failed check, every agent of a listed person type gets a stratum
      and a counter key, and agents of unlisted types keep their fields. */
  lemma SetRiskFactorsCompletes(list: seq<CA.CardioFields>, agentKeys: seq<string>,
                                es: seq<StrataEntry>, rounded: seq<StrataEntry>,
                                shuffle: (nat, seq<Stratum>) -> seq<Stratum>)
    requires |list| == |agentKeys| && IsShuffle(shuffle)
    requires |rounded| == |es| && Shape(rounded) == Shape(es)
    requires forall k :: 0 <= k < |es| ==> RoundedAt(rounded, es, agentKeys, k)
    requires forall k :: 0 <= k < |es| ==> ShareVector(es[k].strata)
    ensures var o := AssignEntries(list, agentKeys, rounded, shuffle);
      && !o.aborted
      && |o.hits| == TypesTotal(agentKeys, es)
      && (forall i :: 0 <= i < |list| && Listed(es, agentKeys[i]) ==> o.agents[i].rfStrata >= 1)
      && (forall i :: 0 <= i < |list| && !Listed(es, agentKeys[i]) ==> o.agents[i] == list[i])
  {
    PrefixPasses(list, agentKeys, es, rounded, shuffle, |es|);
    PrefixMarks(list, agentKeys, es, rounded, shuffle, |es|);
    assert rounded[..|es|] == rounded && es[..|es|] == es;
  }

  /** The key agentsPtrMap files an agent under (addAgent's key_map). */
  function TypeOf(a: CA.CardioFields): string
  {
    CA.PersonTypeKey(a.nhanesOrg, a.sex, a.nhanesAgeCat, a.nhanesEdu)
  }

  /** addAgent keeps persons of 35 or older who are white or black non-Hispanic. */
  predicate Eligible(p: PersonRecord)
  {
    p.age >= 35 && (p.origin == WhiteNH || p.origin == BlackNH)
  }

  /** The fields of a new CardioAgent for a person. */
  function AgentFields(p: PersonRecord): CA.CardioFields
  {
    CA.CardioFields(p.personId, p.pumaCode, p.age, p.sex, p.origin, p.education,
                    CA.NhanesOrigin(p.origin), CA.NhanesEducation(p.education), CA.NhanesAgeCat(p.age), -1)
  }

  /** An eligible person becomes an agent in one of the five NHANES age bands, with
      the NHANES origin of its own origin. */
  lemma EligibleAgent(p: PersonRecord)
    requires Eligible(p)
    ensures NhanesAge35To44 <= AgentFields(p).nhanesAgeCat <= NhanesAge75Over
    ensures AgentFields(p).nhanesOrg == (if p.origin == WhiteNH then NhanesWhiteNH else NhanesBlackNH)
    ensures AgentFields(p).rfStrata == -1
  {
  }

  /** count->addRiskFactorCount for each key, in order. */
  method AddRiskFactorCounts(count: Counters.Counter, keys: seq<string>)
    modifies count`riskFacCount
    ensures count.riskFacCount == Counters.HitAll(old(count.riskFacCount), keys)
  {
    var j := 0;
    while j < |keys|
      invariant 0 <= j <= |keys|
      invariant count.riskFacCount == Counters.HitAll(old(count.riskFacCount), keys[..j])
    {
      count.AddRiskFactorCount(keys[j]);
      assert keys[..j + 1][..j] == keys[..j];
      j := j + 1;
    }
    assert keys[..j] == keys;
  }

  /** One pass of the assignment loop of setRiskFactors: the agent loop of a person
      type, then its check. */
  method AssignType(list: seq<CA.CardioFields>, agentKeys: seq<string>, e: StrataEntry,
                    shuffle: (nat, seq<Stratum>) -> seq<Stratum>)
    returns (list': seq<CA.CardioFields>, hits: seq<string>, ok: bool)
    requires |list| == |agentKeys|
    ensures RiskAssignment(list', hits, !ok) == AssignEntry(list, agentKeys, e, shuffle)
  {
    var agents := AgentsOfType(agentKeys, e.personType);
    var choices, rest, popRiskStrata;
    choices, rest, popRiskStrata, list', hits := AssignPersonType(e.strata, e.personType, agents, list, shuffle);
    ok := CheckTargets(e.strata, popRiskStrata);
  }

  /** The agents of a CardioModel and their person-type index. */
  class CardioModel {
    /** agentList: the agents' fields, in the order they were added. */
    var agentList: seq<CA.CardioFields>
    /** agentsPtrMap: agentKeys[i] is the key agent i is filed under. */
    var agentKeys: seq<string>

    /** One index entry per agent, under the agent's person type. */
    predicate Valid()
      reads this
    {
      |agentKeys| == |agentList| && forall i :: 0 <= i < |agentList| ==> agentKeys[i] == TypeOf(agentList[i])
    }

    constructor ()
      ensures Valid() && agentList == [] && agentKeys == []
    {
      agentList, agentKeys := [], [];
    }

    /** addAgent: an eligible person is appended as a new agent and filed under its
        person type; anyone else is ignored. */
    method AddAgent(p: PersonRecord)
      requires Valid()
      modifies this
      ensures Valid()
      ensures Eligible(p) ==> agentList == old(agentList) + [AgentFields(p)] && agentKeys == old(agentKeys) + [TypeOf(AgentFields(p))]
      ensures !Eligible(p) ==> agentList == old(agentList) && agentKeys == old(agentKeys)
    {
      if p.age >= 35 {
        if p.origin == WhiteNH || p.origin == BlackNH {
          var agent := new CA.CardioAgent(p);
          var keyMap := IntToString(agent.nhanesOrg) + IntToString(agent.sex) + IntToString(agent.nhanesAgeCat) + IntToString(agent.nhanesEdu);
          agentList := agentList + [agent.Fields()];
          agentKeys := agentKeys + [keyMap];
        }
      }
    }

    /** clearList: no agents and an empty index. */
    method ClearList()
      modifies this
      ensures Valid() && agentList == [] && agentKeys == []
    {
      agentList, agentKeys := [], [];
    }

    /** setRiskFactors: scales and rounds every person type's shares (the rounded map
        is returned), then assigns strata to the agents type by type, adding one
        risk-factor count per assignment, and stops at the first type whose tallies
        miss their targets (aborted). */
    method SetRiskFactors(riskStrataMap: seq<StrataEntry>, shuffle: (nat, seq<Stratum>) -> seq<Stratum>,
                          count: Counters.Counter)
      returns (rounded: seq<StrataEntry>, aborted: bool)
      requires Valid()
      modifies this`agentList, count`riskFacCount
      ensures Valid()
      ensures |rounded| == |riskStrataMap| && Shape(rounded) == Shape(riskStrataMap)
      ensures forall k :: 0 <= k < |riskStrataMap| ==> RoundedAt(rounded, riskStrataMap, agentKeys, k)
      ensures var o := AssignEntries(old(agentList), agentKeys, rounded, shuffle);
        && agentList == o.agents && aborted == o.aborted
        && count.riskFacCount == Counters.HitAll(old(count.riskFacCount), o.hits)
    {
      var adj;
      rounded, adj := ScaleAndRound(riskStrataMap, agentKeys);
      aborted := AssignRounded(rounded, shuffle, count);
      AssignEntriesTyped(old(agentList), agentKeys, rounded, shuffle);
    }

    /** The assignment loop of setRiskFactors over the rounded entries: stops at the
        first person type whose targets are not met. */
    method AssignRounded(rounded: seq<StrataEntry>, shuffle: (nat, seq<Stratum>) -> seq<Stratum>,
                         count: Counters.Counter)
      returns (aborted: bool)
      requires |agentList| == |agentKeys|
      modifies this`agentList, count`riskFacCount
      ensures var o := AssignEntries(old(agentList), agentKeys, rounded, shuffle);
        && agentList == o.agents && aborted == o.aborted
        && count.riskFacCount == Counters.HitAll(old(count.riskFacCount), o.hits)
    {
      aborted := false;
      ghost var hits: seq<string> := [];
      var k := 0;
      while k < |rounded| && !aborted
        invariant 0 <= k <= |rounded| && |agentList| == |agentKeys|
        invariant RiskAssignment(agentList, hits, aborted) == AssignEntries(old(agentList), agentKeys, rounded[..k], shuffle)
        invariant count.riskFacCount == Counters.HitAll(old(count.riskFacCount), hits)
      {
        var list', h, ok := AssignType(agentList, agentKeys, rounded[k], shuffle);
        agentList := list';
        AddRiskFactorCounts(count, h);
        Counters.HitAllConcat(old(count.riskFacCount), hits, h);
        hits := hits + h;
        aborted := !ok;
        AssignEntriesSnoc(old(agentList), agentKeys, rounded, shuffle, k);
        k := k + 1;
      }
      if aborted {
        AbortedStays(old(agentList), agentKeys, rounded, shuffle, k);
      } else {
        assert rounded[..k] == rounded;
      }
    }
  }
}
