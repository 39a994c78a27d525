/** The Counter class of src/Counter.cpp: tallies keyed by household type, person
    type and risk-factor type, and per-tick tallies for the PTSD treatment model.
    A std::map<std::string, std::vector<bool>> only ever receives `true` entries,
    so each of its vectors is represented by its length. */
module Counters {
  import opened Text
  import opened CountPredicates

  const NumTreatment: nat := 3   // NUM_TREATMENT in src/ViolenceAgent.h
  const NumPtsd: nat := 3        // NUM_PTSD
  const NumRiskStrata: nat := 16 // num_risk_strata in initRiskFacCounter

  /** A tally map of registered keys: each pool entry with a zero count. */
  function ZeroCounts(pool: seq<string>): (m: map<string, nat>)
    ensures m.Keys == set i | 0 <= i < |pool| :: pool[i]
    ensures forall k :: k in m ==> m[k] == 0
  {
    map k | k in pool :: 0
  }

  /** std::map::insert of an empty tally: a key already present keeps its count. */
  function InsertKey(m: map<string, nat>, k: string): map<string, nat>
  {
    if k in m then m else m[k := 0]
  }

  /** Inserting empty tallies for keys, in order. */
  function WithKeys(m: map<string, nat>, keys: seq<string>): map<string, nat>
  {
    if |keys| == 0 then m else InsertKey(WithKeys(m, keys[..|keys| - 1]), keys[|keys| - 1])
  }

  /** Inserting into an empty map registers exactly the keys, each with no hits. */
  lemma {:induction false} WithKeysOfEmpty(keys: seq<string>)
    ensures WithKeys(map[], keys) == ZeroCounts(keys)
    decreases |keys|
  {
    if |keys| > 0 {
      var pre := keys[..|keys| - 1];
      WithKeysOfEmpty(pre);
      assert forall k :: k in keys <==> k in pre || k == keys[|keys| - 1];
    }
  }

  /** Inserting one run of keys after another. */
  lemma {:induction false} WithKeysConcat(m: map<string, nat>, a: seq<string>, b: seq<string>)
    ensures WithKeys(m, a + b) == WithKeys(WithKeys(m, a), b)
    decreases |b|
  {
    if |b| == 0 {
      assert a + b == a;
    } else {
      assert (a + b)[..|a + b| - 1] == a + b[..|b| - 1];
      WithKeysConcat(m, a, b[..|b| - 1]);
    }
  }

  /** Inserting one more key after a run of keys. */
  lemma WithKeysSnoc(m: map<string, nat>, keys: seq<string>, k: string)
    ensures WithKeys(m, keys + [k]) == InsertKey(WithKeys(m, keys), k)
  {
    assert (keys + [k])[..|keys|] == keys;
  }

  /** The loop of initHouseholdCounter and initPersonCounter over a pool. */
  method InsertPool(m: map<string, nat>, pool: seq<string>) returns (r: map<string, nat>)
    ensures r == WithKeys(m, pool)
  {
    r := m;
    var i := 0;
    while i < |pool|
      invariant 0 <= i <= |pool|
      invariant r == WithKeys(m, pool[..i])
    {
      assert pool[..i + 1][..i] == pool[..i];
      r := InsertKey(r, pool[i]);
      i := i + 1;
    }
    assert pool[..i] == pool;
  }

  /** The sixteen keys of one NHANES pool entry, for rf = 1..n. */
  function StrataKeys(e: string, n: nat): (r: seq<string>)
    ensures |r| == n
  {
    if n == 0 then [] else StrataKeys(e, n - 1) + [IntToString(n) + e]
  }

  /** Position rf - 1 holds the key of stratum rf. */
  lemma {:induction false} StrataKeyAt(e: string, n: nat, i: nat)
    requires i < n
    ensures StrataKeys(e, n)[i] == IntToString(i + 1) + e
    decreases n
  {
    if i < n - 1 {
      StrataKeyAt(e, n - 1, i);
    }
  }

  /** The keys initRiskFacCounter inserts, in its order: by pool entry, then by rf. */
  function RiskFactorKeySeq(pool: seq<string>): seq<string>
  {
    if |pool| == 0 then [] else RiskFactorKeySeq(pool[..|pool| - 1]) + StrataKeys(pool[|pool| - 1], NumRiskStrata)
  }

  /** The two nested loops of initRiskFacCounter: for each pool entry in turn, the
      inner loop over rf = 1..16 inserts the keys of StrataKeys in order. */
  method InsertRiskFactorKeys(m: map<string, nat>, pool: seq<string>) returns (r: map<string, nat>)
    ensures r == WithKeys(m, RiskFactorKeySeq(pool))
  {
    r := m;
    var nh := 0;
    while nh < |pool|
      invariant 0 <= nh <= |pool|
      invariant r == WithKeys(m, RiskFactorKeySeq(pool[..nh]))
    {
      r := InsertPool(r, StrataKeys(pool[nh], NumRiskStrata));
      assert pool[..nh + 1][..nh] == pool[..nh];
      WithKeysConcat(m, RiskFactorKeySeq(pool[..nh]), StrataKeys(pool[nh], NumRiskStrata));
      nh := nh + 1;
    }
    assert pool[..nh] == pool;
  }

  /** The register-only-once add, on a map of named or per-tick counts: a registered
      key goes up by one; an unknown key changes nothing. */
  function Hit<K>(m: map<K, nat>, key: K): (r: map<K, nat>)
    ensures r.Keys == m.Keys
    ensures forall k :: k in m ==> r[k] == m[k] + (if k == key then 1 else 0)
  {
    if key in m then m[key := m[key] + 1] else m
  }

  /** A sequence of hits, one after the other. */
  function HitAll(m: map<string, nat>, keys: seq<string>): map<string, nat>
  {
    if |keys| == 0 then m else Hit(HitAll(m, keys[..|keys| - 1]), keys[|keys| - 1])
  }

  /** Hitting a + b is hitting a, then b. */
  lemma {:induction false} HitAllConcat(m: map<string, nat>, a: seq<string>, b: seq<string>)
    ensures HitAll(m, a + b) == HitAll(HitAll(m, a), b)
    decreases |b|
  {
    if |b| == 0 {
      assert a + b == a;
    } else {
      assert (a + b)[..|a + b| - 1] == a + b[..|b| - 1];
      HitAllConcat(m, a, b[..|b| - 1]);
    }
  }

  /** getHouseholdCount / getPersonCount on a tally map. */
  function CountOf(m: map<string, nat>, key: string): (n: int)
    ensures n == -1 <==> key !in m
    ensures key in m ==> n == m[key]
  {
    if key in m then m[key] else -1
  }

  /** After any sequence of hits the registered keys are the same, and each one has
      gained the number of times it was hit. */
  lemma {:induction false} HitAllCounts(m: map<string, nat>, keys: seq<string>, k: string)
    ensures HitAll(m, keys).Keys == m.Keys
    ensures k in m ==> HitAll(m, keys)[k] == m[k] + CountIf(keys, (x: string) => x == k)
    decreases |keys|
  {
    if |keys| > 0 {
      HitAllCounts(m, keys[..|keys| - 1], k);
    }
  }

  /** Reading a counter started from a pool: the number of hits of the key when it is
      in the pool, -1 when it is not. */
  lemma CountAfterHits(pool: seq<string>, keys: seq<string>, k: string)
    ensures CountOf(HitAll(ZeroCounts(pool), keys), k) ==
      if k in pool then CountIf(keys, (x: string) => x == k) else -1
  {
    HitAllCounts(ZeroCounts(pool), keys, k);
  }

  /** initRiskFacCounter registers sixteen keys per pool entry. */
  lemma {:induction false} RiskFactorKeyCount(pool: seq<string>)
    ensures |RiskFactorKeySeq(pool)| == NumRiskStrata * |pool|
    decreases |pool|
  {
    if |pool| > 0 {
      RiskFactorKeyCount(pool[..|pool| - 1]);
    }
  }

  /** Where each registered key sits in the insertion order of initRiskFacCounter:
      entry j is decimal(j % 16 + 1) followed by pool entry j / 16, so every pool
      entry contributes the keys of rf = 1..16 and nothing else is registered. */
  lemma {:induction false} RiskFactorKeyAt(pool: seq<string>, j: nat)
    requires j < NumRiskStrata * |pool|
    ensures |RiskFactorKeySeq(pool)| == NumRiskStrata * |pool|
    ensures RiskFactorKeySeq(pool)[j] == IntToString(j % NumRiskStrata + 1) + pool[j / NumRiskStrata]
    decreases |pool|
  {
    RiskFactorKeyCount(pool);
    var n := |pool| - 1;
    var pre := pool[..n];
    var last := StrataKeys(pool[n], NumRiskStrata);
    RiskFactorKeyCount(pre);
    assert RiskFactorKeySeq(pool) == RiskFactorKeySeq(pre) + last;
    if j < NumRiskStrata * n {
      RiskFactorKeyAt(pre, j);
      assert j / NumRiskStrata < n;
      assert pre[j / NumRiskStrata] == pool[j / NumRiskStrata];
    } else {
      var k := j - NumRiskStrata * n;
      assert j / NumRiskStrata == n && j % NumRiskStrata == k;
      StrataKeyAt(pool[n], NumRiskStrata, k);
    }
  }

  /** Two risk strata never share a key for the same pool entry, so every entry
      registers sixteen distinct keys. */
  lemma RiskFactorKeysDistinct(rf1: int, rf2: int, e: string)
    ensures IntToString(rf1) + e == IntToString(rf2) + e <==> rf1 == rf2
  {
    var s1, s2 := IntToString(rf1), IntToString(rf2);
    if s1 + e == s2 + e {
      assert |s1| == |s2|;
      assert s1 == (s1 + e)[..|s1|];
      assert s2 == (s2 + e)[..|s2|];
      ParseIntOfIntToString(rf1);
      ParseIntOfIntToString(rf2);
    }
  }

  /** The per-tick map initPtsdCounter and initTreatmentCounter create: ticks
      0..steps-1, each zero. */
  function ZeroTicks(steps: int): (m: map<int, nat>)
    ensures forall k :: k in m <==> 0 <= k < steps
    ensures forall k :: k in m ==> m[k] == 0
    decreases steps
  {
    if steps <= 0 then map[] else ZeroTicks(steps - 1)[steps - 1 := 0]
  }

  /** std::map::insert of a zero count: a tick already present keeps its count. */
  function InsertZero(m: map<int, nat>, k: int): (r: map<int, nat>)
  {
    if k in m then m else m[k := 0]
  }

  /** Inserting zero counts for ticks 0..steps-1, in that order. */
  function WithZeroTicks(m: map<int, nat>, steps: int): map<int, nat>
    decreases steps
  {
    if steps <= 0 then m else InsertZero(WithZeroTicks(m, steps - 1), steps - 1)
  }

  /** Inserting the ticks keeps every count already present and adds the missing
      ticks at zero. */
  lemma {:induction false} WithZeroTicksIsUnion(m: map<int, nat>, steps: int)
    ensures WithZeroTicks(m, steps) == ZeroTicks(steps) + m
    decreases steps
  {
    if steps > 0 {
      WithZeroTicksIsUnion(m, steps - 1);
    }
  }

  /** The innermost loop of initPtsdCounter for one treatment and PTSD type: ticks
      0..steps-1 at zero in the PTSD and resolved maps, and, for the first PTSD
      type, in the CBT and SPR reach maps of the treatment. */
  method FillTicks(ptsd: map<int, nat>, resolved: map<int, nat>, cbt: map<int, nat>, spr: map<int, nat>,
                   withReach: bool, steps: int)
    returns (ptsd': map<int, nat>, resolved': map<int, nat>, cbt': map<int, nat>, spr': map<int, nat>)
    ensures ptsd' == WithZeroTicks(ptsd, steps) && resolved' == WithZeroTicks(resolved, steps)
    ensures cbt' == (if withReach then WithZeroTicks(cbt, steps) else cbt)
    ensures spr' == (if withReach then WithZeroTicks(spr, steps) else spr)
  {
    ptsd', resolved', cbt', spr' := ptsd, resolved, cbt, spr;
    var k := 0;
    while k < steps
      invariant 0 <= k <= if steps < 0 then 0 else steps
      invariant ptsd' == WithZeroTicks(ptsd, k) && resolved' == WithZeroTicks(resolved, k)
      invariant cbt' == (if withReach then WithZeroTicks(cbt, k) else cbt)
      invariant spr' == (if withReach then WithZeroTicks(spr, k) else spr)
    {
      ptsd', resolved' := InsertZero(ptsd', k), InsertZero(resolved', k);
      if withReach {
        cbt', spr' := InsertZero(cbt', k), InsertZero(spr', k);
      }
      k := k + 1;
    }
  }

  /** The middle loop of initPtsdCounter for one treatment, on the maps clearCounter
      emptied: every PTSD type gets ticks 0..steps-1, and the reach maps get them
      with the first PTSD type. */
  method FillTreatment(steps: int)
    returns (row: seq<map<int, nat>>, rowResolved: seq<map<int, nat>>, cbt: map<int, nat>, spr: map<int, nat>)
    ensures row == [WithZeroTicks(map[], steps), WithZeroTicks(map[], steps), WithZeroTicks(map[], steps)]
    ensures rowResolved == row
    ensures cbt == WithZeroTicks(map[], steps) && spr == WithZeroTicks(map[], steps)
  {
    var zero := WithZeroTicks(map[], steps);
    row, rowResolved, cbt, spr := [map[], map[], map[]], [map[], map[], map[]], map[], map[];
    var j := 0;
    while j < NumPtsd
      invariant 0 <= j <= NumPtsd && |row| == NumPtsd && |rowResolved| == NumPtsd
      invariant forall b :: 0 <= b < NumPtsd ==> row[b] == (if b < j then zero else map[])
      invariant forall b :: 0 <= b < NumPtsd ==> rowResolved[b] == (if b < j then zero else map[])
      invariant cbt == (if j > 0 then zero else map[]) && spr == (if j > 0 then zero else map[])
    {
      var p, r, c, s := FillTicks(row[j], rowResolved[j], cbt, spr, j == 0, steps);
      row, rowResolved, cbt, spr := row[j := p], rowResolved[j := r], c, s;
      j := j + 1;
    }
  }

  /** Which of the three string-keyed tally maps clearMap is given. */
  datatype TypeMapName = HouseholdCounts | PersonCounts | RiskFactorCounts

  class Counter {
    var householdCount: map<string, nat>
    var personCount: map<string, nat>
    var riskFacCount: map<string, nat>
    // m_ptsdCount[NUM_TREATMENT][NUM_PTSD] and m_ptsdResolvedCount: tick -> count
    var ptsdCount: seq<seq<map<int, nat>>>
    var ptsdResolvedCount: seq<seq<map<int, nat>>>
    // m_cbtReach[NUM_TREATMENT], m_sprReach[NUM_TREATMENT]
    var cbtReach: seq<map<int, nat>>
    var sprReach: seq<map<int, nat>>
    var cbtCount: map<int, nat>
    var sprCount: map<int, nat>
    var ndCount: map<int, nat>

    /** The fixed shape of the C arrays of maps. */
    predicate Valid()
      reads this
    {
      && |ptsdCount| == NumTreatment && |ptsdResolvedCount| == NumTreatment
      && (forall i :: 0 <= i < NumTreatment ==> |ptsdCount[i]| == NumPtsd)
      && (forall i :: 0 <= i < NumTreatment ==> |ptsdResolvedCount[i]| == NumPtsd)
      && |cbtReach| == NumTreatment && |sprReach| == NumTreatment
    }

    /** Default construction: every map empty. */
    constructor ()
      ensures Valid()
      ensures householdCount == map[] && personCount == map[] && riskFacCount == map[]
      ensures forall i, j :: 0 <= i < NumTreatment && 0 <= j < NumPtsd ==>
        ptsdCount[i][j] == map[] && ptsdResolvedCount[i][j] == map[]
      ensures forall i :: 0 <= i < NumTreatment ==> cbtReach[i] == map[] && sprReach[i] == map[]
      ensures cbtCount == map[] && sprCount == map[] && ndCount == map[]
    {
      householdCount, personCount, riskFacCount := map[], map[], map[];
      var row: seq<map<int, nat>> := [map[], map[], map[]];
      ptsdCount := [row, row, row];
      ptsdResolvedCount := [row, row, row];
      cbtReach, sprReach := row, row;
      cbtCount, sprCount, ndCount := map[], map[], map[];
    }

    function HouseholdCount(hhType: string): (n: int)
      reads this
      ensures n == CountOf(householdCount, hhType)
    {
      if hhType in householdCount then householdCount[hhType] else -1
    }

    function PersonCount(personType: string): (n: int)
      reads this
      ensures n == CountOf(personCount, personType)
    {
      if personType in personCount then personCount[personType] else -1
    }

    /** initHouseholdCounter: the old tallies are cleared and every household type of
        the pool is registered with no hits. */
    method InitHouseholdCounter(pool: seq<string>)
      modifies this`householdCount, this`personCount, this`riskFacCount
      ensures householdCount == ZeroCounts(pool)
      ensures personCount == old(personCount) && riskFacCount == old(riskFacCount)
    {
      ClearMap(HouseholdCounts);
      householdCount := InsertPool(householdCount, pool);
      WithKeysOfEmpty(pool);
    }

    /** initPersonCounter: the same for the person types. */
    method InitPersonCounter(pool: seq<string>)
      modifies this`householdCount, this`personCount, this`riskFacCount
      ensures personCount == ZeroCounts(pool)
      ensures householdCount == old(householdCount) && riskFacCount == old(riskFacCount)
    {
      ClearMap(PersonCounts);
      personCount := InsertPool(personCount, pool);
      WithKeysOfEmpty(pool);
    }

    /** initRiskFacCounter: sixteen zeroed risk-stratum keys per NHANES pool entry
        (which keys those are: RiskFactorKeyAt). */
    method InitRiskFacCounter(pool: seq<string>)
      modifies this`householdCount, this`personCount, this`riskFacCount
      ensures riskFacCount == ZeroCounts(RiskFactorKeySeq(pool))
      ensures householdCount == old(householdCount) && personCount == old(personCount)
    {
      ClearMap(RiskFactorCounts);
      riskFacCount := InsertRiskFactorKeys(riskFacCount, pool);
      WithKeysOfEmpty(RiskFactorKeySeq(pool));
    }

    /** initPtsdCounter: after clearCounter, every treatment x PTSD-type map and every
        per-treatment reach map holds ticks 0..steps-1 at zero, and so do the overall
        treatment counts. */
    method InitPtsdCounter(steps: int)
      requires Valid()
      modifies this`ptsdCount, this`ptsdResolvedCount, this`cbtReach, this`sprReach
      modifies this`cbtCount, this`sprCount, this`ndCount
      ensures Valid()
      ensures forall i, j :: 0 <= i < NumTreatment && 0 <= j < NumPtsd ==>
        ptsdCount[i][j] == ZeroTicks(steps) && ptsdResolvedCount[i][j] == ZeroTicks(steps)
      ensures forall i :: 0 <= i < NumTreatment ==> cbtReach[i] == ZeroTicks(steps) && sprReach[i] == ZeroTicks(steps)
      ensures cbtCount == ZeroTicks(steps) && sprCount == ZeroTicks(steps) && ndCount == ZeroTicks(steps)
    {
      ClearCounter();
      label cleared:
      var pc, prc, cr, sr := ptsdCount, ptsdResolvedCount, cbtReach, sprReach;
      var zero := WithZeroTicks(map[], steps);
      var i := 0;
      while i < NumTreatment
        invariant 0 <= i <= NumTreatment && unchanged@cleared(this)
        invariant |pc| == NumTreatment && |prc| == NumTreatment && |cr| == NumTreatment && |sr| == NumTreatment
        invariant forall a :: 0 <= a < NumTreatment ==>
          pc[a] == (if a < i then [zero, zero, zero] else [map[], map[], map[]]) &&
          prc[a] == (if a < i then [zero, zero, zero] else [map[], map[], map[]])
        invariant forall a :: 0 <= a < NumTreatment ==>
          cr[a] == (if a < i then zero else map[]) && sr[a] == (if a < i then zero else map[])
      {
        var row, rowResolved, c, s := FillTreatment(steps);
        pc, prc, cr, sr := pc[i := row], prc[i := rowResolved], cr[i := c], sr[i := s];
        i := i + 1;
      }
      ptsdCount, ptsdResolvedCount, cbtReach, sprReach := pc, prc, cr, sr;
      InitTreatmentCounter(steps);
      WithZeroTicksIsUnion(map[], steps);
      assert ZeroTicks(steps) + map[] == ZeroTicks(steps);
    }

    /** initTreatmentCounter: ticks 0..steps-1 added at zero to the overall CBT, SPR
        and natural-decay counts; ticks already present keep their counts. */
    method InitTreatmentCounter(steps: int)
      modifies this`cbtCount, this`sprCount, this`ndCount
      ensures cbtCount == WithZeroTicks(old(cbtCount), steps)
      ensures sprCount == WithZeroTicks(old(sprCount), steps)
      ensures ndCount == WithZeroTicks(old(ndCount), steps)
    {
      var cbt, spr, nd := cbtCount, sprCount, ndCount;
      var i := 0;
      while i < steps
        invariant 0 <= i <= if steps < 0 then 0 else steps
        invariant cbt == WithZeroTicks(old(cbtCount), i)
        invariant spr == WithZeroTicks(old(sprCount), i)
        invariant nd == WithZeroTicks(old(ndCount), i)
      {
        cbt, spr, nd := InsertZero(cbt, i), InsertZero(spr, i), InsertZero(nd, i);
        i := i + 1;
      }
      cbtCount, sprCount, ndCount := cbt, spr, nd;
    }

    method AddHouseholdCount(hhType: string)
      modifies this`householdCount
      ensures householdCount == Hit(old(householdCount), hhType)
    {
      if hhType in householdCount {
        householdCount := householdCount[hhType := householdCount[hhType] + 1];
      }
    }

    method AddPersonCount(personType: string)
      modifies this`personCount
      ensures personCount == Hit(old(personCount), personType)
    {
      if personType in personCount {
        personCount := personCount[personType := personCount[personType] + 1];
      }
    }

    method AddRiskFactorCount(rfType: string)
      modifies this`riskFacCount
      ensures riskFacCount == Hit(old(riskFacCount), rfType)
    {
      if rfType in riskFacCount {
        riskFacCount := riskFacCount[rfType := riskFacCount[rfType] + 1];
      }
    }

    /** addPtsdCount: the array indices must be in range (the C arrays are not
        checked); only an initialised tick is counted. */
    method AddPtsdCount(treatment: int, ptsdType: int, tick: int)
      requires Valid() && 0 <= treatment < NumTreatment && 0 <= ptsdType < NumPtsd
      modifies this`ptsdCount
      ensures Valid()
      ensures ptsdCount == old(ptsdCount)[treatment := old(ptsdCount)[treatment][ptsdType := Hit(old(ptsdCount)[treatment][ptsdType], tick)]]
    {
      var m := ptsdCount[treatment][ptsdType];
      if tick in m {
        ptsdCount := ptsdCount[treatment := ptsdCount[treatment][ptsdType := m[tick := m[tick] + 1]]];
      } else {
        assert ptsdCount[treatment][ptsdType := m] == ptsdCount[treatment];
      }
    }

    method AddPtsdResolvedCount(treatment: int, ptsdType: int, tick: int)
      requires Valid() && 0 <= treatment < NumTreatment && 0 <= ptsdType < NumPtsd
      modifies this`ptsdResolvedCount
      ensures Valid()
      ensures ptsdResolvedCount == old(ptsdResolvedCount)[treatment := old(ptsdResolvedCount)[treatment][ptsdType := Hit(old(ptsdResolvedCount)[treatment][ptsdType], tick)]]
    {
      var m := ptsdResolvedCount[treatment][ptsdType];
      if tick in m {
        ptsdResolvedCount := ptsdResolvedCount[treatment := ptsdResolvedCount[treatment][ptsdType := m[tick := m[tick] + 1]]];
      } else {
        assert ptsdResolvedCount[treatment][ptsdType := m] == ptsdResolvedCount[treatment];
      }
    }

    method AddCbtReach(treatment: int, tick: int)
      requires Valid() && 0 <= treatment < NumTreatment
      modifies this`cbtReach
      ensures Valid()
      ensures cbtReach == old(cbtReach)[treatment := Hit(old(cbtReach)[treatment], tick)]
    {
      if tick in cbtReach[treatment] {
        cbtReach := cbtReach[treatment := cbtReach[treatment][tick := cbtReach[treatment][tick] + 1]];
      }
    }

    method AddSprReach(treatment: int, tick: int)
      requires Valid() && 0 <= treatment < NumTreatment
      modifies this`sprReach
      ensures Valid()
      ensures sprReach == old(sprReach)[treatment := Hit(old(sprReach)[treatment], tick)]
    {
      if tick in sprReach[treatment] {
        sprReach := sprReach[treatment := sprReach[treatment][tick := sprReach[treatment][tick] + 1]];
      }
    }

    method AddCbtCount(tick: int)
      modifies this`cbtCount
      ensures cbtCount == Hit(old(cbtCount), tick)
    {
      if tick in cbtCount {
        cbtCount := cbtCount[tick := cbtCount[tick] + 1];
      }
    }

    method AddSprCount(tick: int)
      modifies this`sprCount
      ensures sprCount == Hit(old(sprCount), tick)
    {
      if tick in sprCount {
        sprCount := sprCount[tick := sprCount[tick] + 1];
      }
    }

    method AddNaturalDecayCount(tick: int)
      modifies this`ndCount
      ensures ndCount == Hit(old(ndCount), tick)
    {
      if tick in ndCount {
        ndCount := ndCount[tick := ndCount[tick] + 1];
      }
    }

    /** clearMap: the chosen tally map is left empty. */
    method ClearMap(which: TypeMapName)
      modifies this`householdCount, this`personCount, this`riskFacCount
      ensures householdCount == if which == HouseholdCounts then map[] else old(householdCount)
      ensures personCount == if which == PersonCounts then map[] else old(personCount)
      ensures riskFacCount == if which == RiskFactorCounts then map[] else old(riskFacCount)
    {
      match which
      case HouseholdCounts => householdCount := map[];
      case PersonCounts => personCount := map[];
      case RiskFactorCounts => riskFacCount := map[];
    }

    /** clearCounter: every PTSD, reach and treatment map is left empty. */
    method ClearCounter()
      requires Valid()
      modifies this`ptsdCount, this`ptsdResolvedCount, this`cbtReach, this`sprReach
      modifies this`cbtCount, this`sprCount, this`ndCount
      ensures Valid()
      ensures forall i, j :: 0 <= i < NumTreatment && 0 <= j < NumPtsd ==>
        ptsdCount[i][j] == map[] && ptsdResolvedCount[i][j] == map[]
      ensures forall i :: 0 <= i < NumTreatment ==> cbtReach[i] == map[] && sprReach[i] == map[]
      ensures cbtCount == map[] && sprCount == map[] && ndCount == map[]
    {
      var pc, prc, cr, sr := ptsdCount, ptsdResolvedCount, cbtReach, sprReach;
      var i := 0;
      while i < NumTreatment
        invariant 0 <= i <= NumTreatment
        invariant |pc| == NumTreatment && |prc| == NumTreatment && |cr| == NumTreatment && |sr| == NumTreatment
        invariant forall a :: 0 <= a < NumTreatment ==> |pc[a]| == NumPtsd && |prc[a]| == NumPtsd
        invariant forall a, b :: 0 <= a < i && 0 <= b < NumPtsd ==> pc[a][b] == map[] && prc[a][b] == map[]
        invariant forall a :: 0 <= a < i ==> cr[a] == map[] && sr[a] == map[]
      {
        var j := 0;
        while j < NumPtsd
          invariant 0 <= j <= NumPtsd
          invariant |pc| == NumTreatment && |prc| == NumTreatment
          invariant forall a :: 0 <= a < NumTreatment ==> |pc[a]| == NumPtsd && |prc[a]| == NumPtsd
          invariant forall a, b :: 0 <= a < i && 0 <= b < NumPtsd ==> pc[a][b] == map[] && prc[a][b] == map[]
          invariant forall b :: 0 <= b < j ==> pc[i][b] == map[] && prc[i][b] == map[]
        {
          pc := pc[i := pc[i][j := map[]]];
          prc := prc[i := prc[i][j := map[]]];
          j := j + 1;
        }
        cr, sr := cr[i := map[]], sr[i := map[]];
        i := i + 1;
      }
      ptsdCount, ptsdResolvedCount, cbtReach, sprReach := pc, prc, cr, sr;
      sprCount, cbtCount, ndCount := map[], map[], map[];
    }
  }
}
