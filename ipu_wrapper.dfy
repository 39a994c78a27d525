/** The household and person constraints the IPU is given, and the donor household
    list it reweights (src/IPUWrapper.cpp): constraint pooling, the household-size
    rescaling, the seed counts of the PUMS records, the donor filter and the list of
    states to import. */
module IpuWrapper {
  import opened Wrappers
  import opened RealSums
  import opened Text
  import opened Acs
  import opened IpfPrep
  import opened PersonPums
  import opened HouseholdPums

  // ---------------------------------------------------------------------------
  // Constraint pooling (addConstraints)

  /** The constraint addConstraints stores in place of an exact zero. */
  const ZeroConstraint: real := 0.01

  function GuardZero(x: real): real
  {
    if x != 0.0 then x else ZeroConstraint
  }

  /** The rows of a std::map<int, Marginal>, in key order, laid end to end. */
  function Flatten(rows: seq<seq<real>>): (r: seq<real>)
  {
    if |rows| == 0 then [] else Flatten(rows[..|rows| - 1]) + rows[|rows| - 1]
  }

  function Guarded(s: seq<real>): (r: seq<real>)
    ensures |r| == |s|
    ensures forall i :: 0 <= i < |s| ==> r[i] == GuardZero(s[i])
  {
    seq(|s|, i requires 0 <= i < |s| => GuardZero(s[i]))
  }

  lemma GuardedAppend(a: seq<real>, b: seq<real>)
    ensures Guarded(a + b) == Guarded(a) + Guarded(b)
  {
    assert forall i :: 0 <= i < |a + b| ==> Guarded(a + b)[i] == (Guarded(a) + Guarded(b))[i];
  }

  /** Every entry of the laid-out rows comes from one of the rows. */
  lemma {:induction false} FlattenNonNegative(rows: seq<seq<real>>)
    requires forall r, i :: 0 <= r < |rows| && 0 <= i < |rows[r]| ==> rows[r][i] >= 0.0
    ensures forall k :: 0 <= k < |Flatten(rows)| ==> Flatten(rows)[k] >= 0.0
    decreases |rows|
  {
    if |rows| > 0 {
      var n := |rows| - 1;
      FlattenNonNegative(rows[..n]);
      var f := Flatten(rows[..n]);
      assert forall k :: |f| <= k < |Flatten(rows)| ==> Flatten(rows)[k] == rows[n][k - |f|];
    }
  }

  /** Constraints pooled from non-negative estimates are all positive, as the IPU
      solver needs. */
  lemma PooledConstraintsPositive(rows: seq<seq<real>>)
    requires forall r, i :: 0 <= r < |rows| && 0 <= i < |rows[r]| ==> rows[r][i] >= 0.0
    ensures forall k :: 0 <= k < |Guarded(Flatten(rows))| ==> Guarded(Flatten(rows))[k] > 0.0
  {
    FlattenNonNegative(rows);
  }

  lemma {:induction false} FlattenLength(rows: seq<seq<real>>, width: nat)
    requires forall r :: 0 <= r < |rows| ==> |rows[r]| == width
    ensures |Flatten(rows)| == |rows| * width
    decreases |rows|
  {
    if |rows| > 0 {
      FlattenLength(rows[..|rows| - 1], width);
      assert (|rows| - 1) * width + width == |rows| * width;
    }
  }

  /** With rows of one common width, entry s of row t sits at t * width + s: this is
      the type-major, size-minor order in which the household-size-by-type estimates
      are laid out before the income IPF. */
  lemma {:induction false} FlattenUniformIndex(rows: seq<seq<real>>, width: nat, t: nat, s: nat)
    requires forall r :: 0 <= r < |rows| ==> |rows[r]| == width
    requires t < |rows| && s < width
    ensures |Flatten(rows)| == |rows| * width
    ensures t * width + s < |Flatten(rows)| && Flatten(rows)[t * width + s] == rows[t][s]
    decreases |rows|
  {
    FlattenLength(rows, width);
    var n := |rows| - 1;
    var prefix := Flatten(rows[..n]);
    FlattenLength(rows[..n], width);
    var p := |prefix|;
    assert p == n * width;
    var idx := t * width + s;
    if t < n {
      FlattenUniformIndex(rows[..n], width, t, s);
      assert idx < p;
      assert Flatten(rows)[idx] == prefix[idx];
    } else {
      assert idx == p + s;
      assert Flatten(rows)[idx] == rows[n][s];
    }
  }

  // ---------------------------------------------------------------------------
  // The person-constraint table (getConstraintsMap)

  /** Household constraints precede the person constraints: group quarters, then
      household type x size x income. */
  const HouseholdConstraintCount: nat := HHTypeSize * HHSizeSize * HHIncomeSize + 1

  /** Children 0-17 in four age categories, by sex and origin. */
  const ChildAgeCatSize: nat := 4
  const ChildConstraintCount: nat := SexSize * ChildAgeCatSize * OriginSize
  /** Adults by sex, education age band, origin and education. */
  const AdultConstraintCount: nat := SexSize * EduAgeCatSize * OriginSize * EducationSize
  const PersonConstraintCount: nat := ChildConstraintCount + AdultConstraintCount

  function ChildKey(sex: int, ageCat: int, origin: int): string
  {
    "0" + IntToString(sex) + IntToString(ageCat) + IntToString(origin)
  }

  function AdultKey(sex: int, eduAge: int, origin: int, edu: int): string
  {
    IntToString(sex) + IntToString(eduAge) + IntToString(origin) + IntToString(edu)
  }

  /** The table index of a child key: sex outermost, origin innermost. */
  function ChildIndex(sex: int, ageCat: int, origin: int): int
  {
    ((sex - 1) * ChildAgeCatSize + (ageCat - 1)) * OriginSize + (origin - 1)
  }

  /** The table index of an adult key, after all child keys. */
  function AdultIndex(sex: int, eduAge: int, origin: int, edu: int): int
  {
    ChildConstraintCount + (((sex - 1) * EduAgeCatSize + (eduAge - 1)) * OriginSize + (origin - 1)) * EducationSize + (edu - 1)
  }

  predicate ChildCell(sex: int, ageCat: int, origin: int)
  {
    1 <= sex <= SexSize && 1 <= ageCat <= ChildAgeCatSize && 1 <= origin <= OriginSize
  }

  predicate AdultCell(sex: int, eduAge: int, origin: int, edu: int)
  {
    1 <= sex <= SexSize && 1 <= eduAge <= EduAgeCatSize && 1 <= origin <= OriginSize && 1 <= edu <= EducationSize
  }

  /** The two index ranges tile the person constraints: children take 0..63 and
      adults 64..623. */
  lemma ConstraintIndexRanges(sex: int, ageCat: int, origin: int, eduAge: int, edu: int)
    ensures ChildCell(sex, ageCat, origin) ==> 0 <= ChildIndex(sex, ageCat, origin) < ChildConstraintCount
    ensures AdultCell(sex, eduAge, origin, edu) ==>
      ChildConstraintCount <= AdultIndex(sex, eduAge, origin, edu) < PersonConstraintCount
  {
    if ChildCell(sex, ageCat, origin) {
      assert (sex - 1) * ChildAgeCatSize + (ageCat - 1) <= 7;
    }
    if AdultCell(sex, eduAge, origin, edu) {
      var a := (sex - 1) * EduAgeCatSize + (eduAge - 1);
      assert 0 <= a <= 9;
      assert 0 <= a * OriginSize + (origin - 1) <= 79;
    }
  }

  /** m_personCons[key] over the table getConstraintsMap builds from the person
      constraints pc: the constraint of a child or adult key, and 0 for any other key
      (operator[] value-initialises a missing entry). */
  function ConstraintLookup(pc: seq<real>, key: string): real
    requires |pc| >= PersonConstraintCount
  {
    if |key| == 4 && AllDigits(key) then
      var d0, d1, d2, d3 := DigitValue(key[0]), DigitValue(key[1]), DigitValue(key[2]), DigitValue(key[3]);
      if d0 == 0 && ChildCell(d1, d2, d3) then
        ConstraintIndexRanges(d1, d2, d3, 1, 1);
        pc[ChildIndex(d1, d2, d3)]
      else if AdultCell(d0, d1, d2, d3) then
        ConstraintIndexRanges(d0, 1, d2, d1, d3);
        pc[AdultIndex(d0, d1, d2, d3)]
      else 0.0
    else 0.0
  }

  lemma DigitString(d: int)
    requires 0 <= d < 10
    ensures IntToString(d) == [DigitChar(d)]
  {
  }

  /** Each key the constraint loop inserts finds the constraint inserted with it. */
  lemma ChildKeyLookup(pc: seq<real>, sex: int, ageCat: int, origin: int)
    requires |pc| >= PersonConstraintCount && ChildCell(sex, ageCat, origin)
    ensures 0 <= ChildIndex(sex, ageCat, origin) < PersonConstraintCount
    ensures ConstraintLookup(pc, ChildKey(sex, ageCat, origin)) == pc[ChildIndex(sex, ageCat, origin)]
  {
    ConstraintIndexRanges(sex, ageCat, origin, 1, 1);
    DigitString(sex);
    DigitString(ageCat);
    DigitString(origin);
    var key := ChildKey(sex, ageCat, origin);
    assert key == [DigitChar(0), DigitChar(sex), DigitChar(ageCat), DigitChar(origin)];
  }

  lemma AdultKeyLookup(pc: seq<real>, sex: int, eduAge: int, origin: int, edu: int)
    requires |pc| >= PersonConstraintCount && AdultCell(sex, eduAge, origin, edu)
    ensures ChildConstraintCount <= AdultIndex(sex, eduAge, origin, edu) < PersonConstraintCount
    ensures ConstraintLookup(pc, AdultKey(sex, eduAge, origin, edu)) == pc[AdultIndex(sex, eduAge, origin, edu)]
  {
    ConstraintIndexRanges(sex, 1, origin, eduAge, edu);
    DigitString(sex);
    DigitString(eduAge);
    DigitString(origin);
    DigitString(edu);
    var key := AdultKey(sex, eduAge, origin, edu);
    assert key == [DigitChar(sex), DigitChar(eduAge), DigitChar(origin), DigitChar(edu)];
  }

  // ---------------------------------------------------------------------------
  // Donor households (refineHHPumsList)

  /** One entry of m_householdPUMS: the household index it is keyed by, the household
      and its members. */
  datatype Household = Household(index: real, record: HouseholdRecord, persons: seq<PersonRecord>)

  /** The constraint key of a person: children by sex, age category and origin
      (with a leading "0"), adults by sex, education age band, origin and education. */
  function PersonKey(p: PersonRecord): string
  {
    if p.age < 18 then ChildKey(p.sex, p.ageCat, p.origin)
    else AdultKey(p.sex, p.eduAgeCat, p.origin, p.education)
  }

  predicate PersonValid(pc: seq<real>, p: PersonRecord)
    requires |pc| >= PersonConstraintCount
  {
    ConstraintLookup(pc, PersonKey(p)) > ZeroConstraint
  }

  predicate AllValid(pc: seq<real>, persons: seq<PersonRecord>)
    requires |pc| >= PersonConstraintCount
  {
    forall i :: 0 <= i < |persons| ==> PersonValid(pc, persons[i])
  }

  /** The value valid_person has after scanning one household: true when every
      member is valid; a household without members leaves it as it was. */
  function Verdict(pc: seq<real>, persons: seq<PersonRecord>, carried: bool): bool
    requires |pc| >= PersonConstraintCount
  {
    if |persons| == 0 then carried else AllValid(pc, persons)
  }

  /** The households refineHHPumsList keeps, the verdict carried from one household
      to the next. */
  function Refined(pc: seq<real>, hs: seq<Household>, carried: bool): (r: seq<Household>)
    requires |pc| >= PersonConstraintCount
    ensures |r| <= |hs|
  {
    if |hs| == 0 then []
    else
      var v := Verdict(pc, hs[0].persons, carried);
      (if v then [hs[0]] else []) + Refined(pc, hs[1..], v)
  }

  /** When every household has members, exactly the households all of whose members
      are valid survive, in their original order. */
  lemma {:induction false} RefinedKeepsValidHouseholds(pc: seq<real>, hs: seq<Household>, carried: bool)
    requires |pc| >= PersonConstraintCount
    requires forall i :: 0 <= i < |hs| ==> |hs[i].persons| > 0
    ensures forall h :: h in Refined(pc, hs, carried) <==> h in hs && AllValid(pc, h.persons)
    decreases |hs|
  {
    if |hs| > 0 {
      var v := Verdict(pc, hs[0].persons, carried);
      assert v == AllValid(pc, hs[0].persons);
      var rest := Refined(pc, hs[1..], v);
      RefinedKeepsValidHouseholds(pc, hs[1..], v);
      var r := Refined(pc, hs, carried);
      assert r == (if v then [hs[0]] else []) + rest;
      assert forall h :: h in r <==> (v && h == hs[0]) || h in rest;
      InFrontOrRest(hs);
    }
  }

  lemma InFrontOrRest(hs: seq<Household>)
    requires |hs| > 0
    ensures forall h :: h in hs <==> h == hs[0] || h in hs[1..]
  {
    assert hs == [hs[0]] + hs[1..];
  }

  /** Every surviving household comes from the input list. */
  lemma {:induction false} RefinedIsSublist(pc: seq<real>, hs: seq<Household>, carried: bool)
    requires |pc| >= PersonConstraintCount
    ensures forall h :: h in Refined(pc, hs, carried) ==> h in hs
    decreases |hs|
  {
    if |hs| > 0 {
      RefinedIsSublist(pc, hs[1..], Verdict(pc, hs[0].persons, carried));
      assert forall h :: h in hs[1..] ==> h in hs;
    }
  }

  lemma RefinedStep(pc: seq<real>, hs: seq<Household>, i: nat, carried: bool)
    requires |pc| >= PersonConstraintCount && i < |hs|
    ensures var v := Verdict(pc, hs[i].persons, carried);
      Refined(pc, hs[i..], carried) == (if v then [hs[i]] else []) + Refined(pc, hs[i + 1..], v)
  {
    assert hs[i..][0] == hs[i] && hs[i..][1..] == hs[i + 1..];
  }

  /** The household loop of refineHHPumsList: the households whose scan leaves
      valid_person true, in their order. */
  method RefineHouseholds(pc: seq<real>, hs: seq<Household>, carried: bool) returns (kept: seq<Household>)
    requires |pc| >= PersonConstraintCount
    ensures kept == Refined(pc, hs, carried)
  {
    kept := [];
    var valid := carried;
    var i := 0;
    assert hs[0..] == hs;
    while i < |hs|
      invariant 0 <= i <= |hs|
      invariant Refined(pc, hs, carried) == kept + Refined(pc, hs[i..], valid)
    {
      var v := ScanPersons(pc, hs[i].persons, valid);
      RefinedStep(pc, hs, i, valid);
      var head := if v then [hs[i]] else [];
      Regroup(kept, head, Refined(pc, hs[i + 1..], v));
      kept := kept + head;
      valid := v;
      i := i + 1;
    }
    assert hs[i..] == [];
  }

  /** Concatenation regrouped, so the loop can move one household into the kept list. */
  lemma Regroup<T>(kept: seq<T>, head: seq<T>, rest: seq<T>)
    ensures kept + (head + rest) == (kept + head) + rest
  {
  }

  /** The member scan of one household: it stops at the first invalid member. */
  method ScanPersons(pc: seq<real>, persons: seq<PersonRecord>, carried: bool) returns (valid: bool)
    requires |pc| >= PersonConstraintCount
    ensures valid == Verdict(pc, persons, carried)
  {
    valid := ScanMembers(persons, p => PersonValid(pc, p), carried);
  }

  /** The loop of the member scan, over the validity test ok: valid is left as it
      was when there are no members, and otherwise says whether ok holds for all. */
  method ScanMembers<T>(persons: seq<T>, ok: T -> bool, carried: bool) returns (valid: bool)
    ensures valid == if |persons| == 0 then carried else forall j :: 0 <= j < |persons| ==> ok(persons[j])
  {
    valid := carried;
    var i := 0;
    while i < |persons|
      invariant 0 <= i <= |persons|
      invariant forall j :: 0 <= j < i ==> ok(persons[j])
      invariant i > 0 ==> valid
      invariant i == 0 ==> valid == carried
    {
      valid := ok(persons[i]);
      if !valid {
        return;
      }
      i := i + 1;
    }
  }

  // ---------------------------------------------------------------------------
  // Household-size rescaling (adjustHHSizeEstimates)

  /** The number of households of each size, family and nonfamily together. */
  function HouseholdsBySize(est: seq<real>): (r: seq<real>)
    requires |est| >= 2 * HHSizeSize
    ensures |r| == HHSizeSize
    ensures forall i :: 0 <= i < HHSizeSize ==> r[i] == est[i] + est[i + HHSizeSize]
  {
    seq(HHSizeSize, i requires 0 <= i < HHSizeSize => est[i] + est[i + HHSizeSize])
  }

  /** Each size's share of all households. */
  function SizeShares(est: seq<real>): (r: seq<real>)
    requires |est| >= 2 * HHSizeSize && Sum(est) != 0.0
    ensures |r| == HHSizeSize
    ensures forall i :: 0 <= i < HHSizeSize ==> r[i] == HouseholdsBySize(est)[i] / Sum(est)
  {
    seq(HHSizeSize, i requires 0 <= i < HHSizeSize => HouseholdsBySize(est)[i] / Sum(est))
  }

  /** The sum of s[i] * (i + 1): a population when s counts households by size. */
  function SizeWeighted(s: seq<real>): real
  {
    Sum(Weighted(s))
  }

  /** Entry i weighted by the household size i + 1. */
  function Weighted(s: seq<real>): (r: seq<real>)
    ensures |r| == |s|
    ensures forall i :: 0 <= i < |s| ==> r[i] == s[i] * ((i + 1) as real)
  {
    seq(|s|, i requires 0 <= i < |s| => s[i] * ((i + 1) as real))
  }

  /** The household population the rescaling aims at: 99.5% of the total population,
      less the group-quarters population. */
  function TargetPopulation(totalPop: int, popGqs: real): real
  {
    0.995 * totalPop as real - popGqs
  }

  /** What adjustHHSizeEstimates divides by must not be zero. */
  predicate SizeAdjustable(est: seq<real>)
  {
    |est| >= 2 * HHSizeSize && Sum(est) != 0.0 && SizeWeighted(SizeShares(est)) != 0.0
  }

  /** The household difference spread over the sizes by their shares. */
  function HouseholdDiff(est: seq<real>, totalPop: int, popGqs: real): real
    requires SizeAdjustable(est)
  {
    (TargetPopulation(totalPop, popGqs) - SizeWeighted(HouseholdsBySize(est))) / SizeWeighted(SizeShares(est))
  }

  function NewHouseholdTotal(est: seq<real>, totalPop: int, popGqs: real): real
    requires SizeAdjustable(est)
  {
    Sum(Combine(HouseholdsBySize(est), SizeShares(est), HouseholdDiff(est, totalPop, popGqs)))
  }

  /** The estimates after rescaling, entry by entry as the source computes them. */
  function AdjustedSizes(est: seq<real>, totalPop: int, popGqs: real): (r: seq<real>)
    requires SizeAdjustable(est)
    ensures |r| == |est|
  {
    Rescaled(est, NewHouseholdTotal(est, totalPop, popGqs))
  }

  /** Each estimate over the old total times the new total n. */
  function Rescaled(est: seq<real>, n: real): (r: seq<real>)
    requires Sum(est) != 0.0
    ensures |r| == |est|
  {
    var t := Sum(est);
    seq(|est|, k requires 0 <= k < |est| => est[k] / t * n)
  }

  /** Rescaling to n scales every estimate by n / total and makes the total n. */
  lemma RescaledScale(est: seq<real>, n: real)
    requires Sum(est) != 0.0
    ensures Rescaled(est, n) == Scale(est, n / Sum(est))
    ensures Sum(Rescaled(est, n)) == n
  {
    var t := Sum(est);
    var adjusted, scaled := Rescaled(est, n), Scale(est, n / t);
    forall k | 0 <= k < |est| ensures adjusted[k] == scaled[k] {
      DivMul(est[k], t, n);
    }
    assert adjusted == scaled;
    SumScale(est, n / t);
    MulDivCancel(t, n);
  }

  lemma DivMul(x: real, t: real, n: real)
    requires t != 0.0
    ensures x / t * n == x * (n / t)
  {
  }

  lemma SizeWeightedPrefixStep(s: seq<real>, i: nat)
    requires i < |s|
    ensures SizeWeighted(s[..i + 1]) == SizeWeighted(s[..i]) + s[i] * ((i + 1) as real)
  {
    WeightedPrefix(s, i + 1);
    WeightedPrefix(s, i);
    SumPrefixStep(Weighted(s), i);
  }

  lemma WeightedPrefix(s: seq<real>, n: nat)
    requires n <= |s|
    ensures Weighted(s[..n]) == Weighted(s)[..n]
  {
    assert forall i :: 0 <= i < n ==> Weighted(s[..n])[i] == Weighted(s)[..n][i];
  }

  /** Every estimate is scaled by the one factor new total / old total, so the
      proportions between them are kept and the new total is the new household total. */
  lemma AdjustedSizesScale(est: seq<real>, totalPop: int, popGqs: real)
    requires SizeAdjustable(est)
    ensures AdjustedSizes(est, totalPop, popGqs) == Scale(est, NewHouseholdTotal(est, totalPop, popGqs) / Sum(est))
    ensures Sum(AdjustedSizes(est, totalPop, popGqs)) == NewHouseholdTotal(est, totalPop, popGqs)
  {
    RescaledScale(est, NewHouseholdTotal(est, totalPop, popGqs));
  }

  lemma MulDivCancel(t: real, n: real)
    requires t != 0.0
    ensures t * (n / t) == n
  {
  }

  lemma SizeWeightedScale(s: seq<real>, f: real)
    ensures SizeWeighted(Scale(s, f)) == SizeWeighted(s) * f
  {
    var lhs, rhs := Weighted(Scale(s, f)), Scale(Weighted(s), f);
    forall i | 0 <= i < |s| ensures lhs[i] == rhs[i] {
      MulSwap(s[i], f, (i + 1) as real);
    }
    assert lhs == rhs;
    SumScale(Weighted(s), f);
  }

  lemma MulSwap(a: real, f: real, w: real)
    ensures (a * f) * w == (a * w) * f
  {
  }

  lemma HouseholdsBySizeScale(est: seq<real>, f: real)
    requires |est| >= 2 * HHSizeSize
    ensures HouseholdsBySize(Scale(est, f)) == Scale(HouseholdsBySize(est), f)
  {
    var lhs, rhs := HouseholdsBySize(Scale(est, f)), Scale(HouseholdsBySize(est), f);
    forall i | 0 <= i < HHSizeSize ensures lhs[i] == rhs[i] {
      HouseholdsBySizeScaleAt(est, f, i);
    }
    assert lhs == rhs;
  }

  lemma HouseholdsBySizeScaleAt(est: seq<real>, f: real, i: int)
    requires |est| >= 2 * HHSizeSize && 0 <= i < HHSizeSize
    ensures HouseholdsBySize(Scale(est, f))[i] == HouseholdsBySize(est)[i] * f
  {
    AddMul(est[i], est[i + HHSizeSize], f);
  }

  lemma AddMul(a: real, b: real, f: real)
    ensures a * f + b * f == (a + b) * f
  {
  }

  /** With seven family and seven nonfamily sizes, the size totals account for every
      household. */
  lemma SizesCoverAll(est: seq<real>)
    requires |est| == 2 * HHSizeSize
    ensures Sum(HouseholdsBySize(est)) == Sum(est)
  {
    assert est == est[..HHSizeSize] + est[HHSizeSize..];
    SumAppend(est[..HHSizeSize], est[HHSizeSize..]);
    assert HouseholdsBySize(est) == Combine(est[..HHSizeSize], est[HHSizeSize..], 1.0);
    SumCombine(est[..HHSizeSize], est[HHSizeSize..], 1.0);
  }

  /** The shares are the size totals over all households, and add up to one. */
  lemma SharesAreScaledSizes(est: seq<real>)
    requires |est| == 2 * HHSizeSize && Sum(est) != 0.0
    ensures SizeShares(est) == Scale(HouseholdsBySize(est), 1.0 / Sum(est))
    ensures Sum(SizeShares(est)) == 1.0
  {
    var t := Sum(est);
    QuotientsAreScaled(HouseholdsBySize(est), t, SizeShares(est));
    SizesCoverAll(est);
    ScaledTotalIsOne(HouseholdsBySize(est), t);
  }

  /** Dividing every entry by t is scaling by 1 / t. */
  lemma QuotientsAreScaled(s: seq<real>, t: real, q: seq<real>)
    requires t != 0.0 && |q| == |s|
    requires forall i :: 0 <= i < |s| ==> q[i] == s[i] / t
    ensures q == Scale(s, 1.0 / t)
  {
    forall i | 0 <= i < |s| ensures q[i] == Scale(s, 1.0 / t)[i] {
      DivMul(s[i], t, 1.0);
    }
  }

  /** Entries scaled by one over their own total add up to one. */
  lemma ScaledTotalIsOne(s: seq<real>, t: real)
    requires t != 0.0 && Sum(s) == t
    ensures Sum(Scale(s, 1.0 / t)) == 1.0
  {
    SumScale(s, 1.0 / t);
    MulDivCancel(t, 1.0);
  }

  /** The new household total is the old one plus the household difference. */
  lemma NewTotalAddsDiff(est: seq<real>, totalPop: int, popGqs: real)
    requires SizeAdjustable(est) && |est| == 2 * HHSizeSize
    ensures NewHouseholdTotal(est, totalPop, popGqs) == Sum(est) + HouseholdDiff(est, totalPop, popGqs)
  {
    SizesCoverAll(est);
    SharesAreScaledSizes(est);
    SumCombine(HouseholdsBySize(est), SizeShares(est), HouseholdDiff(est, totalPop, popGqs));
  }

  /** For the usual fourteen estimates (seven family and seven nonfamily sizes), the
      rescaled estimates hold exactly the target household population: the sum over
      sizes of size x households is 0.995 * totalPop - popGqs. */
  lemma AdjustedSizesMeetTarget(est: seq<real>, totalPop: int, popGqs: real)
    requires SizeAdjustable(est) && |est| == 2 * HHSizeSize
    ensures SizeWeighted(HouseholdsBySize(AdjustedSizes(est, totalPop, popGqs))) == TargetPopulation(totalPop, popGqs)
  {
    var a := SizeWeighted(HouseholdsBySize(AdjustedSizes(est, totalPop, popGqs)));
    var e, t := SizeWeighted(HouseholdsBySize(est)), Sum(est);
    var n, diff := NewHouseholdTotal(est, totalPop, popGqs), HouseholdDiff(est, totalPop, popGqs);
    var w, p := SizeWeighted(SizeShares(est)), TargetPopulation(totalPop, popGqs);
    AdjustedPopulation(est, totalPop, popGqs);
    NewTotalAddsDiff(est, totalPop, popGqs);
    SharesPopulation(est);
    DiffTimesShares(est, totalPop, popGqs);
    TargetArithmetic(a, e, t, n, diff, w, p);
  }

  /** Scaling every estimate by new total / old total scales the population the same way. */
  lemma AdjustedPopulation(est: seq<real>, totalPop: int, popGqs: real)
    requires SizeAdjustable(est) && |est| == 2 * HHSizeSize
    ensures SizeWeighted(HouseholdsBySize(AdjustedSizes(est, totalPop, popGqs)))
         == SizeWeighted(HouseholdsBySize(est)) * (NewHouseholdTotal(est, totalPop, popGqs) / Sum(est))
  {
    var f := NewHouseholdTotal(est, totalPop, popGqs) / Sum(est);
    var sizes := HouseholdsBySize(est);
    assert HouseholdsBySize(AdjustedSizes(est, totalPop, popGqs)) == Scale(sizes, f) by {
      AdjustedSizesScale(est, totalPop, popGqs);
      HouseholdsBySizeScale(est, f);
    }
    SizeWeightedScale(sizes, f);
  }

  /** The population of the shares is the population of the size totals over all households. */
  lemma SharesPopulation(est: seq<real>)
    requires |est| == 2 * HHSizeSize && Sum(est) != 0.0
    ensures SizeWeighted(SizeShares(est)) == SizeWeighted(HouseholdsBySize(est)) * (1.0 / Sum(est))
  {
    SharesAreScaledSizes(est);
    SizeWeightedScale(HouseholdsBySize(est), 1.0 / Sum(est));
  }

  /** The household difference times the population of the shares is the population missing. */
  lemma DiffTimesShares(est: seq<real>, totalPop: int, popGqs: real)
    requires SizeAdjustable(est)
    ensures HouseholdDiff(est, totalPop, popGqs) * SizeWeighted(SizeShares(est))
         == TargetPopulation(totalPop, popGqs) - SizeWeighted(HouseholdsBySize(est))
  {
    var q, w := TargetPopulation(totalPop, popGqs) - SizeWeighted(HouseholdsBySize(est)), SizeWeighted(SizeShares(est));
    assert HouseholdDiff(est, totalPop, popGqs) == q / w;
    DivTimesCancel(q, w);
  }

  lemma DivTimesCancel(q: real, w: real)
    requires w != 0.0
    ensures (q / w) * w == q
  {
  }

  /** The arithmetic of the rescaling: a population e scaled by (t + diff) / t, where diff
      times e / t is what p lacks, is p. */
  lemma TargetArithmetic(a: real, e: real, t: real, n: real, diff: real, w: real, p: real)
    requires t != 0.0 && a == e * (n / t) && n == t + diff
    requires w == e * (1.0 / t) && diff * w == p - e
    ensures a == p
  {
    assert (t + diff) / t == 1.0 + diff * (1.0 / t);
    assert e * (1.0 + diff * (1.0 / t)) == e + diff * (e * (1.0 / t));
  }

  // ---------------------------------------------------------------------------
  // Seed counts (getCount)

  /** `std::size_t`, 64 bits wide: ACS::HHSize::_size() is one, so the `int` difference
      getCount takes `%` and `/` of is first converted to it, modulo 2^64. */
  const SizeTModulus: int := 0x1_0000_0000_0000_0000

  /** The largest value of a C++ `int`, the type of getCount's row2var. */
  const IntMax: int := 0x7fff_ffff

  /** The unsigned remainder and quotient of an `int` by a `std::size_t`. */
  function UnsignedRem(a: int, b: nat): nat
    requires b > 0
  {
    (a % SizeTModulus) % b
  }

  function UnsignedDiv(a: int, b: nat): nat
    requires b > 0
  {
    (a % SizeTModulus) / b
  }

  /** On a difference that is not negative and fits a `std::size_t`, the unsigned
      remainder and quotient by the number of sizes are the mathematical ones. */
  lemma UnsignedRemOfNonNegative(a: int)
    requires 0 <= a < SizeTModulus
    ensures UnsignedRem(a, HHSizeSize) == a % HHSizeSize
    ensures UnsignedDiv(a, HHSizeSize) == a / HHSizeSize
  {
    assert a % SizeTModulus == a;
  }

  /** On a negative difference they are not: -2 becomes 2^64 - 2, which the number of
      sizes divides, where the mathematical remainder of -2 is 5. */
  lemma UnsignedRemOfNegative()
    ensures UnsignedRem(-2, HHSizeSize) == 0 && (-2) % HHSizeSize == 5
  {
    assert -2 % SizeTModulus == SizeTModulus - 2;
    assert SizeTModulus - 2 == HHSizeSize * 2635249153387078802;
  }

  /** The household type of a row of the income seed: rows run through the sizes
      within each type. */
  function IncomeRowType(row: int): int
  {
    (row - 1) / HHSizeSize + 1
  }

  function IncomeRowSize(row: int): (r: int)
    ensures 1 <= r <= HHSizeSize
  {
    (row - 1) % HHSizeSize + 1
  }

  /** The row of (type, size) in the type-major, size-minor layout, counted from 1. */
  function IncomeRow(hhType: int, hhSize: int): int
  {
    (hhType - 1) * HHSizeSize + hhSize
  }

  lemma IncomeRowRoundTrip(row: int, hhType: int, hhSize: int)
    ensures IncomeRow(IncomeRowType(row), IncomeRowSize(row)) == row
    ensures 1 <= hhSize <= HHSizeSize ==>
      IncomeRowType(IncomeRow(hhType, hhSize)) == hhType && IncomeRowSize(IncomeRow(hhType, hhSize)) == hhSize
  {
    if 1 <= hhSize <= HHSizeSize {
      var r := IncomeRow(hhType, hhSize);
      assert r - 1 == (hhType - 1) * HHSizeSize + (hhSize - 1);
    }
  }

  /** The key a seed cell is counted under, or None for an estimate type getCount does
      not handle (its count is 0). */
  function CountKey(estType: Estimates, row1var: int, col1var: int, row2var: int, col2var: int, pumaCode: int): Option<string>
  {
    match estType
    case EstEducation =>
      Some(IntToString(pumaCode) + IntToString(row1var) + IntToString(col1var) + IntToString(row2var) + IntToString(col2var))
    case EstHHType =>
      Some(IntToString(pumaCode) + IntToString(row2var) + IntToString(col2var))
    case EstHHIncome =>
      Some(IntToString(pumaCode) + IntToString(IncomeRowType(row2var)) + IntToString(IncomeRowSize(row2var)) + IntToString(col2var))
    case _ => None
  }

  /** The number of PUMS records of a seed cell: how often its key occurs in the
      person count (education) or the household count (type, income). */
  function CountOf(perCount: multiset<string>, hhCount: multiset<string>, estType: Estimates,
                   row1var: int, col1var: int, row2var: int, col2var: int, pumaCode: int): nat
  {
    match CountKey(estType, row1var, col1var, row2var, col2var, pumaCode)
    case None => 0
    case Some(key) => if estType == EstEducation then perCount[key] else hhCount[key]
  }

  /** The count of seed cell (row2var, col2var) for a PUMA, with the first-level
      variables fixed: what createSeedMatrix asks getCount for. */
  function SeedCount(perCount: multiset<string>, hhCount: multiset<string>, estType: Estimates,
                     row1var: int, col1var: int): (int, int, int) -> int
  {
    (row2var, col2var, pumaCode) => CountOf(perCount, hhCount, estType, row1var, col1var, row2var, col2var, pumaCode)
  }

  /** Of the sizes 1 .. HHSizeSize, exactly the size of the row leaves a multiple of
      HHSizeSize when subtracted from it, and the multiple is the row's type. */
  lemma IncomeRowDecodeStep(row: int, val: int)
    requires 1 <= val <= HHSizeSize
    ensures (row - val) % HHSizeSize == 0 <==> val == IncomeRowSize(row)
    ensures val == IncomeRowSize(row) ==> (row - val) / HHSizeSize + 1 == IncomeRowType(row)
  {
    var q, m := (row - 1) / HHSizeSize, (row - 1) % HHSizeSize;
    assert row - val == HHSizeSize * q + (m + 1 - val);
    if val == m + 1 {
      assert row - val == HHSizeSize * q;
    } else if val < m + 1 {
      assert 0 < m + 1 - val < HHSizeSize;
    } else {
      assert row - val == HHSizeSize * (q - 1) + (HHSizeSize + m + 1 - val);
      assert 0 < HHSizeSize + m + 1 - val < HHSizeSize;
    }
  }

  /** The decoding loop of getCount for the income seed: the first size val with
      (row - val) divisible by the number of sizes, in `std::size_t` arithmetic, and
      the type that goes with it. createSeedMatrix, its only caller, passes the rows
      1 .. row_size, whose differences stay non-negative until the loop breaks. */
  method DecodeIncomeRow(row: int) returns (hhType: string, hhSize: string)
    requires 1 <= row <= IntMax
    ensures hhType == IntToString(IncomeRowType(row)) && hhSize == IntToString(IncomeRowSize(row))
  {
    hhType, hhSize := "", "";
    var val := 1;
    while val <= HHSizeSize
      invariant 1 <= val <= IncomeRowSize(row)
      decreases HHSizeSize - val
    {
      UnsignedRemOfNonNegative(row - val);
      IncomeRowDecodeStep(row, val);
      if UnsignedRem(row - val, HHSizeSize) == 0 {
        var t := UnsignedDiv(row - val, HHSizeSize) + 1;
        assert t == IncomeRowType(row);
        hhType := IntToString(t);
        hhSize := IntToString(val);
        return;
      }
      val := val + 1;
    }
    assert false;
  }

  // ---------------------------------------------------------------------------
  // States (getStateList)

  /** The last space-separated token of a lower-cased county name: its state. */
  function StateOf(countyName: string): string
  {
    LastField(ToLower(countyName), ' ')
  }

  /** The state of each county, in table order. */
  function CountyStates(counties: seq<PumaCounty>): (r: seq<string>)
    ensures |r| == |counties|
    ensures forall k :: 0 <= k < |counties| ==> r[k] == StateOf(counties[k].countyName)
  {
    seq(|counties|, k requires 0 <= k < |counties| => StateOf(counties[k].countyName))
  }

  /** The distinct entries of xs, in the order they are first met. */
  function FirstSeen(xs: seq<string>): seq<string>
  {
    if |xs| == 0 then []
    else
      var seen := FirstSeen(xs[..|xs| - 1]);
      if xs[|xs| - 1] in seen then seen else seen + [xs[|xs| - 1]]
  }

  predicate Distinct(s: seq<string>)
  {
    forall i, j :: 0 <= i < j < |s| ==> s[i] != s[j]
  }

  /** FirstSeen keeps each entry once and adds nothing. */
  lemma {:induction false} FirstSeenExact(xs: seq<string>)
    ensures Distinct(FirstSeen(xs))
    ensures forall s :: s in FirstSeen(xs) <==> s in xs
    decreases |xs|
  {
    if |xs| > 0 {
      var n := |xs| - 1;
      FirstSeenExact(xs[..n]);
      assert xs == xs[..n] + [xs[n]];
    }
  }

  lemma FirstSeenStep(xs: seq<string>, i: nat)
    requires i < |xs|
    ensures FirstSeen(xs[..i + 1]) == if xs[i] in FirstSeen(xs[..i]) then FirstSeen(xs[..i]) else FirstSeen(xs[..i]) + [xs[i]]
  {
    assert xs[..i + 1][..i] == xs[..i];
  }

  /** getStateList's result holds each county's state once and nothing else. */
  lemma StateListExact(counties: seq<PumaCounty>)
    ensures Distinct(FirstSeen(CountyStates(counties)))
    ensures forall s :: s in FirstSeen(CountyStates(counties)) <==>
      exists k :: 0 <= k < |counties| && StateOf(counties[k].countyName) == s
  {
    var xs := CountyStates(counties);
    FirstSeenExact(xs);
    forall s ensures s in xs <==> exists k :: 0 <= k < |counties| && StateOf(counties[k].countyName) == s {
      if s in xs {
        var k :| 0 <= k < |xs| && xs[k] == s;
      }
    }
  }

  // ---------------------------------------------------------------------------
  // The wrapper object

  class IpuWrapper {
    /** The IPF inputs of the household and person IPF runs. */
    const staging: IpfStaging
    /** m_pumaCounty, in key order. */
    const pumaCounty: seq<PumaCounty>
    const totalPop: int
    var ipuCons: seq<real>
    /** m_householdPUMS, in key (household index) order. */
    var households: seq<Household>
    /** The keys of m_pumsHHCount and m_pumsPerCount, with their multiplicities. */
    var pumsHHCount: multiset<string>
    var pumsPerCount: multiset<string>

    constructor (counties: seq<PumaCounty>, pop: int)
      ensures pumaCounty == counties && totalPop == pop
      ensures ipuCons == [] && households == [] && pumsHHCount == multiset{} && pumsPerCount == multiset{}
      ensures fresh(staging) && staging.seed == [] && staging.marginals == [] && staging.mSize == []
    {
      staging := new IpfStaging();
      pumaCounty := counties;
      totalPop := pop;
      ipuCons := [];
      households := [];
      pumsHHCount := multiset{};
      pumsPerCount := multiset{};
    }

    /** addConstraints: every estimate of every row, in key order, with exact zeros
        replaced by ZeroConstraint; the constraints already pooled are kept. */
    method AddConstraints(rows: seq<seq<real>>)
      modifies this
      ensures ipuCons == old(ipuCons) + Guarded(Flatten(rows))
      ensures households == old(households) && pumsHHCount == old(pumsHHCount) && pumsPerCount == old(pumsPerCount)
      ensures forall k :: |old(ipuCons)| <= k < |ipuCons| ==> ipuCons[k] != 0.0
    {
      var r := 0;
      while r < |rows|
        invariant 0 <= r <= |rows|
        invariant ipuCons == old(ipuCons) + Guarded(Flatten(rows[..r]))
        invariant households == old(households) && pumsHHCount == old(pumsHHCount) && pumsPerCount == old(pumsPerCount)
      {
        var row := rows[r];
        var i := 0;
        while i < |row|
          invariant 0 <= i <= |row|
          invariant ipuCons == old(ipuCons) + Guarded(Flatten(rows[..r])) + Guarded(row[..i])
          invariant households == old(households) && pumsHHCount == old(pumsHHCount) && pumsPerCount == old(pumsPerCount)
        {
          if row[i] != 0.0 {
            ipuCons := ipuCons + [row[i]];
          } else {
            ipuCons := ipuCons + [ZeroConstraint];
          }
          GuardedAppend(row[..i], [row[i]]);
          assert row[..i + 1] == row[..i] + [row[i]];
          i := i + 1;
        }
        assert row[..i] == row;
        assert rows[..r + 1][..r] == rows[..r];
        GuardedAppend(Flatten(rows[..r]), row);
        r := r + 1;
      }
      assert rows[..r] == rows;
    }

    /** refineHHPumsList: erases the households that have a member whose constraint is
        at most ZeroConstraint. carried is the value valid_person holds before the
        first household (it is never initialised). */
    method RefineHHPumsList(carried: bool)
      requires |ipuCons| >= HouseholdConstraintCount + PersonConstraintCount
      modifies this
      ensures ipuCons == old(ipuCons) && pumsHHCount == old(pumsHHCount) && pumsPerCount == old(pumsPerCount)
      ensures households == Refined(ipuCons[HouseholdConstraintCount..], old(households), carried)
    {
      households := RefineHouseholds(ipuCons[HouseholdConstraintCount..], households, carried);
    }

    /** adjustHHSizeEstimates: rescales the household-size estimates (family sizes,
        then nonfamily sizes) so that they hold the target household population. */
    method AdjustHHSizeEstimates(est: seq<real>, popGqs: real) returns (adjusted: seq<real>)
      requires SizeAdjustable(est)
      ensures adjusted == AdjustedSizes(est, totalPop, popGqs)
      ensures Sum(adjusted) == NewHouseholdTotal(est, totalPop, popGqs)
    {
      var totHH := Sum(est);
      var popTotGiven := 0.995 * totalPop as real - popGqs;
      var pHHsize, weightSumHH, popTotEq := SizeSharesPass(est, totHH);
      var hhldDiff := (popTotGiven - popTotEq) / weightSumHH;
      var newHHTots := NewTotalPass(est, pHHsize, hhldDiff);
      assert hhldDiff == HouseholdDiff(est, totalPop, popGqs);
      assert newHHTots == NewHouseholdTotal(est, totalPop, popGqs);
      adjusted := ScaleEstimates(est, totHH, newHHTots);
      AdjustedSizesScale(est, totalPop, popGqs);
    }

    /** getStateList: the states of the counties, each once, in the order the county
        table first names them. */
    method GetStateList() returns (states: seq<string>)
      ensures states == FirstSeen(CountyStates(pumaCounty))
      ensures Distinct(states)
      ensures forall s :: s in states <==> exists k :: 0 <= k < |pumaCounty| && StateOf(pumaCounty[k].countyName) == s
    {
      ghost var xs := CountyStates(pumaCounty);
      states := [];
      var i := 0;
      while i < |pumaCounty|
        invariant 0 <= i <= |pumaCounty|
        invariant states == FirstSeen(xs[..i])
      {
        var countyName := ToLower(pumaCounty[i].countyName);
        var last := LastField(countyName, ' ');
        assert last == xs[i];
        FirstSeenStep(xs, i);
        if |states| == 0 {
          states := states + [last];
        } else if last !in states {
          states := states + [last];
        }
        i := i + 1;
      }
      assert xs[..i] == xs;
      StateListExact(pumaCounty);
    }

    /** getCount: how many PUMS records fall in one seed cell of the given estimate
        type. */
    method GetCount(row1var: int, col1var: int, row2var: int, col2var: int, pumaCode: int, estType: Estimates)
      returns (count: nat)
      requires estType == EstHHIncome ==> 1 <= row2var <= IntMax
      ensures count == CountOf(pumsPerCount, pumsHHCount, estType, row1var, col1var, row2var, col2var, pumaCode)
      ensures estType !in {EstEducation, EstHHType, EstHHIncome} ==> count == 0
    {
      count := 0;
      match estType {
        case EstEducation =>
          var key := IntToString(pumaCode) + IntToString(row1var) + IntToString(col1var) + IntToString(row2var) + IntToString(col2var);
          count := pumsPerCount[key];
        case EstHHType =>
          var key := IntToString(pumaCode) + IntToString(row2var) + IntToString(col2var);
          count := pumsHHCount[key];
        case EstHHIncome =>
          var hhType, hhSize := DecodeIncomeRow(row2var);
          var key := IntToString(pumaCode) + hhType + hhSize + IntToString(col2var);
          count := pumsHHCount[key];
        case _ =>
      }
    }

    /** createSeedMatrix: the seed cells of one IPF run, each cell the county-weighted
        number of PUMS records getCount finds for it. */
    method CreateSeedMatrix(row1var: int, col1var: int, rowSize: nat, colSize: nat, estType: Estimates)
      modifies staging
      ensures staging.seed == old(staging.seed) +
        SeedCells(rowSize, colSize, pumaCounty, SeedCount(pumsPerCount, pumsHHCount, estType, row1var, col1var))
      ensures staging.marginals == old(staging.marginals) && staging.mSize == old(staging.mSize)
    {
      staging.CreateSeedMatrix(rowSize, colSize, pumaCounty, SeedCount(pumsPerCount, pumsHHCount, estType, row1var, col1var));
    }
  }

  /** The first loop of adjustHHSizeEstimates: each size's share of all households,
      the sum of the shares weighted by size and the population the estimates hold. */
  method SizeSharesPass(est: seq<real>, totHH: real) returns (pHHsize: seq<real>, weightSumHH: real, popTotEq: real)
    requires |est| >= 2 * HHSizeSize && totHH == Sum(est) && totHH != 0.0
    ensures pHHsize == SizeShares(est)
    ensures weightSumHH == SizeWeighted(SizeShares(est))
    ensures popTotEq == SizeWeighted(HouseholdsBySize(est))
  {
    ghost var sizes, shares := HouseholdsBySize(est), SizeShares(est);
    pHHsize := seq(HHSizeSize, _ => 0.0);
    weightSumHH, popTotEq := 0.0, 0.0;
    var i := 0;
    while i < HHSizeSize
      invariant 0 <= i <= HHSizeSize && |pHHsize| == HHSizeSize
      invariant forall m :: 0 <= m < i ==> pHHsize[m] == shares[m]
      invariant weightSumHH == SizeWeighted(shares[..i])
      invariant popTotEq == SizeWeighted(sizes[..i])
    {
      var sumHHSize := est[i] + est[i + HHSizeSize];
      var share := sumHHSize / totHH;
      pHHsize := pHHsize[i := share];
      weightSumHH := weightSumHH + share * (i + 1) as real;
      popTotEq := popTotEq + (i + 1) as real * sumHHSize;
      SizeSharesStep(sizes, shares, i, sumHHSize, share);
      i := i + 1;
    }
    assert shares[..i] == shares && sizes[..i] == sizes;
  }

  lemma SizeSharesStep(sizes: seq<real>, shares: seq<real>, i: nat, size: real, share: real)
    requires i < |sizes| && i < |shares| && size == sizes[i] && share == shares[i]
    ensures SizeWeighted(shares[..i + 1]) == SizeWeighted(shares[..i]) + share * (i + 1) as real
    ensures SizeWeighted(sizes[..i + 1]) == SizeWeighted(sizes[..i]) + (i + 1) as real * size
  {
    SizeWeightedPrefixStep(shares, i);
    SizeWeightedPrefixStep(sizes, i);
  }

  /** The second loop of adjustHHSizeEstimates: the new household total, every size
      total plus its share of the household difference. */
  method NewTotalPass(est: seq<real>, shares: seq<real>, diff: real) returns (newHHTots: real)
    requires |est| >= 2 * HHSizeSize && |shares| == HHSizeSize
    ensures newHHTots == Sum(Combine(HouseholdsBySize(est), shares, diff))
  {
    ghost var combined := Combine(HouseholdsBySize(est), shares, diff);
    newHHTots := 0.0;
    var j := 0;
    while j < HHSizeSize
      invariant 0 <= j <= HHSizeSize
      invariant newHHTots == Sum(combined[..j])
    {
      var term := (est[j] + est[j + HHSizeSize]) + diff * shares[j];
      assert term == combined[j];
      SumPrefixStep(combined, j);
      newHHTots := newHHTots + term;
      j := j + 1;
    }
    assert combined[..j] == combined;
  }

  /** The final loop of adjustHHSizeEstimates: each estimate over the old total
      times the new total. */
  method ScaleEstimates(est: seq<real>, totHH: real, newHHTots: real) returns (r: seq<real>)
    requires totHH != 0.0
    ensures |r| == |est|
    ensures forall k :: 0 <= k < |est| ==> r[k] == est[k] / totHH * newHHTots
    ensures r == Scale(est, newHHTots / totHH)
  {
    r := est;
    var k := 0;
    while k < |r|
      invariant 0 <= k <= |r| && |r| == |est|
      invariant forall m :: 0 <= m < k ==> r[m] == est[m] / totHH * newHHTots
      invariant forall m :: k <= m < |r| ==> r[m] == est[m]
    {
      r := r[k := r[k] / totHH * newHHTots];
      DivMul(est[k], totHH, newHHTots);
      k := k + 1;
    }
    forall m | 0 <= m < |est| ensures r[m] == Scale(est, newHHTots / totHH)[m] {
      DivMul(est[m], totHH, newHHTots);
    }
  }
}
