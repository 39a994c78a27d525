/** One household record of the PUMS microdata (src/HouseholdPums.cpp). */
module HouseholdPums {
  import opened Wrappers
  import opened Text
  import opened Acs

  /** The code-book labels setHouseholdType compares against, in the order it consults
      them: the two living-alone nonfamily codes, then the two not-living-alone ones. */
  const HHTypeLabels: seq<string> := ["Male householder-living alone-nonfamily",
    "Female householder-living alone-nonfamily", "Male householder-not living alone-nonfamily",
    "Female householder-not living alone-nonfamily"]

  /** The household type setHouseholdType stores: one of the two collapsed nonfamily
      types, which this code generation names but src/ACS.h does not define, or the raw
      code passed through. */
  datatype HHType = LivingAloneNonFam | NotLivingAloneFam | TypeCode(code: int)

  function HouseholdTypeOf(codes: seq<int>, t: int): (r: HHType)
    requires |codes| == |HHTypeLabels|
    ensures r == LivingAloneNonFam <==> t == codes[0] || t == codes[1]
    ensures r == NotLivingAloneFam <==> t != codes[0] && t != codes[1] && (t == codes[2] || t == codes[3])
    ensures r.TypeCode? ==> r.code == t && t !in codes
  {
    if t == codes[0] || t == codes[1] then LivingAloneNonFam
    else if t == codes[2] || t == codes[3] then NotLivingAloneFam
    else TypeCode(t)
  }

  /** setHouseholdType with its code-book lookups, made in the order of its tests: the
      `||` stops at the first label whose code is the type, so later labels are then
      never looked up; a missing label that is reached is an std::out_of_range. */
  function HouseholdType(typeMap: map<string, int>, t: int): (r: Result<HHType>)
    ensures (forall i :: 0 <= i < |HHTypeLabels| ==> HHTypeLabels[i] in typeMap) ==>
      r == Success(HouseholdTypeOf(LookupAll(typeMap, HHTypeLabels).value, t))
    ensures r.Fail? ==>
      exists i :: 0 <= i < |HHTypeLabels| && HHTypeLabels[i] !in typeMap &&
                  r.error == MissingKey(HHTypeLabels[i])
  {
    var maleAlone :- At(typeMap, HHTypeLabels[0]);
    if t == maleAlone then Success(LivingAloneNonFam) else
    var femaleAlone :- At(typeMap, HHTypeLabels[1]);
    if t == femaleAlone then Success(LivingAloneNonFam) else
    var maleNotAlone :- At(typeMap, HHTypeLabels[2]);
    if t == maleNotAlone then Success(NotLivingAloneFam) else
    var femaleNotAlone :- At(typeMap, HHTypeLabels[3]);
    if t == femaleNotAlone then Success(NotLivingAloneFam) else Success(TypeCode(t))
  }

  /** A code book that holds every label the first one holds, with the same codes,
      gives the same type wherever the first succeeds. */
  lemma HouseholdTypeExtends(typeMap: map<string, int>, larger: map<string, int>, t: int)
    requires forall k :: k in typeMap ==> k in larger && larger[k] == typeMap[k]
    requires HouseholdType(typeMap, t).Success?
    ensures HouseholdType(larger, t) == HouseholdType(typeMap, t)
  {
  }

  /** A code book holding only the male living-alone code classifies that type. */
  lemma HouseholdTypeStopsEarly()
    ensures HouseholdType(map["Male householder-living alone-nonfamily" := 4], 4) == Success(LivingAloneNonFam)
    ensures HouseholdType(map["Male householder-living alone-nonfamily" := 4], 5) ==
      Fail(MissingKey("Female householder-living alone-nonfamily"))
  {
  }

  /** setHouseholdSize: sizes of seven and more share the top category. */
  function HouseholdSize(size: int): (r: int)
    ensures r <= HHSize7
    ensures r == size || (size >= HHSize7 && r == HHSize7)
    ensures size < HHSize7 ==> r == size
  {
    if size >= HHSize7 then HHSize7 else size
  }

  /** The code-book name of ACS::HHIncome category k, HHInc1 .. HHInc10. */
  function IncomeName(k: nat): string
  {
    "HHInc" + NatToString(k)
  }

  /** The income category the loop of setHouseholdIncome settles on from category k
      onwards: Some(-1) for a negative income, Some(c) for the first category whose
      threshold exceeds the income, None when every threshold is at or below it (the
      field is then left unassigned). A missing threshold is an std::out_of_range. */
  function IncomeCategoryFrom(thresholds: map<string, int>, income: int, k: nat): Result<Option<int>>
    decreases HHIncomeSize + 1 - k
  {
    if k > HHIncomeSize then Success(None)
    else if income < 0 then Success(Some(-1))
    else if IncomeName(k) !in thresholds then Fail(MissingKey(IncomeName(k)))
    else if income < thresholds[IncomeName(k)] then Success(Some(k))
    else IncomeCategoryFrom(thresholds, income, k + 1)
  }

  /** The category found is the first one, in enum order, whose threshold exceeds the
      income; no category is found only when the income reaches every threshold. */
  lemma {:induction false} IncomeCategoryIsFirstAbove(thresholds: map<string, int>, income: int, k: nat)
    requires 1 <= k
    ensures income >= 0 && IncomeCategoryFrom(thresholds, income, k).Success? &&
            IncomeCategoryFrom(thresholds, income, k).value.Some? ==>
      var c := IncomeCategoryFrom(thresholds, income, k).value.value;
      && k <= c <= HHIncomeSize
      && IncomeName(c) in thresholds && income < thresholds[IncomeName(c)]
      && forall j :: k <= j < c ==> IncomeName(j) in thresholds && income >= thresholds[IncomeName(j)]
    ensures IncomeCategoryFrom(thresholds, income, k) == Success(None) ==>
      (k <= HHIncomeSize ==> income >= 0) &&
      forall j :: k <= j <= HHIncomeSize ==> IncomeName(j) in thresholds && income >= thresholds[IncomeName(j)]
    decreases HHIncomeSize + 1 - k
  {
    if k <= HHIncomeSize && income >= 0 && IncomeName(k) in thresholds && income >= thresholds[IncomeName(k)] {
      IncomeCategoryIsFirstAbove(thresholds, income, k + 1);
    }
  }

  /** setHouseholdIncome's category loop: a negative income is category -1 before any
      threshold is consulted. */
  method HouseholdIncomeCategory(thresholds: map<string, int>, income: int) returns (r: Result<Option<int>>)
    ensures r == IncomeCategoryFrom(thresholds, income, 1)
    ensures income < 0 ==> r == Success(Some(-1))
  {
    var k := 1;
    while k <= HHIncomeSize
      invariant 1 <= k <= HHIncomeSize + 1
      invariant IncomeCategoryFrom(thresholds, income, 1) == IncomeCategoryFrom(thresholds, income, k)
      invariant income < 0 ==> k == 1
      decreases HHIncomeSize + 1 - k
    {
      if income < 0 {
        return Success(Some(-1));
      }
      var name := IncomeName(k);
      if name !in thresholds {
        return Fail(MissingKey(name));
      }
      if income < thresholds[name] {
        return Success(Some(k));
      }
      k := k + 1;
    }
    return Success(None);
  }

  /** The fields of a HouseholdPums object. */
  datatype HouseholdRecord = HouseholdRecord(
    puma: int, hhIdx: real, hhType: HHType, hhSize: int, hhIncome: int, hhIncomeCat: int)

  /** setHouseholds: parses the raw fields and derives type, size and income category;
      an income above every threshold leaves the old category in place. */
  method SetHouseholds(h: HouseholdRecord, typeMap: map<string, int>, incomeMap: map<string, int>,
                       hhIdx: string, hhType: string, hhSize: string, hhIncome: string)
    returns (r: Result<HouseholdRecord>)
    ensures r.Success? <==>
      HouseholdType(typeMap, ToNumberInt(hhType)).Success? &&
      IncomeCategoryFrom(incomeMap, ToNumberInt(hhIncome), 1).Success?
    ensures r.Success? ==>
      && r.value.puma == h.puma
      && r.value.hhIdx == ToNumberReal(hhIdx)
      && Success(r.value.hhType) == HouseholdType(typeMap, ToNumberInt(hhType))
      && r.value.hhSize == HouseholdSize(ToNumberInt(hhSize))
      && r.value.hhIncome == ToNumberInt(hhIncome)
      && r.value.hhIncomeCat == IncomeCategoryFrom(incomeMap, ToNumberInt(hhIncome), 1).value.GetOr(h.hhIncomeCat)
  {
    var t := HouseholdType(typeMap, ToNumberInt(hhType));
    if t.Fail? {
      return Fail(t.error);
    }
    var income := ToNumberInt(hhIncome);
    var cat := HouseholdIncomeCategory(incomeMap, income);
    if cat.Fail? {
      return Fail(cat.error);
    }
    r := Success(HouseholdRecord(h.puma, ToNumberReal(hhIdx), t.value, HouseholdSize(ToNumberInt(hhSize)),
                                 income, cat.value.GetOr(h.hhIncomeCat)));
  }
}
