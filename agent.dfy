/** The synthetic person of src/Agent.cpp: demographic attributes drawn from an ACS
    age category, the education and marital age bands, and the draw of a category
    from a cumulative probability table. The uniform and integer random draws of the
    source are parameters. */
module Agents {
  import opened Wrappers
  import opened Text
  import opened Acs
  import PersonPums
  import Proportions
  import RealSums

  /** AGE_RANGE_SIZE: a range with fewer tokens than this names a single age. */
  const AgeRangeSize: nat := 2

  /** Lowest and highest age of each ACS::AgeCat, Age_0_4 = 1 .. Age_85_100 = 23. */
  const AgeCatLow: seq<nat> := [0, 5, 10, 15, 18, 20, 21, 22, 25, 30, 35, 40, 45, 50, 55, 60, 62, 65, 67, 70, 75, 80, 85]
  const AgeCatHigh: seq<nat> := [4, 9, 14, 17, 19, 20, 21, 24, 29, 34, 39, 44, 49, 54, 59, 61, 64, 66, 69, 74, 79, 84, 100]

  /** The enumerator name of ACS::AgeCat c: "Age_lo_hi", or "Age_lo" for the one-year
      categories Age_20 and Age_21. */
  function AgeCatName(c: int): string
    requires 1 <= c <= AgeCatSize
  {
    var lo, hi := AgeCatLow[c - 1], AgeCatHigh[c - 1];
    "Age_" + NatToString(lo) + (if lo == hi then "" else "_" + NatToString(hi))
  }

  /** The tokens of the category name with the leading "Age" popped off. */
  function AgeRange(c: int): (r: seq<string>)
    requires 1 <= c <= AgeCatSize
    ensures r == [NatToString(AgeCatLow[c - 1])] +
                 (if AgeCatLow[c - 1] == AgeCatHigh[c - 1] then [] else [NatToString(AgeCatHigh[c - 1])])
  {
    AgeCatNameTokens(c);
    Tokens(AgeCatName(c), '_')[1..]
  }

  lemma DigitsHaveNoSeparator(s: string)
    requires AllDigits(s)
    ensures '_' !in s
  {
    forall i | 0 <= i < |s|
      ensures s[i] != '_'
    {
      assert IsDigit(s[i]);
    }
  }

  lemma AgeCatNameTokens(c: int)
    requires 1 <= c <= AgeCatSize
    ensures Tokens(AgeCatName(c), '_') == ["Age", NatToString(AgeCatLow[c - 1])] +
              (if AgeCatLow[c - 1] == AgeCatHigh[c - 1] then [] else [NatToString(AgeCatHigh[c - 1])])
  {
    var lo, hi := AgeCatLow[c - 1], AgeCatHigh[c - 1];
    var l, h := NatToString(lo), NatToString(hi);
    DigitsHaveNoSeparator(l);
    DigitsHaveNoSeparator(h);
    NameTokens(l, h, lo == hi);
  }

  /** "Age_l", or "Age_l_h", splits at the underscores into its two or three parts. */
  lemma NameTokens(l: string, h: string, single: bool)
    requires |l| > 0 && |h| > 0 && '_' !in l && '_' !in h
    ensures Tokens("Age_" + l + (if single then "" else "_" + h), '_') == ["Age", l] + (if single then [] else [h])
  {
    var tail := if single then "" else "_" + h;
    assert "Age_" + l + tail == "Age" + ['_'] + (l + tail);
    TokensCons("Age", l + tail, '_');
    if single {
      assert l + tail == l;
      TokensOfOne(l, '_');
    } else {
      assert l + tail == l + ['_'] + h;
      TokensCons(l, h, '_');
      TokensOfOne(h, '_');
    }
  }

  /** The age setDemoAttributes gives a person of category c: std::stoi of the single
      token, or the integer drawn between the two bounds. Parsing the enumerator name
      recovers the bounds of the category. */
  function DemoAge(c: int, draw: int): (age: int)
    requires 1 <= c <= AgeCatSize
    ensures age == (if AgeCatLow[c - 1] == AgeCatHigh[c - 1] then AgeCatLow[c - 1] else draw)
  {
    var range := AgeRange(c);
    var lo, hi := AgeCatLow[c - 1], AgeCatHigh[c - 1];
    assert IntToString(lo) == NatToString(lo);
    ParseIntOfIntToString(lo);
    if |range| < AgeRangeSize then ParseInt(range[0]).value else draw
  }

  /** With the draw inside the range the source's randInteger(age1, age2) covers, the
      age lies within the category. */
  lemma DemoAgeInCategory(c: int, draw: int)
    requires 1 <= c <= AgeCatSize
    requires AgeCatLow[c - 1] <= draw <= AgeCatHigh[c - 1]
    ensures AgeCatLow[c - 1] <= DemoAge(c, draw) <= AgeCatHigh[c - 1]
  {
  }

  /** The category bounds are ordered, and the categories tile the ages 0..100. */
  lemma AgeCatsTile(c: int)
    requires 1 <= c <= AgeCatSize
    ensures AgeCatLow[c - 1] <= AgeCatHigh[c - 1]
    ensures c < AgeCatSize ==> AgeCatLow[c] == AgeCatHigh[c - 1] + 1
  {
  }

  /** Agent::setEduAgeCat: the bands of PersonPums::setEduAgeCat for adults; an age
      under 18 leaves the category as it was. */
  function EduAgeCatAfter(age: int, current: int): (r: int)
    ensures age >= 18 ==> r == PersonPums.EduAgeCat(age)
    ensures age < 18 ==> r == current
  {
    if 18 <= age <= 24 then Age18To24
    else if 25 <= age <= 34 then Age25To34
    else if 35 <= age <= 44 then Age35To44
    else if 45 <= age <= 64 then Age45To64
    else if age >= 65 then Age65Over
    else current
  }

  /** Agent::setMaritalAgeCat: the bands of PersonPums::setMaritalAgeCat; an age under
      15 leaves the category as it was. */
  function MaritalAgeCatAfter(age: int, current: int): (r: int)
    ensures r == PersonPums.MaritalAgeCat(age).GetOr(current)
  {
    if 15 <= age <= 19 then 1
    else if 20 <= age <= 34 then 2
    else if 35 <= age <= 44 then 3
    else if 45 <= age <= 54 then 4
    else if 55 <= age <= 64 then 5
    else if age >= 65 then 6
    else current
  }

  /** The value getValue's search loop returns from index start on: one past the
      first index whose cumulative probability exceeds u, or -1 when none does. */
  function FirstAbove(pr: seq<real>, u: real, start: nat): (r: int)
    requires start <= |pr|
    ensures r == -1 || start < r <= |pr|
    ensures r == -1 <==> forall i :: start <= i < |pr| ==> u >= pr[i]
    ensures r != -1 ==> u < pr[r - 1] && forall i :: start <= i < r - 1 ==> u >= pr[i]
    decreases |pr| - start
  {
    if start == |pr| then -1
    else if u < pr[start] then start + 1
    else FirstAbove(pr, u, start + 1)
  }

  /** The table key getValue forms from gender and age category. */
  function ProbabilityKey(gender: int, ageCat: int): int
  {
    10 * gender + ageCat
  }

  /** getValue: -1 when no table is stored for the key, the std::out_of_range of
      .at(race) when the key has no row for the race, otherwise the search result. */
  function ValueOf(prByRace: map<int, map<int, seq<real>>>, race: int, gender: int, ageCat: int,
                   u: real): (r: Result<int>)
    ensures ProbabilityKey(gender, ageCat) !in prByRace ==> r == Success(-1)
    ensures r.Fail? <==> ProbabilityKey(gender, ageCat) in prByRace && race !in prByRace[ProbabilityKey(gender, ageCat)]
    ensures r.Success? && ProbabilityKey(gender, ageCat) in prByRace ==>
      var pr := prByRace[ProbabilityKey(gender, ageCat)][race];
      (r.value == -1 || 1 <= r.value <= |pr|) &&
      (r.value == -1 <==> forall i :: 0 <= i < |pr| ==> u >= pr[i]) &&
      (r.value != -1 ==> u < pr[r.value - 1] && forall i :: 0 <= i < r.value - 1 ==> u >= pr[i])
  {
    var key := ProbabilityKey(gender, ageCat);
    if key !in prByRace then Success(-1)
    else if race !in prByRace[key] then Fail(MissingKey(IntToString(race)))
    else Success(FirstAbove(prByRace[key][race], u, 0))
  }

  /** Drawing from a cumulative table built by convertToProportions out of a row of
      non-negative estimates with a non-zero total always yields a category when the
      draw is in [0, 1): the category whose cumulative interval holds the draw. */
  lemma DrawFromCumulativeTable(row: seq<real>, u: real)
    requires forall k :: 0 <= k < |row| ==> row[k] >= 0.0
    requires |row| > 0 && RealSums.Sum(row) != 0.0
    requires 0.0 <= u < 1.0
    ensures 1 <= FirstAbove(Proportions.Cumulative(row), u, 0) <= |row|
    ensures var v := FirstAbove(Proportions.Cumulative(row), u, 0);
      u < Proportions.Cumulative(row)[v - 1] && (v > 1 ==> Proportions.Cumulative(row)[v - 2] <= u)
  {
    var c := Proportions.Cumulative(row);
    Proportions.CumulativeEndsAtOne(row);
    assert u < c[|row| - 1];
  }

  /** The fields of an Agent. */
  datatype AgentFields = AgentFields(
    id: int, ageCat: int, age: int, gender: int, race: int, education: int,
    eduAgeCat: int, maritalStatus: int, maritalAgeCat: int)

  class Agent {
    var id: int
    var ageCat: int
    var age: int
    var gender: int
    var race: int
    var education: int
    var eduAgeCat: int
    var maritalStatus: int
    var maritalAgeCat: int

    function Fields(): AgentFields
      reads this
    {
      AgentFields(id, ageCat, age, gender, race, education, eduAgeCat, maritalStatus, maritalAgeCat)
    }

    /** Every attribute starts at -1. */
    constructor ()
      ensures Fields() == AgentFields(-1, -1, -1, -1, -1, -1, -1, -1, -1)
    {
      id, ageCat, age, gender, race := -1, -1, -1, -1, -1;
      education, eduAgeCat, maritalStatus, maritalAgeCat := -1, -1, -1, -1;
    }

    method SetID(idx: int)
      modifies this
      ensures Fields() == old(Fields()).(id := idx)
    {
      id := idx;
    }

    /** setDemoAttributes: the category, gender and race as given, and the age from the
      category name; draw is the integer randInteger picks between the two bounds. */
    method SetDemoAttributes(pAgeCat: int, pGender: int, pRace: int, draw: int)
      requires 1 <= pAgeCat <= AgeCatSize
      requires AgeCatLow[pAgeCat - 1] < AgeCatHigh[pAgeCat - 1] ==>
        AgeCatLow[pAgeCat - 1] <= draw <= AgeCatHigh[pAgeCat - 1]
      modifies this
      ensures Fields() == old(Fields()).(ageCat := pAgeCat, gender := pGender, race := pRace,
                                         age := DemoAge(pAgeCat, draw))
      ensures AgeCatLow[pAgeCat - 1] <= age <= AgeCatHigh[pAgeCat - 1]
    {
      var newAge := DemoAge(pAgeCat, draw);
      ageCat, gender, race, age := pAgeCat, pGender, pRace, newAge;
    }

    method SetEduAgeCat()
      modifies this
      ensures Fields() == old(Fields()).(eduAgeCat := EduAgeCatAfter(old(age), old(eduAgeCat)))
    {
      if 18 <= age <= 24 {
        eduAgeCat := Age18To24;
      } else if 25 <= age <= 34 {
        eduAgeCat := Age25To34;
      } else if 35 <= age <= 44 {
        eduAgeCat := Age35To44;
      } else if 45 <= age <= 64 {
        eduAgeCat := Age45To64;
      } else if age >= 65 {
        eduAgeCat := Age65Over;
      }
    }

    method SetMaritalAgeCat()
      modifies this
      ensures Fields() == old(Fields()).(maritalAgeCat := MaritalAgeCatAfter(old(age), old(maritalAgeCat)))
    {
      if 15 <= age <= 19 {
        maritalAgeCat := 1;
      } else if 20 <= age <= 34 {
        maritalAgeCat := 2;
      } else if 35 <= age <= 44 {
        maritalAgeCat := 3;
      } else if 45 <= age <= 54 {
        maritalAgeCat := 4;
      } else if 55 <= age <= 64 {
        maritalAgeCat := 5;
      } else if age >= 65 {
        maritalAgeCat := 6;
      }
    }

    /** getValue's search over the table of this agent's race; u is the uniform draw. */
    method GetValue(prByRace: map<int, map<int, seq<real>>>, pGender: int, pAgeCat: int, u: real)
      returns (val: Result<int>)
      ensures val == ValueOf(prByRace, race, pGender, pAgeCat, u)
    {
      var key := ProbabilityKey(pGender, pAgeCat);
      if key !in prByRace {
        return Success(-1);
      }
      if race !in prByRace[key] {
        return Fail(MissingKey(IntToString(race)));
      }
      var pr := prByRace[key][race];
      var idx := 0;
      while idx < |pr|
        invariant 0 <= idx <= |pr|
        invariant FirstAbove(pr, u, idx) == FirstAbove(pr, u, 0)
      {
        if u < pr[idx] {
          return Success(idx + 1);
        }
        idx := idx + 1;
      }
      return Success(-1);
    }

    /** setEducation: the education age band first, then the education drawn from the
      table for gender and that band. The band is updated even when the draw fails. */
    method SetEducation(pEduByRace: map<int, map<int, seq<real>>>, u: real) returns (outcome: Result<int>)
      modifies this
      ensures outcome == ValueOf(pEduByRace, old(race), old(gender), EduAgeCatAfter(old(age), old(eduAgeCat)), u)
      ensures Fields() == old(Fields()).(eduAgeCat := EduAgeCatAfter(old(age), old(eduAgeCat)),
                                         education := if outcome.Success? then outcome.value else old(education))
    {
      SetEduAgeCat();
      outcome := GetValue(pEduByRace, gender, eduAgeCat, u);
      if outcome.Success? {
        education := outcome.value;
      }
    }

    /** setMaritalStatus: the marital age band, then the status drawn for it. */
    method SetMaritalStatus(pMaritalByRace: map<int, map<int, seq<real>>>, u: real) returns (outcome: Result<int>)
      modifies this
      ensures outcome == ValueOf(pMaritalByRace, old(race), old(gender), MaritalAgeCatAfter(old(age), old(maritalAgeCat)), u)
      ensures Fields() == old(Fields()).(maritalAgeCat := MaritalAgeCatAfter(old(age), old(maritalAgeCat)),
                                         maritalStatus := if outcome.Success? then outcome.value else old(maritalStatus))
    {
      SetMaritalAgeCat();
      outcome := GetValue(pMaritalByRace, gender, maritalAgeCat, u);
      if outcome.Success? {
        maritalStatus := outcome.value;
      }
    }
  }
}
