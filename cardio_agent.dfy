/** A CardioAgent: a person of 35 or older recoded into the NHANES categories
    (two origins, two education levels, five age bands) and later given a risk
    stratum; its type string keys the risk-factor tables and counters. */
module CardioAgent {
  import opened Acs
  import opened Text
  import opened Wrappers
  import opened PersonPums

  /** The NHANES age band of an age: -1 below 35. */
  function NhanesAgeCat(age: int): (r: int)
    ensures r == -1 <==> age < 35
    ensures r == -1 || NhanesAge35To44 <= r <= NhanesAge75Over
    // band r starts at 25 + 10r and every band but the last is ten years wide
    ensures r != -1 ==> 25 + 10 * r <= age && (r == NhanesAge75Over || age <= 34 + 10 * r)
  {
    if 35 <= age <= 44 then NhanesAge35To44
    else if 45 <= age <= 54 then NhanesAge45To54
    else if 55 <= age <= 64 then NhanesAge55To64
    else if 65 <= age <= 74 then NhanesAge65To74
    else if age >= 75 then NhanesAge75Over
    else -1
  }

  /** nhanes_org: WhiteNH for WhiteNH persons, BlackNH for everyone else. */
  function NhanesOrigin(origin: int): (r: int)
    ensures r == NhanesWhiteNH <==> origin == WhiteNH
    ensures r == NhanesWhiteNH || r == NhanesBlackNH
  {
    if origin == WhiteNH then NhanesWhiteNH else NhanesBlackNH
  }

  /** nhanes_edu: high school or less for education codes up to High_School. */
  function NhanesEducation(education: int): (r: int)
    ensures r == NhanesHsOrLess <==> education <= HighSchool
    ensures r == NhanesHsOrLess || r == NhanesSomeCollege
  {
    if education <= HighSchool then NhanesHsOrLess else NhanesSomeCollege
  }

  /** The person-type key: the decimal strings of origin, sex, age band and
      education, in that order (CardioModel::addAgent's key_map). */
  function PersonTypeKey(org: int, sex: int, ageCat: int, edu: int): string
  {
    IntToString(org) + IntToString(sex) + IntToString(ageCat) + IntToString(edu)
  }

  /** getAgentType: the risk stratum's decimal string in front of the person type. */
  function AgentTypeKey(rfStrata: int, org: int, sex: int, ageCat: int, edu: int): string
  {
    IntToString(rfStrata) + PersonTypeKey(org, sex, ageCat, edu)
  }

  /** A single decimal digit is written as one character. */
  lemma DigitToString(d: int)
    requires 0 <= d <= 9
    ensures IntToString(d) == [DigitChar(d)]
  {
  }

  /** With one-digit categories the person type is four characters, one per field. */
  lemma PersonTypeKeyDigits(org: int, sex: int, ageCat: int, edu: int)
    requires 0 <= org <= 9 && 0 <= sex <= 9 && 0 <= ageCat <= 9 && 0 <= edu <= 9
    ensures PersonTypeKey(org, sex, ageCat, edu) == [DigitChar(org), DigitChar(sex), DigitChar(ageCat), DigitChar(edu)]
  {
    DigitToString(org);
    DigitToString(sex);
    DigitToString(ageCat);
    DigitToString(edu);
  }

  /** The type string identifies the agent type: with one-digit categories, two agent
      types are the same string exactly when all five fields agree. */
  lemma AgentTypeKeyInjective(rf1: int, org1: int, sex1: int, age1: int, edu1: int,
                              rf2: int, org2: int, sex2: int, age2: int, edu2: int)
    requires 0 <= org1 <= 9 && 0 <= sex1 <= 9 && 0 <= age1 <= 9 && 0 <= edu1 <= 9
    requires 0 <= org2 <= 9 && 0 <= sex2 <= 9 && 0 <= age2 <= 9 && 0 <= edu2 <= 9
    ensures AgentTypeKey(rf1, org1, sex1, age1, edu1) == AgentTypeKey(rf2, org2, sex2, age2, edu2)
        <==> rf1 == rf2 && org1 == org2 && sex1 == sex2 && age1 == age2 && edu1 == edu2
  {
    var p1, p2 := PersonTypeKey(org1, sex1, age1, edu1), PersonTypeKey(org2, sex2, age2, edu2);
    PersonTypeKeyDigits(org1, sex1, age1, edu1);
    PersonTypeKeyDigits(org2, sex2, age2, edu2);
    var s1, s2 := IntToString(rf1), IntToString(rf2);
    if s1 + p1 == s2 + p2 {
      assert |s1| == |s2|;
      assert s1 == (s1 + p1)[..|s1|] && s2 == (s2 + p2)[..|s2|];
      assert p1 == (s1 + p1)[|s1|..] && p2 == (s2 + p2)[|s2|..];
      assert p1[0] == p2[0] && p1[1] == p2[1] && p1[2] == p2[2] && p1[3] == p2[3];
      ParseIntOfIntToString(rf1);
      ParseIntOfIntToString(rf2);
    }
  }

  /** The fields of a CardioAgent. */
  datatype CardioFields = CardioFields(
    householdId: real, puma: int, age: int, sex: int, origin: int, education: int,
    nhanesOrg: int, nhanesEdu: int, nhanesAgeCat: int, rfStrata: int)

  class CardioAgent {
    var householdId: real
    var puma: int
    var age: int
    var sex: int
    var origin: int
    var education: int
    var nhanesOrg: int
    var nhanesEdu: int
    var nhanesAgeCat: int
    var rfStrata: int

    function Fields(): CardioFields
      reads this
    {
      CardioFields(householdId, puma, age, sex, origin, education, nhanesOrg, nhanesEdu, nhanesAgeCat, rfStrata)
    }

    /** The constructor from a PUMS person: the person's fields, their NHANES
        recoding, and no risk stratum yet (-1). */
    constructor (p: PersonRecord)
      ensures Fields() == CardioFields(p.personId, p.pumaCode, p.age, p.sex, p.origin, p.education,
                                       NhanesOrigin(p.origin), NhanesEducation(p.education),
                                       NhanesAgeCat(p.age), -1)
    {
      householdId, puma, age, sex := p.personId, p.pumaCode, p.age, p.sex;
      origin := p.origin;
      nhanesOrg := if p.origin == WhiteNH then NhanesWhiteNH else NhanesBlackNH;
      education := p.education;
      nhanesEdu := if p.education <= HighSchool then NhanesHsOrLess else NhanesSomeCollege;
      rfStrata := -1;
      new;
      SetNhanesAgeCat();
    }

    method SetNhanesAgeCat()
      modifies this
      ensures Fields() == old(Fields()).(nhanesAgeCat := NhanesAgeCat(old(age)))
    {
      if age >= 35 && age <= 44 {
        nhanesAgeCat := NhanesAge35To44;
      } else if age >= 45 && age <= 54 {
        nhanesAgeCat := NhanesAge45To54;
      } else if age >= 55 && age <= 64 {
        nhanesAgeCat := NhanesAge55To64;
      } else if age >= 65 && age <= 74 {
        nhanesAgeCat := NhanesAge65To74;
      } else if age >= 75 {
        nhanesAgeCat := NhanesAge75Over;
      } else {
        nhanesAgeCat := -1;
      }
    }

    /** setRiskFactors: records the stratum. The cholesterol and blood-pressure draws
        that follow are left out. */
    method SetRiskStrata(rfs: int)
      modifies this
      ensures Fields() == old(Fields()).(rfStrata := rfs)
    {
      rfStrata := rfs;
    }

    function AgentType(): (r: string)
      reads this
      ensures r == AgentTypeKey(rfStrata, nhanesOrg, sex, nhanesAgeCat, nhanesEdu)
    {
      IntToString(rfStrata) + IntToString(nhanesOrg) + IntToString(sex) + IntToString(nhanesAgeCat) + IntToString(nhanesEdu)
    }
  }
}
