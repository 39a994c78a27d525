/** One person record of the PUMS microdata (src/PersonPums.cpp): the raw numeric
    fields and the ACS categories derived from them through the code book. */
module PersonPums {
  import opened Wrappers
  import opened Text
  import opened Acs

  /** The code-book labels setRace compares against, in the order it consults them. */
  const RaceLabels: seq<string> := ["White alone", "Black alone", "American Indian alone",
    "American Indian & Alaska Native", "Asian alone", "Native Hawaiian & Pacific Islander",
    "Some other"]

  /** The code-book labels setEducation compares against, in the order it consults them. */
  const EducationLabels: seq<string> := ["Grade 9", "12th grade", "High School",
    "Some college-Less than a year", "Some College-More than a year", "Associate's degree",
    "Bachelor's degree"]

  /** setEthnicity: every code other than Not_Hispanic is recorded as Hispanic. */
  function Ethnicity(p: int): (r: int)
    ensures r == NotHispanic || r == Hispanic
    ensures r == NotHispanic <==> p == NotHispanic
  {
    if p != NotHispanic then Hispanic else p
  }

  /** setRace on the codes of RaceLabels: the White and Black codes are kept as they
      are, the American-Indian code range collapses to one category, and anything not
      matched becomes Two_Or_More. */
  function RaceCategory(codes: seq<int>, p: int): (r: int)
    requires |codes| == |RaceLabels|
    ensures (p == codes[0] || p == codes[1]) ==> r == p
    ensures !(p == codes[0] || p == codes[1]) ==> AmericanIndianAlaskaNative <= r <= TwoOrMore
    ensures !(p == codes[0] || p == codes[1]) && codes[2] <= p <= codes[3] ==> r == AmericanIndianAlaskaNative
    ensures r == TwoOrMore && p != TwoOrMore <==>
      p != codes[0] && p != codes[1] && !(codes[2] <= p <= codes[3]) &&
      p != codes[4] && p != codes[5] && p != codes[6] && p != TwoOrMore
  {
    if p == codes[0] || p == codes[1] then p
    else if codes[2] <= p <= codes[3] then AmericanIndianAlaskaNative
    else if p == codes[4] then Asian
    else if p == codes[5] then HawaiianPacific
    else if p == codes[6] then SomeOther
    else TwoOrMore
  }

  /** setRace with its code-book lookups, made in the order of its tests: a label is
      looked up only when the tests before it have not decided the race (`||` and `&&`
      stop early), and a missing label is an std::out_of_range. With the whole code book
      it is the classification by all the codes; a code book that lacks only labels no
      test reaches gives the same race. */
  function Race(raceMap: map<string, int>, p: int): (r: Result<int>)
    ensures (forall i :: 0 <= i < |RaceLabels| ==> RaceLabels[i] in raceMap) ==>
      r == Success(RaceCategory(LookupAll(raceMap, RaceLabels).value, p))
    ensures r.Fail? ==>
      exists i :: 0 <= i < |RaceLabels| && RaceLabels[i] !in raceMap && r.error == MissingKey(RaceLabels[i])
  {
    var white :- At(raceMap, RaceLabels[0]);
    if p == white then Success(p) else
    var black :- At(raceMap, RaceLabels[1]);
    if p == black then Success(p) else
    var indianLow :- At(raceMap, RaceLabels[2]);
    var isIndian :-
      if p >= indianLow then
        var indianHigh :- At(raceMap, RaceLabels[3]);
        Success(p <= indianHigh)
      else Success(false);
    if isIndian then Success(AmericanIndianAlaskaNative) else
    var asian :- At(raceMap, RaceLabels[4]);
    if p == asian then Success(Asian) else
    var hawaiian :- At(raceMap, RaceLabels[5]);
    if p == hawaiian then Success(HawaiianPacific) else
    var other :- At(raceMap, RaceLabels[6]);
    if p == other then Success(SomeOther) else Success(TwoOrMore)
  }

  /** A code book that holds every label the first one holds, with the same codes,
      gives the same race wherever the first succeeds: a lookup the tests never reach
      cannot change the result. */
  lemma RaceExtends(raceMap: map<string, int>, larger: map<string, int>, p: int)
    requires forall k :: k in raceMap ==> k in larger && larger[k] == raceMap[k]
    requires Race(raceMap, p).Success?
    ensures Race(larger, p) == Race(raceMap, p)
  {
  }

  /** setOrigin: every Hispanic person is Hisp; a non-Hispanic person's origin follows
      the race, one past its race code, except that Hawaiian_Pacific falls through to
      the Some_Other case. A race outside the ACS range leaves the previous origin. */
  function Origin(ethnicity: int, race: int, previous: int): (r: int)
    ensures ethnicity != NotHispanic ==> r == Hisp
    ensures ethnicity == NotHispanic && White <= race <= TwoOrMore ==>
      r == (if race == HawaiianPacific then SomeOtherNH else race + 1)
    ensures ethnicity == NotHispanic && !(White <= race <= TwoOrMore) ==> r == previous
  {
    if ethnicity == NotHispanic then
      if race == White then WhiteNH
      else if race == Black then BlackNH
      else if race == AmericanIndianAlaskaNative then AmericanAlaskanNH
      else if race == Asian then AsianNH
      else if race == HawaiianPacific || race == SomeOther then SomeOtherNH
      else if race == TwoOrMore then TwoNH
      else previous
    else Hisp
  }

  /** No person is ever given the origin HawaiianNH by setOrigin. */
  lemma OriginNeverHawaiianNH(ethnicity: int, race: int, previous: int)
    requires previous != HawaiianNH
    ensures Origin(ethnicity, race, previous) != HawaiianNH
  {
  }

  /** With the usual code book, where the White and Black codes are the ACS ones, every
      person gets an ACS origin and the previous value never survives. */
  lemma RaceThenOriginIsAcsOrigin(codes: seq<int>, p: int, ethnicity: int, previous: int)
    requires |codes| == |RaceLabels| && codes[0] == White && codes[1] == Black
    ensures Hisp <= Origin(Ethnicity(ethnicity), RaceCategory(codes, p), previous) <= TwoNH
  {
  }

  /** setEducation on the codes of EducationLabels: below "Grade 9" is Less_9th_Grade,
      "Grade 9" to "12th grade" is 9th-12th grade, the single labels map to their
      categories and every code that matches nothing is Graduate_Degree. */
  function EducationCategory(codes: seq<int>, p: int): (r: int)
    requires |codes| == |EducationLabels|
    ensures Less9thGrade <= r <= GraduateDegree
    ensures r == Less9thGrade <==> p < codes[0]
    ensures r == Grade9To12 <==> codes[0] <= p <= codes[1]
    ensures r == GraduateDegree <==>
      p >= codes[0] && p > codes[1] && p != codes[2] && p != codes[3] && p != codes[4] &&
      p != codes[5] && p != codes[6]
  {
    if p < codes[0] then Less9thGrade
    else if codes[0] <= p <= codes[1] then Grade9To12
    else if p == codes[2] then HighSchool
    else if p == codes[3] || p == codes[4] then SomeCollege
    else if p == codes[5] then AssociateDegree
    else if p == codes[6] then BachelorsDegree
    else GraduateDegree
  }

  /** setEducation with its code-book lookups, made in the order of its tests; a code
      below "Grade 9" is classified before any other label is looked up. */
  function Education(eduMap: map<string, int>, p: int): (r: Result<int>)
    ensures (forall i :: 0 <= i < |EducationLabels| ==> EducationLabels[i] in eduMap) ==>
      r == Success(EducationCategory(LookupAll(eduMap, EducationLabels).value, p))
    ensures r.Fail? ==>
      exists i :: 0 <= i < |EducationLabels| && EducationLabels[i] !in eduMap &&
                  r.error == MissingKey(EducationLabels[i])
  {
    var grade9 :- At(eduMap, EducationLabels[0]);
    if p < grade9 then Success(Less9thGrade) else
    var grade12 :- At(eduMap, EducationLabels[1]);
    if p <= grade12 then Success(Grade9To12) else
    var highSchool :- At(eduMap, EducationLabels[2]);
    if p == highSchool then Success(HighSchool) else
    var collegeLess :- At(eduMap, EducationLabels[3]);
    if p == collegeLess then Success(SomeCollege) else
    var collegeMore :- At(eduMap, EducationLabels[4]);
    if p == collegeMore then Success(SomeCollege) else
    var associate :- At(eduMap, EducationLabels[5]);
    if p == associate then Success(AssociateDegree) else
    var bachelor :- At(eduMap, EducationLabels[6]);
    if p == bachelor then Success(BachelorsDegree) else Success(GraduateDegree)
  }

  /** As for the race: labels the tests never reach cannot change the education. */
  lemma EducationExtends(eduMap: map<string, int>, larger: map<string, int>, p: int)
    requires forall k :: k in eduMap ==> k in larger && larger[k] == eduMap[k]
    requires Education(eduMap, p).Success?
    ensures Education(larger, p) == Education(eduMap, p)
  {
  }

  /** The lookups stop at the first test that decides: a code book with only the White
      code classifies a White person, and one with only "Grade 9" a person below it. */
  lemma LookupsStopEarly()
    ensures Race(map["White alone" := 1], 1) == Success(1)
    ensures Race(map["White alone" := 1], 2).Fail?
    ensures Education(map["Grade 9" := 12], 5) == Success(Less9thGrade)
    ensures Education(map["Grade 9" := 12], 13) == Fail(MissingKey("12th grade"))
  {
  }

  /** Lowest and highest age of each bounded EduAgeCat band. */
  const EduBandLow: seq<int> := [18, 25, 35, 45]
  const EduBandHigh: seq<int> := [24, 34, 44, 64]

  /** setEduAgeCat: the four bands from 18 to 64; every other age, under 18 included,
      is Age_65_Over. */
  function EduAgeCat(age: int): (r: int)
    ensures Age18To24 <= r <= Age65Over
    ensures r == Age65Over <==> age < 18 || age > 64
    ensures r < Age65Over ==> EduBandLow[r - 1] <= age <= EduBandHigh[r - 1]
  {
    if 18 <= age <= 24 then Age18To24
    else if 25 <= age <= 34 then Age25To34
    else if 35 <= age <= 44 then Age35To44
    else if 45 <= age <= 64 then Age45To64
    else Age65Over
  }

  /** Among the adults of working age the bands follow the age order. */
  lemma EduAgeCatMonotone(a: int, b: int)
    requires 18 <= a <= b
    ensures EduAgeCat(a) <= EduAgeCat(b)
  {
  }

  /** The MaritalAgeCat bands, numbered 1..6 in declaration order (Age_15_19 ..
      Age_65_Over); the last band has no upper bound. */
  const MaritalBandLow: seq<int> := [15, 20, 35, 45, 55, 65]
  const MaritalBandHigh: seq<int> := [19, 34, 44, 54, 64]
  const MaritalAgeCatSize: nat := 6

  /** setMaritalAgeCat: None (the field is left as it was) for ages under 15. */
  function MaritalAgeCat(age: int): (r: Option<int>)
    ensures r.None? <==> age < 15
    ensures r.Some? ==> 1 <= r.value <= MaritalAgeCatSize && MaritalBandLow[r.value - 1] <= age
    ensures r.Some? && r.value < MaritalAgeCatSize ==> age <= MaritalBandHigh[r.value - 1]
  {
    if 15 <= age <= 19 then Some(1)
    else if 20 <= age <= 34 then Some(2)
    else if 35 <= age <= 44 then Some(3)
    else if 45 <= age <= 54 then Some(4)
    else if 55 <= age <= 64 then Some(5)
    else if age >= 65 then Some(6)
    else None
  }

  lemma MaritalAgeCatMonotone(a: int, b: int)
    requires 15 <= a <= b
    ensures MaritalAgeCat(a).value <= MaritalAgeCat(b).value
  {
  }

  /** The fields of a PersonPums object. ageCat is the detailed age category the
      IPU wrapper reads for children; src/PersonPums.cpp never sets it. */
  datatype PersonRecord = PersonRecord(
    personId: real, pumaCode: int, age: int, sex: int, ethnicity: int, race: int,
    origin: int, education: int, eduAgeCat: int, maritalAgeCat: int, maritalStatus: int,
    ageCat: int)

  /** setDemoCharacters: parses the raw fields and derives ethnicity, race and origin. */
  function SetDemoCharacters(p: PersonRecord, raceMap: map<string, int>, pPuma: string,
                             pIdx: string, pAge: string, pSex: string, pEth: string,
                             pRace: string): (r: Result<PersonRecord>)
    ensures r.Success? <==> Race(raceMap, ToNumberInt(pRace)).Success?
    ensures r.Success? ==>
      && r.value.personId == ToNumberReal(pIdx)
      && r.value.pumaCode == ToNumberInt(pPuma)
      && r.value.age == ToNumberInt(pAge)
      && r.value.sex == ToNumberInt(pSex)
      && r.value.ethnicity == Ethnicity(ToNumberInt(pEth))
      && Race(raceMap, ToNumberInt(pRace)) == Success(r.value.race)
      && r.value.origin == Origin(r.value.ethnicity, r.value.race, p.origin)
      && r.value.education == p.education && r.value.eduAgeCat == p.eduAgeCat
      && r.value.maritalAgeCat == p.maritalAgeCat && r.value.maritalStatus == p.maritalStatus
      && r.value.ageCat == p.ageCat
  {
    var eth := Ethnicity(ToNumberInt(pEth));
    match Race(raceMap, ToNumberInt(pRace))
    case Fail(e) => Fail(e)
    case Success(race) =>
      Success(p.(personId := ToNumberReal(pIdx), pumaCode := ToNumberInt(pPuma),
                 age := ToNumberInt(pAge), sex := ToNumberInt(pSex), ethnicity := eth,
                 race := race, origin := Origin(eth, race, p.origin)))
  }

  /** setSocialCharacters: the age bands from the stored age, then education and
      marital status from the raw fields. */
  function SetSocialCharacters(p: PersonRecord, eduMap: map<string, int>, pEducation: string,
                               pMarital: string): (r: Result<PersonRecord>)
    ensures r.Success? <==> Education(eduMap, ToNumberInt(pEducation)).Success?
    ensures r.Success? ==>
      && r.value.eduAgeCat == EduAgeCat(p.age)
      && Education(eduMap, ToNumberInt(pEducation)) == Success(r.value.education)
      && r.value.maritalAgeCat == MaritalAgeCat(p.age).GetOr(p.maritalAgeCat)
      && r.value.maritalStatus == ToNumberInt(pMarital)
      && r.value.(education := p.education, eduAgeCat := p.eduAgeCat,
                  maritalAgeCat := p.maritalAgeCat, maritalStatus := p.maritalStatus) == p
  {
    match Education(eduMap, ToNumberInt(pEducation))
    case Fail(e) => Fail(e)
    case Success(edu) =>
      Success(p.(eduAgeCat := EduAgeCat(p.age), education := edu,
                 maritalAgeCat := MaritalAgeCat(p.age).GetOr(p.maritalAgeCat),
                 maritalStatus := ToNumberInt(pMarital)))
  }
}
