/** A ViolenceAgent (src/ViolenceAgent.cpp): a PUMS person with the violence model's
    own age bands, collapsed origin and one-hot dummy variables, a friend list, and
    the three PTSD risk flags (primary, secondary, tertiary). The treatment and
    symptom dynamics are not part of this model. */
module ViolenceAgent {
  import opened Acs
  import opened Text
  import opened PersonPums

  // The PTSD risk types of src/ViolenceAgent.h.
  const Primary: int := 0
  const Secondary: int := 1
  const Tertiary: int := 2

  /** The types that have a flag. */
  predicate IsPtsdType(t: int)
  {
    t == Primary || t == Secondary || t == Tertiary
  }

  /** setAgeCat: 14-34, 35-64, 65 and over; -1 below 14. */
  function AgeCat(age: int): (r: int)
    ensures r == -1 <==> age < 14
    ensures r == ViolenceAge14To34 <==> 14 <= age <= 34
    ensures r == ViolenceAge35To64 <==> 35 <= age <= 64
    ensures r == ViolenceAge65Over <==> age >= 65
  {
    if age >= 14 && age <= 34 then ViolenceAge14To34
    else if age >= 35 && age <= 64 then ViolenceAge35To64
    else if age >= 65 then ViolenceAge65Over
    else -1
  }

  /** setNewOrigin: Hisp, WhiteNH and BlackNH keep their code (the violence codes are
      the ACS ones); every other origin becomes OtherNH. */
  function NewOrigin(origin: int): (r: int)
    ensures origin == Hisp || origin == WhiteNH || origin == BlackNH ==> r == origin
    ensures !(origin == Hisp || origin == WhiteNH || origin == BlackNH) ==> r == ViolenceOtherNH
    ensures ViolenceHisp <= r <= ViolenceOtherNH
  {
    if origin != Hisp && origin != WhiteNH && origin != BlackNH then ViolenceOtherNH else origin
  }

  /** The dummy variables of setDummyVariables. */
  datatype Dummies = Dummies(age1: int, age2: int, age3: int, white: int, black: int, hispanic: int, other: int)

  /** setDummyVariables: every dummy is cleared, then the one of the age band and
      the one of the origin are set. */
  function DummiesOf(ageCat: int, newOrigin: int): Dummies
  {
    Dummies(
      if ageCat == ViolenceAge14To34 then 1 else 0,
      if ageCat == ViolenceAge35To64 then 1 else 0,
      if ageCat == ViolenceAge65Over then 1 else 0,
      if newOrigin == ViolenceWhiteNH then 1 else 0,
      if newOrigin == ViolenceBlackNH then 1 else 0,
      if newOrigin == ViolenceHisp then 1 else 0,
      if newOrigin == ViolenceOtherNH then 1 else 0)
  }

  /** The dummies are one-hot: each is 0 or 1, exactly one age dummy is set when the
      age band is set (none for -1), and exactly one origin dummy is set for every
      collapsed origin. */
  lemma DummiesOneHot(age: int, origin: int)
    ensures var d := DummiesOf(AgeCat(age), NewOrigin(origin));
      && 0 <= d.age1 <= 1 && 0 <= d.age2 <= 1 && 0 <= d.age3 <= 1
      && 0 <= d.white <= 1 && 0 <= d.black <= 1 && 0 <= d.hispanic <= 1 && 0 <= d.other <= 1
      && d.age1 + d.age2 + d.age3 == (if AgeCat(age) == -1 then 0 else 1)
      && d.white + d.black + d.hispanic + d.other == 1
  {
  }

  /** isStudent's profile: 14 to 18 years old in 9th to 12th grade. */
  predicate StudentProfile(age: int, education: int)
  {
    age >= 14 && age <= 18 && education == Grade9To12
  }

  /** isTeacher's profile: 25 to 64 years old with at least a bachelor's degree. */
  predicate TeacherProfile(age: int, education: int)
  {
    age >= 25 && age < 65 && education >= BachelorsDegree
  }

  /** No one has both profiles. */
  lemma StudentIsNoTeacher(age: int, education: int)
    ensures !(StudentProfile(age, education) && TeacherProfile(age, education))
  {
  }

  /** getPtsdType: the first flag set, primary over secondary over tertiary. */
  function PtsdType(pri: bool, sec: bool, ter: bool): (r: int)
    ensures r == -1 <==> !pri && !sec && !ter
    ensures r == Primary <==> pri
    ensures r == Secondary <==> !pri && sec
    ensures r == Tertiary <==> !pri && !sec && ter
  {
    if pri then Primary else if sec then Secondary else if ter then Tertiary else -1
  }

  /** The agent index of the constructor: "Agent", the household count, the count of
      persons. */
  function AgentIndex(hhCount: int, countPersons: int): string
  {
    "Agent" + IntToString(hhCount) + IntToString(countPersons)
  }

  class ViolenceAgent {
    const householdID: int
    const puma: int
    const age: int
    const sex: int
    const origin: int
    const education: int
    const agentIdx: string
    var schoolName: string
    const ageCat: int
    const newOrigin: int
    const dummies: Dummies
    var friendSize: int
    var friendList: seq<ViolenceAgent>
    var priPtsd: bool
    var secPtsd: bool
    var terPtsd: bool

    /** The constructor from a PUMS person: its fields, the agent index, no school
        ("N/A"), no PTSD flag, an empty friend list, and the derived age band,
        origin and dummies. friendSize is left unset, as in the source. */
    constructor (p: PersonRecord, hhCount: int, countPersons: int)
      ensures householdID == hhCount && puma == p.pumaCode && age == p.age && sex == p.sex
      ensures origin == p.origin && education == p.education
      ensures agentIdx == AgentIndex(hhCount, countPersons) && schoolName == "N/A"
      ensures !priPtsd && !secPtsd && !terPtsd && friendList == []
      ensures ageCat == AgeCat(p.age) && newOrigin == NewOrigin(p.origin)
      ensures dummies == DummiesOf(AgeCat(p.age), NewOrigin(p.origin))
    {
      householdID, puma := hhCount, p.pumaCode;
      age, sex, origin := p.age, p.sex, p.origin;
      education := p.education;
      agentIdx := AgentIndex(hhCount, countPersons);
      friendList := [];
      priPtsd, secPtsd, terPtsd := false, false, false;
      schoolName := "N/A";
      ageCat := AgeCat(p.age);
      newOrigin := NewOrigin(p.origin);
      dummies := DummiesOf(AgeCat(p.age), NewOrigin(p.origin));
    }

    method SetSchoolName(name: string)
      modifies this`schoolName
      ensures schoolName == name
    {
      schoolName := name;
    }

    /** setFriendSize: the size when it is positive and the agent is 14 or older,
        otherwise 0 (the reserve calls are not modelled). */
    method SetFriendSize(size: int)
      modifies this`friendSize
      ensures friendSize == if size > 0 && age >= 14 then size else 0
      ensures friendSize >= 0
    {
      if size > 0 && age >= 14 {
        friendSize := size;
      } else {
        friendSize := 0;
      }
    }

    /** setFriend: appends while the list holds at most friendSize entries, so a list
        within friendSize + 1 entries stays within it. */
    method SetFriend(frnd: ViolenceAgent)
      modifies this`friendList
      ensures friendList == old(friendList) + (if |old(friendList)| <= friendSize then [frnd] else [])
      ensures |old(friendList)| <= friendSize + 1 ==> |friendList| <= friendSize + 1
    {
      if |friendList| <= friendSize {
        friendList := friendList + [frnd];
      }
    }

    /** setPTSDstatus: sets the flag of the given type; other types are ignored. */
    method SetPtsdStatus(status: bool, ptsdType: int)
      modifies this`priPtsd, this`secPtsd, this`terPtsd
      ensures priPtsd == (if ptsdType == Primary then status else old(priPtsd))
      ensures secPtsd == (if ptsdType == Secondary then status else old(secPtsd))
      ensures terPtsd == (if ptsdType == Tertiary then status else old(terPtsd))
    {
      if ptsdType == Primary {
        priPtsd := status;
      } else if ptsdType == Secondary {
        secPtsd := status;
      } else if ptsdType == Tertiary {
        terPtsd := status;
      }
    }

    /** getPTSDstatus: the flag of the given type, false for any other type. */
    function GetPtsdStatus(ptsdType: int): (r: bool)
      reads this
      ensures r <==> (ptsdType == Primary && priPtsd) || (ptsdType == Secondary && secPtsd)
                     || (ptsdType == Tertiary && terPtsd)
    {
      if ptsdType == Primary then priPtsd
      else if ptsdType == Secondary then secPtsd
      else if ptsdType == Tertiary then terPtsd
      else false
    }

    function GetPtsdType(): int
      reads this
    {
      PtsdType(priPtsd, secPtsd, terPtsd)
    }

    predicate IsStudent()
    {
      StudentProfile(age, education)
    }

    predicate IsTeacher()
    {
      TeacherProfile(age, education)
    }

    /** Whether some friend carries the given agent index. */
    predicate HasFriend(idx: string)
      reads this
    {
      exists i :: 0 <= i < |friendList| && friendList[i].agentIdx == idx
    }

    /** isFriend: a scan of the friend list for b's agent index. */
    method IsFriend(b: ViolenceAgent) returns (isFrnd: bool)
      ensures isFrnd <==> HasFriend(b.agentIdx)
    {
      isFrnd := false;
      var i := 0;
      while i < |friendList|
        invariant 0 <= i <= |friendList|
        invariant forall j :: 0 <= j < i ==> friendList[j].agentIdx != b.agentIdx
      {
        if friendList[i].agentIdx == b.agentIdx {
          isFrnd := true;
          return;
        }
        i := i + 1;
      }
    }

    /** isCompatible: b can become a friend unless it shares the household or the
        index, its friend list is full, or it is a friend already. */
    method IsCompatible(b: ViolenceAgent) returns (valid: bool)
      ensures valid <==> !(householdID == b.householdID || agentIdx == b.agentIdx
                           || |b.friendList| == b.friendSize || HasFriend(b.agentIdx))
    {
      var frnd := IsFriend(b);
      valid := !(householdID == b.householdID || agentIdx == b.agentIdx || |b.friendList| == b.friendSize || frnd);
    }

    /** isPrimaryRisk / isSecondaryRisk: membership of the agent index in a pool. */
    predicate InPool(pool: set<string>)
    {
      agentIdx in pool
    }
  }
}
