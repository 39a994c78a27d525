/** The matching functors of header/Counter.h and std::count_if over them: how many
    sampled persons or synthetic agents fall in one cell of a seed matrix or a
    validation table. Each functor keeps the fields in its constructor's order. */
module CountPredicates {
  import opened PersonPums
  import opened Agents

  /** OriginBySexByAge on an agent: gender, race (which holds the origin) and
      age category. */
  datatype OriginBySexByAge = OriginBySexByAge(sex: int, origin: int, ageCat: int) {
    predicate Holds(a: AgentFields)
    {
      a.gender == sex && a.race == origin && a.ageCat == ageCat
    }
  }

  /** EduByOrigin: the person overload compares the origin, the agent overload the
      race field, which for agents holds the origin category. */
  datatype EduByOrigin = EduByOrigin(sex: int, origin: int, edu: int, eduAge: int) {
    predicate HoldsForPerson(p: PersonRecord)
    {
      p.sex == sex && p.origin == origin && p.education == edu && p.eduAgeCat == eduAge
    }

    predicate HoldsForAgent(a: AgentFields)
    {
      a.gender == sex && a.race == origin && a.education == edu && a.eduAgeCat == eduAge
    }
  }

  datatype MaritalStatusByOrigin = MaritalStatusByOrigin(sex: int, origin: int, maritalStatus: int, maritalAgeCat: int) {
    predicate Holds(a: AgentFields)
    {
      a.gender == sex && a.race == origin && a.maritalStatus == maritalStatus && a.maritalAgeCat == maritalAgeCat
    }
  }

  datatype EduByRace = EduByRace(sex: int, race: int, edu: int, eduAge: int) {
    predicate Holds(p: PersonRecord)
    {
      p.sex == sex && p.race == race && p.education == edu && p.eduAgeCat == eduAge
    }
  }

  /** Constructed as (sex, eduAge, origin, edu, puma), the order in which Metro's
      getCount passes its four category indices and the PUMA. */
  datatype EduByOriginByPUMA = EduByOriginByPUMA(sex: int, eduAge: int, origin: int, edu: int, pumaCode: int) {
    predicate Holds(p: PersonRecord)
    {
      p.sex == sex && p.origin == origin && p.education == edu && p.eduAgeCat == eduAge && p.pumaCode == pumaCode
    }
  }

  datatype MaritalStatusByPUMA = MaritalStatusByPUMA(sex: int, maritalAge: int, origin: int, maritalStatus: int, pumaCode: int) {
    predicate Holds(p: PersonRecord)
    {
      p.sex == sex && p.origin == origin && p.maritalStatus == maritalStatus && p.maritalAgeCat == maritalAge && p.pumaCode == pumaCode
    }
  }

  /** std::count_if. */
  function CountIf<T>(xs: seq<T>, f: T -> bool): (n: nat)
    ensures n <= |xs|
    ensures n == 0 <==> forall i :: 0 <= i < |xs| ==> !f(xs[i])
    ensures n == |xs| <==> forall i :: 0 <= i < |xs| ==> f(xs[i])
  {
    if |xs| == 0 then 0
    else
      var rest := CountIf(xs[..|xs| - 1], f);
      assert forall i :: 0 <= i < |xs| - 1 ==> xs[..|xs| - 1][i] == xs[i];
      rest + (if f(xs[|xs| - 1]) then 1 else 0)
  }

  /** The count over a concatenation is the sum of the counts. */
  lemma {:induction false} CountIfAppend<T>(xs: seq<T>, ys: seq<T>, f: T -> bool)
    ensures CountIf(xs + ys, f) == CountIf(xs, f) + CountIf(ys, f)
    decreases |ys|
  {
    if |ys| == 0 {
      assert xs + ys == xs;
    } else {
      assert (xs + ys)[..|xs + ys| - 1] == xs + ys[..|ys| - 1];
      CountIfAppend(xs, ys[..|ys| - 1], f);
    }
  }

  /** Two predicates that agree on every element count the same. */
  lemma {:induction false} CountIfSame<T>(xs: seq<T>, f: T -> bool, g: T -> bool)
    requires forall i :: 0 <= i < |xs| ==> f(xs[i]) == g(xs[i])
    ensures CountIf(xs, f) == CountIf(xs, g)
    decreases |xs|
  {
    if |xs| > 0 {
      CountIfSame(xs[..|xs| - 1], f, g);
    }
  }

  /** Counting f-elements that are either g-elements or h-elements, never both. */
  lemma {:induction false} CountIfPartition<T>(xs: seq<T>, f: T -> bool, g: T -> bool, h: T -> bool)
    requires forall i :: 0 <= i < |xs| ==> f(xs[i]) == (g(xs[i]) || h(xs[i]))
    requires forall i :: 0 <= i < |xs| ==> !(g(xs[i]) && h(xs[i]))
    ensures CountIf(xs, f) == CountIf(xs, g) + CountIf(xs, h)
    decreases |xs|
  {
    if |xs| > 0 {
      CountIfPartition(xs[..|xs| - 1], f, g, h);
    }
  }

  /** The functor Metro's getCount uses for one education seed cell, as a predicate. */
  function EducationCell(sex: int, eduAge: int, origin: int, edu: int, pumaCode: int): PersonRecord -> bool
  {
    (p: PersonRecord) => EduByOriginByPUMA(sex, eduAge, origin, edu, pumaCode).Holds(p)
  }

  /** Persons of one sex, age band, origin and PUMA with an education in 1..n. */
  function EducationGroup(sex: int, eduAge: int, origin: int, pumaCode: int, n: int): PersonRecord -> bool
  {
    (p: PersonRecord) => p.sex == sex && p.origin == origin && p.eduAgeCat == eduAge && p.pumaCode == pumaCode && 1 <= p.education <= n
  }

  /** The cells of Metro's education seed for one sex, age band, origin and PUMA,
      summed over the education categories 1..n. */
  function EducationColumnTotal(xs: seq<PersonRecord>, sex: int, eduAge: int, origin: int, pumaCode: int, n: nat): nat
  {
    if n == 0 then 0
    else EducationColumnTotal(xs, sex, eduAge, origin, pumaCode, n - 1) + CountIf(xs, EducationCell(sex, eduAge, origin, n, pumaCode))
  }

  /** The education cells partition the persons of a group: summed over 1..n they
      count every person whose education is in 1..n exactly once. */
  lemma {:induction false} EducationCellsPartition(xs: seq<PersonRecord>, sex: int, eduAge: int, origin: int, pumaCode: int, n: nat)
    ensures EducationColumnTotal(xs, sex, eduAge, origin, pumaCode, n) == CountIf(xs, EducationGroup(sex, eduAge, origin, pumaCode, n))
    decreases n
  {
    if n == 0 {
      assert CountIf(xs, EducationGroup(sex, eduAge, origin, pumaCode, n)) == 0;
    } else {
      EducationCellsPartition(xs, sex, eduAge, origin, pumaCode, n - 1);
      CountIfPartition(xs, EducationGroup(sex, eduAge, origin, pumaCode, n),
                       EducationCell(sex, eduAge, origin, n, pumaCode), EducationGroup(sex, eduAge, origin, pumaCode, n - 1));
    }
  }
}
