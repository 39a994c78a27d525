/** The county weights of mapCountiesToPUMA (src/PopBrewer.cpp): the counties of
    the PUMA file grouped under their state+PUMA key, each given its share of the
    group's population. */
module CountyWeights {
  import opened Wrappers
  import opened Text


  /** One row of the PUMA file: county name, state, PUMA code and 2014 population. */
  datatype CountyRow = CountyRow(county: string, state: string, puma: string, population: string)

  /** A county of the temporary multimap, under its key state+PUMA. */
  datatype KeyedCounty = KeyedCounty(key: string, name: string, pumaCode: int, population: int)

  /** A double quotient: finite, or NaN/infinity where the divisor is zero. */
  datatype Weight = Finite(value: real) | NotFinite

  /** A county as inserted into the output. */
  datatype County = County(name: string, pumaCode: int, population: int, populationWeight: Weight)

  /** The rows read into the temporary multimap: std::stoi of the PUMA code and of the
      population, with the first std::invalid_argument as a failure. */
  function ParsedRows(rows: seq<CountyRow>): (r: Result<seq<KeyedCounty>>)
    ensures r.Success? ==> |r.value| == |rows|
    decreases |rows|
  {
    if |rows| == 0 then Success([])
    else
      var n := |rows| - 1;
      match ParsedRows(rows[..n])
      case Fail(e) => Fail(e)
      case Success(cs) =>
        var row := rows[n];
        match Stoi(row.puma)
        case Fail(e) => Fail(e)
        case Success(p) =>
          match Stoi(row.population)
          case Fail(e) => Fail(e)
          case Success(pop) => Success(cs + [KeyedCounty(row.state + row.puma, row.county, p, pop)])
  }

  /** The counties under one key, in order: an equal_range of the multimap. */
  function Group(cs: seq<KeyedCounty>, key: string): seq<KeyedCounty>
    decreases |cs|
  {
    if |cs| == 0 then []
    else
      var n := |cs| - 1;
      Group(cs[..n], key) + (if cs[n].key == key then [cs[n]] else [])
  }

  /** The counties whose key lies in a set, in order. */
  function Groups(cs: seq<KeyedCounty>, keys: set<string>): seq<KeyedCounty>
    decreases |cs|
  {
    if |cs| == 0 then []
    else
      var n := |cs| - 1;
      Groups(cs[..n], keys) + (if cs[n].key in keys then [cs[n]] else [])
  }

  /** The total population of a list of counties (sum_pop). */
  function Population(cs: seq<KeyedCounty>): int
    decreases |cs|
  {
    if |cs| == 0 then 0 else Population(cs[..|cs| - 1]) + cs[|cs| - 1].population
  }

  /** (double)pop / sum_pop. */
  function Share(pop: int, total: int): Weight
  {
    if total == 0 then NotFinite else Finite(pop as real / total as real)
  }

  /** A county with its weight: its population over the population of its key's group
      in the whole table. */
  function Weighted(all: seq<KeyedCounty>, c: KeyedCounty): County
  {
    County(c.name, c.pumaCode, c.population, Share(c.population, Population(Group(all, c.key))))
  }

  function WeightedAll(all: seq<KeyedCounty>, cs: seq<KeyedCounty>): (r: seq<County>)
    ensures |r| == |cs|
    decreases |cs|
  {
    if |cs| == 0 then [] else WeightedAll(all, cs[..|cs| - 1]) + [Weighted(all, cs[|cs| - 1])]
  }

  /** The population weights of a list of counties, where finite. */
  function WeightTotal(out: seq<County>): real
    decreases |out|
  {
    if |out| == 0 then 0.0
    else
      var w := out[|out| - 1].populationWeight;
      WeightTotal(out[..|out| - 1]) + (if w.Finite? then w.value else 0.0)
  }

  /** mapCountiesToPUMA: every county gets its share of its group's population and is
      inserted once. The temporary multimap is the list of parsed rows; its groups are
      visited in some order of their keys. */
  method MapCountiesToPuma(rows: seq<CountyRow>) returns (r: Result<seq<County>>)
    ensures r.Fail? <==> ParsedRows(rows).Fail?
    ensures r.Success? ==> multiset(r.value) == multiset(WeightedAll(ParsedRows(rows).value, ParsedRows(rows).value))
  {
    var parsed := ReadPumaRows(rows);
    if parsed.Fail? {
      return Fail(parsed.error);
    }
    var out := WeighAll(parsed.value);
    r := Success(out);
  }

  /** The outer loop of mapCountiesToPUMA: one equal_range after the other until
      every key has been visited. */
  method WeighAll(temp: seq<KeyedCounty>) returns (out: seq<County>)
    ensures multiset(out) == multiset(WeightedAll(temp, temp))
  {
    var keys := set i | 0 <= i < |temp| :: temp[i].key;
    assert forall i :: 0 <= i < |temp| ==> temp[i].key in keys;
    var done: set<string> := {};
    out := [];
    GroupsNone(temp);
    while done != keys
      invariant done <= keys
      invariant multiset(out) == multiset(WeightedAll(temp, Groups(temp, done)))
      decreases keys - done
    {
      var key := PickKey(keys, done);
      var added := WeighGroup(temp, key);
      VisitGroup(temp, done, key, out, added);
      out := out + added;
      done := done + {key};
    }
    GroupsAll(temp, keys);
  }

  /** The next key of the multimap not yet visited. */
  method PickKey(keys: set<string>, done: set<string>) returns (key: string)
    requires done <= keys && done != keys
    ensures key in keys && key !in done
  {
    assert exists k :: k in keys && k !in done;
    key :| key in keys && key !in done;
  }

  /** The loop step of WeighAll: the visited groups grow by one key. */
  lemma VisitGroup(temp: seq<KeyedCounty>, done: set<string>, key: string, out: seq<County>, added: seq<County>)
    requires key !in done
    requires multiset(out) == multiset(WeightedAll(temp, Groups(temp, done)))
    requires added == WeightedAll(temp, Group(temp, key))
    ensures multiset(out + added) == multiset(WeightedAll(temp, Groups(temp, done + {key})))
  {
    GroupsAdd(temp, temp, done, key);
  }

  /** The read loop of mapCountiesToPUMA: each row into the temporary multimap. */
  method ReadPumaRows(rows: seq<CountyRow>) returns (r: Result<seq<KeyedCounty>>)
    ensures r == ParsedRows(rows)
  {
    var temp: seq<KeyedCounty> := [];
    var i := 0;
    while i < |rows|
      invariant 0 <= i <= |rows|
      invariant ParsedRows(rows[..i]) == Success(temp)
    {
      assert rows[..i + 1][..i] == rows[..i];
      var p := Stoi(rows[i].puma);
      var pop := Stoi(rows[i].population);
      if p.Fail? || pop.Fail? {
        ParsedRowsStaysFailed(rows, i + 1);
        return ParsedRows(rows);
      }
      temp := temp + [KeyedCounty(rows[i].state + rows[i].puma, rows[i].county, p.value, pop.value)];
      i := i + 1;
    }
    assert rows[..i] == rows;
    r := Success(temp);
  }

  /** One equal_range of mapCountiesToPUMA: the group's population, then each county's
      share of it. */
  method WeighGroup(temp: seq<KeyedCounty>, key: string) returns (added: seq<County>)
    ensures added == WeightedAll(temp, Group(temp, key))
  {
    var range := Group(temp, key);
    var sumPop := GroupPopulation(range);
    GroupKeys(temp, key);
    added := [];
    var j := 0;
    while j < |range|
      invariant 0 <= j <= |range|
      invariant added == WeightedAll(temp, range[..j])
    {
      assert range[..j + 1] == range[..j] + [range[j]];
      WeightedAllSnoc(temp, range[..j], range[j]);
      added := added + [County(range[j].name, range[j].pumaCode, range[j].population, Share(range[j].population, sumPop))];
      j := j + 1;
    }
    assert range[..j] == range;
  }

  /** The summing loop of mapCountiesToPUMA (sum_pop). */
  method GroupPopulation(range: seq<KeyedCounty>) returns (sumPop: int)
    ensures sumPop == Population(range)
  {
    sumPop := 0;
    var j := 0;
    while j < |range|
      invariant 0 <= j <= |range|
      invariant sumPop == Population(range[..j])
    {
      assert range[..j + 1][..j] == range[..j];
      sumPop := sumPop + range[j].population;
      j := j + 1;
    }
    assert range[..j] == range;
  }

  /** Every county of a group has the group's key. */
  lemma {:induction false} GroupKeys(cs: seq<KeyedCounty>, key: string)
    ensures forall i :: 0 <= i < |Group(cs, key)| ==> Group(cs, key)[i].key == key
    decreases |cs|
  {
    if |cs| > 0 {
      GroupKeys(cs[..|cs| - 1], key);
    }
  }

  /** A failed parse stays failed, with the same error, for more rows. */
  lemma {:induction false} ParsedRowsStaysFailed(rows: seq<CountyRow>, k: nat)
    requires k <= |rows|
    requires ParsedRows(rows[..k]).Fail?
    ensures ParsedRows(rows) == ParsedRows(rows[..k])
    decreases |rows| - k
  {
    if k < |rows| {
      assert rows[..k + 1][..k] == rows[..k];
      ParsedRowsStaysFailed(rows, k + 1);
    } else {
      assert rows[..k] == rows;
    }
  }

  /** Adding one more key to the visited set adds its group to the weighted output. */
  lemma {:induction false} GroupsAdd(all: seq<KeyedCounty>, cs: seq<KeyedCounty>, keys: set<string>, key: string)
    requires key !in keys
    ensures multiset(WeightedAll(all, Groups(cs, keys + {key})))
         == multiset(WeightedAll(all, Groups(cs, keys))) + multiset(WeightedAll(all, Group(cs, key)))
    decreases |cs|
  {
    if |cs| > 0 {
      GroupsAdd(all, cs[..|cs| - 1], keys, key);
      GroupsAddLast(all, cs, keys, key);
    }
  }

  /** The step of GroupsAdd: the last county joins the selected key's group, one of
      the other groups, or none. */
  lemma GroupsAddLast(all: seq<KeyedCounty>, cs: seq<KeyedCounty>, keys: set<string>, key: string)
    requires key !in keys && |cs| > 0
    requires var p := cs[..|cs| - 1];
      multiset(WeightedAll(all, Groups(p, keys + {key})))
        == multiset(WeightedAll(all, Groups(p, keys))) + multiset(WeightedAll(all, Group(p, key)))
    ensures multiset(WeightedAll(all, Groups(cs, keys + {key})))
         == multiset(WeightedAll(all, Groups(cs, keys))) + multiset(WeightedAll(all, Group(cs, key)))
  {
    var c := cs[|cs| - 1];
    if c.key == key {
      JoinsKey(all, cs, keys, key);
    } else if c.key in keys {
      JoinsOther(all, cs, keys, key);
    } else {
      JoinsNone(all, cs, keys, key);
    }
  }

  lemma JoinsKey(all: seq<KeyedCounty>, cs: seq<KeyedCounty>, keys: set<string>, key: string)
    requires key !in keys && |cs| > 0 && cs[|cs| - 1].key == key
    requires var p := cs[..|cs| - 1];
      multiset(WeightedAll(all, Groups(p, keys + {key})))
        == multiset(WeightedAll(all, Groups(p, keys))) + multiset(WeightedAll(all, Group(p, key)))
    ensures multiset(WeightedAll(all, Groups(cs, keys + {key})))
         == multiset(WeightedAll(all, Groups(cs, keys))) + multiset(WeightedAll(all, Group(cs, key)))
  {
    var n := |cs| - 1;
    var c := cs[n];
    GroupsLast(cs, keys + {key});
    GroupsLast(cs, keys);
    GroupLast(cs, key);
    var a, b, g := Groups(cs[..n], keys + {key}), Groups(cs[..n], keys), Group(cs[..n], key);
    WeightedAllSnoc(all, a, c);
    WeightedAllSnoc(all, g, c);
    MultisetSnoc(WeightedAll(all, a), WeightedAll(all, b), WeightedAll(all, g), Weighted(all, c));
  }

  lemma JoinsOther(all: seq<KeyedCounty>, cs: seq<KeyedCounty>, keys: set<string>, key: string)
    requires key !in keys && |cs| > 0 && cs[|cs| - 1].key in keys
    requires var p := cs[..|cs| - 1];
      multiset(WeightedAll(all, Groups(p, keys + {key})))
        == multiset(WeightedAll(all, Groups(p, keys))) + multiset(WeightedAll(all, Group(p, key)))
    ensures multiset(WeightedAll(all, Groups(cs, keys + {key})))
         == multiset(WeightedAll(all, Groups(cs, keys))) + multiset(WeightedAll(all, Group(cs, key)))
  {
    var n := |cs| - 1;
    var c := cs[n];
    GroupsLast(cs, keys + {key});
    GroupsLast(cs, keys);
    GroupLast(cs, key);
    var a, b, g := Groups(cs[..n], keys + {key}), Groups(cs[..n], keys), Group(cs[..n], key);
    WeightedAllSnoc(all, a, c);
    WeightedAllSnoc(all, b, c);
    MultisetSnoc(WeightedAll(all, a), WeightedAll(all, g), WeightedAll(all, b), Weighted(all, c));
  }

  lemma JoinsNone(all: seq<KeyedCounty>, cs: seq<KeyedCounty>, keys: set<string>, key: string)
    requires |cs| > 0 && cs[|cs| - 1].key !in keys && cs[|cs| - 1].key != key
    requires var p := cs[..|cs| - 1];
      multiset(WeightedAll(all, Groups(p, keys + {key})))
        == multiset(WeightedAll(all, Groups(p, keys))) + multiset(WeightedAll(all, Group(p, key)))
    ensures multiset(WeightedAll(all, Groups(cs, keys + {key})))
         == multiset(WeightedAll(all, Groups(cs, keys))) + multiset(WeightedAll(all, Group(cs, key)))
  {
    GroupsLast(cs, keys + {key});
    GroupsLast(cs, keys);
    GroupLast(cs, key);
  }

  /** Groups and Group, one county at a time. */
  lemma GroupsLast(cs: seq<KeyedCounty>, keys: set<string>)
    requires |cs| > 0
    ensures var p, c := cs[..|cs| - 1], cs[|cs| - 1];
      Groups(cs, keys) == if c.key in keys then Groups(p, keys) + [c] else Groups(p, keys)
  {
  }

  lemma GroupLast(cs: seq<KeyedCounty>, key: string)
    requires |cs| > 0
    ensures var p, c := cs[..|cs| - 1], cs[|cs| - 1];
      Group(cs, key) == if c.key == key then Group(p, key) + [c] else Group(p, key)
  {
  }

  /** Appending the same county to one side of a split and to the whole. */
  lemma MultisetSnoc(a: seq<County>, b: seq<County>, g: seq<County>, w: County)
    requires multiset(a) == multiset(b) + multiset(g)
    ensures multiset(a + [w]) == multiset(b) + multiset(g + [w])
    ensures multiset(a + [w]) == multiset(g + [w]) + multiset(b)
  {
  }

  lemma {:induction false} WeightedAllAppend(all: seq<KeyedCounty>, a: seq<KeyedCounty>, b: seq<KeyedCounty>)
    ensures WeightedAll(all, a + b) == WeightedAll(all, a) + WeightedAll(all, b)
    decreases |b|
  {
    if |b| == 0 {
      assert a + b == a;
    } else {
      var m := |b| - 1;
      assert (a + b)[..|a + b| - 1] == a + b[..m];
      WeightedAllAppend(all, a, b[..m]);
    }
  }

  /** Entry i of the weighted list is county i with its weight. */
  lemma {:induction false} WeightedAllElement(all: seq<KeyedCounty>, cs: seq<KeyedCounty>)
    ensures forall i :: 0 <= i < |cs| ==> WeightedAll(all, cs)[i] == Weighted(all, cs[i])
    decreases |cs|
  {
    if |cs| > 0 {
      var n := |cs| - 1;
      WeightedAllElement(all, cs[..n]);
    }
  }

  /** Selecting no key selects nothing. */
  lemma {:induction false} GroupsNone(cs: seq<KeyedCounty>)
    ensures Groups(cs, {}) == []
    decreases |cs|
  {
    if |cs| > 0 {
      GroupsNone(cs[..|cs| - 1]);
    }
  }

  /** Selecting every key that occurs selects the whole list. */
  lemma {:induction false} GroupsAll(cs: seq<KeyedCounty>, keys: set<string>)
    requires forall i :: 0 <= i < |cs| ==> cs[i].key in keys
    ensures Groups(cs, keys) == cs
    decreases |cs|
  {
    if |cs| > 0 {
      var n := |cs| - 1;
      assert forall i :: 0 <= i < n ==> cs[..n][i] == cs[i];
      GroupsAll(cs[..n], keys);
      assert cs[..n] + [cs[n]] == cs;
    }
  }

  /** The weights of a group's counties sum to the part of the group they cover over
      the whole group's population. */
  lemma {:induction false} GroupWeights(all: seq<KeyedCounty>, cs: seq<KeyedCounty>, key: string)
    requires Population(Group(all, key)) != 0
    ensures WeightTotal(WeightedAll(all, Group(cs, key)))
         == Population(Group(cs, key)) as real / Population(Group(all, key)) as real
    decreases |cs|
  {
    if |cs| == 0 {
      DivideZero(Population(Group(all, key)) as real);
    } else {
      GroupWeights(all, cs[..|cs| - 1], key);
      GroupLast(cs, key);
      if cs[|cs| - 1].key == key {
        GroupWeightsLast(all, cs, key);
      }
    }
  }

  /** The step of GroupWeights where the last county belongs to the group. */
  lemma GroupWeightsLast(all: seq<KeyedCounty>, cs: seq<KeyedCounty>, key: string)
    requires Population(Group(all, key)) != 0
    requires |cs| > 0 && cs[|cs| - 1].key == key
    requires var g := Group(cs[..|cs| - 1], key);
      WeightTotal(WeightedAll(all, g)) == Population(g) as real / Population(Group(all, key)) as real
    ensures var g := Group(cs[..|cs| - 1], key) + [cs[|cs| - 1]];
      WeightTotal(WeightedAll(all, g)) == Population(g) as real / Population(Group(all, key)) as real
  {
    var total := Population(Group(all, key)) as real;
    var c := cs[|cs| - 1];
    var g := Group(cs[..|cs| - 1], key);
    WeightedAllSnoc(all, g, c);
    WeightTotalSnoc(WeightedAll(all, g), Weighted(all, c));
    PopulationSnoc(g, c);
    var w0, p0, x := WeightTotal(WeightedAll(all, g)), Population(g) as real, c.population as real;
    assert Weighted(all, c).populationWeight == Finite(x / total);
    AddShare(w0, p0, x, total, WeightTotal(WeightedAll(all, g + [c])), Population(g + [c]) as real);
  }

  /** One more share: w0 = p0/t and one more county of x gives (p0 + x)/t. */
  lemma AddShare(w0: real, p0: real, x: real, t: real, w1: real, p1: real)
    requires t != 0.0 && w0 == p0 / t && w1 == w0 + x / t && p1 == p0 + x
    ensures w1 == p1 / t
  {
    DivideSum(p0, x, t);
  }

  lemma DivideZero(t: real)
    requires t != 0.0
    ensures 0.0 / t == 0.0
  {
  }

  lemma DivideSum(a: real, b: real, t: real)
    requires t != 0.0
    ensures (a + b) / t == a / t + b / t
  {
  }

  lemma DivideSelf(t: real)
    requires t != 0.0
    ensures t / t == 1.0
  {
  }

  lemma WeightedAllSnoc(all: seq<KeyedCounty>, cs: seq<KeyedCounty>, c: KeyedCounty)
    ensures WeightedAll(all, cs + [c]) == WeightedAll(all, cs) + [Weighted(all, c)]
  {
    assert (cs + [c])[..|cs|] == cs;
  }

  lemma WeightTotalSnoc(out: seq<County>, c: County)
    ensures WeightTotal(out + [c]) == WeightTotal(out) + (if c.populationWeight.Finite? then c.populationWeight.value else 0.0)
  {
    assert (out + [c])[..|out|] == out;
  }

  lemma PopulationSnoc(cs: seq<KeyedCounty>, c: KeyedCounty)
    ensures Population(cs + [c]) == Population(cs) + c.population
  {
    assert (cs + [c])[..|cs|] == cs;
  }

  /** The weights of the counties sharing a state+PUMA key sum to 1 whenever the
      group's population is not zero. */
  lemma {:induction false} GroupWeightsSumToOne(cs: seq<KeyedCounty>, key: string)
    requires Population(Group(cs, key)) != 0
    ensures WeightTotal(WeightedAll(cs, Group(cs, key))) == 1.0
  {
    GroupWeights(cs, cs, key);
    DivideSelf(Population(Group(cs, key)) as real);
  }

  /** Entry i of the weighted table is row i's county: name, parsed PUMA code and
      population, and its share of its group. */
  lemma {:induction false} ParsedRowsElement(rows: seq<CountyRow>)
    requires ParsedRows(rows).Success?
    ensures var cs := ParsedRows(rows).value;
      forall i :: 0 <= i < |rows| ==>
        && Stoi(rows[i].puma).Success? && Stoi(rows[i].population).Success?
        && cs[i] == KeyedCounty(rows[i].state + rows[i].puma, rows[i].county,
                                Stoi(rows[i].puma).value, Stoi(rows[i].population).value)
    decreases |rows|
  {
    if |rows| > 0 {
      var n := |rows| - 1;
      ParsedRowsElement(rows[..n]);
      assert forall i :: 0 <= i < n ==> rows[..n][i] == rows[i];
    }
  }
}
