/** The deterministic part of the school-shooting model (src/ViolenceModel.cpp): the
    bucket maps of students, teachers and other agents, the household tests, and the
    three risk pools (primary: the directly affected, secondary: their families and
    friends, tertiary: the rest of the community) with the rules that keep them
    apart. Random draws are parameters; a pool is the set of agent indices the source
    keeps as the keys of a map to true. */
module ViolenceModel {
  import opened Wrappers
  import opened Text
  import opened ViolenceAgent

  // Network types and agent types of src/ViolenceModel.h
  const OutSchoolNetwork: int := 0
  const InSchoolNetwork: int := 1
  const Student: int := 0
  const Teacher: int := 1

  type Household = seq<ViolenceAgent>
  /** An AgentListMap: agents bucketed under a string key. */
  type AgentListMap = map<string, seq<ViolenceAgent>>

  /** The bucket key of createAgentHashMap: origin and education for the out-of-school
      network, origin alone for the in-school network, "" otherwise. */
  function NetworkKey(origin: int, education: int, networkType: int): string
  {
    if networkType == OutSchoolNetwork then IntToString(origin) + IntToString(education)
    else if networkType == InSchoolNetwork then IntToString(origin)
    else ""
  }

  /** One agent appended to the bucket of a key, the bucket created when missing. */
  function Pushed(m: AgentListMap, key: string, a: ViolenceAgent): (r: AgentListMap)
  {
    if key in m then m[key := m[key] + [a]] else m[key := [a]]
  }

  /** The pushed key has a bucket ending in the agent, after the old bucket if there
      was one; every other bucket is left as it was. */
  lemma PushedBuckets(m: AgentListMap, key: string, a: ViolenceAgent)
    ensures Pushed(m, key, a).Keys == m.Keys + {key}
    ensures Pushed(m, key, a)[key] == (if key in m then m[key] else []) + [a]
    ensures forall k :: k in m && k != key ==> Pushed(m, key, a)[k] == m[k]
  {
  }

  /** createAgentHashMap: the agent goes to the end of its key's bucket. */
  method CreateAgentHashMap(agentsMap: AgentListMap, a: ViolenceAgent, networkType: int) returns (r: AgentListMap)
    ensures r == Pushed(agentsMap, NetworkKey(a.origin, a.education, networkType), a)
  {
    var key := "";
    if networkType == OutSchoolNetwork {
      key := IntToString(a.origin) + IntToString(a.education);
    } else if networkType == InSchoolNetwork {
      key := IntToString(a.origin);
    }
    assert key == NetworkKey(a.origin, a.education, networkType);
    r := PushAgent(agentsMap, key, a);
  }

  /** The bucket update shared by createAgentHashMap and poolPrimaryRiskAgents: a new
      bucket holding the agent when the key is missing, else the agent at the end of
      the key's bucket. */
  method PushAgent(m: AgentListMap, key: string, a: ViolenceAgent) returns (r: AgentListMap)
    ensures r == Pushed(m, key, a)
  {
    if key !in m {
      r := m[key := [a]];
    } else {
      r := m[key := m[key] + [a]];
    }
  }

  /** A single decimal digit is written as one character. */
  lemma DigitString(d: int)
    requires 0 <= d <= 9
    ensures IntToString(d) == [DigitChar(d)]
  {
  }

  /** With one-digit codes the bucket key tells the agents apart: two agents share an
      out-of-school bucket exactly when origin and education agree, and an in-school
      bucket exactly when the origin agrees. */
  lemma NetworkKeySeparates(o1: int, e1: int, o2: int, e2: int)
    requires 0 <= o1 <= 9 && 0 <= e1 <= 9 && 0 <= o2 <= 9 && 0 <= e2 <= 9
    ensures NetworkKey(o1, e1, OutSchoolNetwork) == NetworkKey(o2, e2, OutSchoolNetwork) <==> o1 == o2 && e1 == e2
    ensures NetworkKey(o1, e1, InSchoolNetwork) == NetworkKey(o2, e2, InSchoolNetwork) <==> o1 == o2
  {
    DigitString(o1);
    DigitString(e1);
    DigitString(o2);
    DigitString(e2);
    var k1, k2 := NetworkKey(o1, e1, OutSchoolNetwork), NetworkKey(o2, e2, OutSchoolNetwork);
    if k1 == k2 {
      assert k1[0] == k2[0] && k1[1] == k2[1];
    }
  }

  /** The agent indices of a list of agents. */
  function Indices(xs: seq<ViolenceAgent>): set<string>
  {
    if xs == [] then {} else Indices(xs[..|xs| - 1]) + {xs[|xs| - 1].agentIdx}
  }

  /** An index belongs to a list exactly when one of its agents carries it. */
  lemma {:induction false} IndicesMember(xs: seq<ViolenceAgent>, x: string)
    ensures x in Indices(xs) <==> exists i :: 0 <= i < |xs| && xs[i].agentIdx == x
  {
    if xs != [] {
      var init := xs[..|xs| - 1];
      IndicesMember(init, x);
      if x in Indices(init) {
        var i :| 0 <= i < |init| && init[i].agentIdx == x;
        assert xs[i] == init[i];
      }
      if exists i :: 0 <= i < |xs| && xs[i].agentIdx == x {
        var i :| 0 <= i < |xs| && xs[i].agentIdx == x;
        if i < |init| {
          assert init[i] == xs[i];
        }
      }
    }
  }

  lemma IndicesSnoc(xs: seq<ViolenceAgent>, a: ViolenceAgent)
    ensures Indices(xs + [a]) == Indices(xs) + {a.agentIdx}
  {
    assert (xs + [a])[..|xs|] == xs;
  }

  lemma {:induction false} IndicesAppend(a: seq<ViolenceAgent>, b: seq<ViolenceAgent>)
    ensures Indices(a + b) == Indices(a) + Indices(b)
    decreases |b|
  {
    if b == [] {
      assert a + b == a;
    } else {
      var init := b[..|b| - 1];
      IndicesAppend(a, init);
      assert a + b == (a + init) + [b[|b| - 1]];
      IndicesSnoc(a + init, b[|b| - 1]);
    }
  }

  /** isAffectedHousehold's condition: some member is in the primary pool. */
  predicate Affected(hh: Household, primary: set<string>)
  {
    exists i :: 0 <= i < |hh| && hh[i].agentIdx in primary
  }

  /** The number of students among the agents. */
  function NumStudents(agents: seq<ViolenceAgent>): (r: nat)
    ensures r <= |agents|
  {
    if agents == [] then 0
    else NumStudents(agents[..|agents| - 1]) + (if agents[|agents| - 1].IsStudent() then 1 else 0)
  }

  /** The number of agents of at least the given age. */
  function NumAtLeast(agents: seq<ViolenceAgent>, minAge: int): (r: nat)
    ensures r <= |agents|
  {
    if agents == [] then 0
    else NumAtLeast(agents[..|agents| - 1], minAge) + (if agents[|agents| - 1].age >= minAge then 1 else 0)
  }

  /** No student is counted exactly when there is none, and every agent exactly when
      all are students. */
  lemma {:induction false} NumStudentsExtremes(agents: seq<ViolenceAgent>)
    ensures NumStudents(agents) == 0 <==> forall i :: 0 <= i < |agents| ==> !agents[i].IsStudent()
    ensures NumStudents(agents) == |agents| <==> forall i :: 0 <= i < |agents| ==> agents[i].IsStudent()
  {
    if agents != [] {
      var init := agents[..|agents| - 1];
      NumStudentsExtremes(init);
      assert forall i :: 0 <= i < |init| ==> init[i] == agents[i];
    }
  }

  /** Likewise for the members of at least the minimum age. */
  lemma {:induction false} NumAtLeastExtremes(agents: seq<ViolenceAgent>, minAge: int)
    ensures NumAtLeast(agents, minAge) == 0 <==> forall i :: 0 <= i < |agents| ==> agents[i].age < minAge
    ensures NumAtLeast(agents, minAge) == |agents| <==> forall i :: 0 <= i < |agents| ==> agents[i].age >= minAge
  {
    if agents != [] {
      var init := agents[..|agents| - 1];
      NumAtLeastExtremes(init, minAge);
      assert forall i :: 0 <= i < |init| ==> init[i] == agents[i];
    }
  }

  /** One step of a counting loop: the prefix grows by one agent. */
  lemma CountsSnoc(agents: seq<ViolenceAgent>, i: int, minAge: int)
    requires 0 <= i < |agents|
    ensures NumStudents(agents[..i + 1]) == NumStudents(agents[..i]) + (if agents[i].IsStudent() then 1 else 0)
    ensures NumAtLeast(agents[..i + 1], minAge) == NumAtLeast(agents[..i], minAge) + (if agents[i].age >= minAge then 1 else 0)
  {
    assert agents[..i + 1][..i] == agents[..i];
  }

  /** The agents of an agent map. */
  function MapAgents(m: AgentListMap): set<ViolenceAgent>
  {
    set k, i | k in m && 0 <= i < |m[k]| :: m[k][i]
  }

  /** The agents over all buckets, with their multiplicities. */
  ghost function Flatten(m: AgentListMap): multiset<ViolenceAgent>
    decreases |m.Keys|
  {
    if m.Keys == {} then multiset{}
    else
      var k :| k in m;
      assert (m - {k}).Keys == m.Keys - {k};
      multiset(m[k]) + Flatten(m - {k})
  }

  /** The flattening does not depend on the bucket taken first. */
  lemma {:induction false} FlattenRemove(m: AgentListMap, k: string)
    requires k in m
    ensures Flatten(m) == multiset(m[k]) + Flatten(m - {k})
    decreases |m.Keys|
  {
    var j :| j in m && Flatten(m) == multiset(m[j]) + Flatten(m - {j});
    if j != k {
      var mj, mk := m - {j}, m - {k};
      assert mj.Keys == m.Keys - {j};
      assert mk.Keys == m.Keys - {k};
      assert mj - {k} == mk - {j};
      var rest := mj - {k};
      FlattenRemove(mj, k);
      FlattenRemove(mk, j);
      assert Flatten(mj) == multiset(m[k]) + Flatten(rest);
      assert Flatten(mk) == multiset(m[j]) + Flatten(rest);
    }
  }

  /** An agent is flattened exactly when it sits in some bucket. */
  lemma {:induction false} FlattenMembers(m: AgentListMap)
    ensures forall a :: a in Flatten(m) <==> a in MapAgents(m)
    decreases |m.Keys|
  {
    if m.Keys != {} {
      var k :| k in m && Flatten(m) == multiset(m[k]) + Flatten(m - {k});
      assert (m - {k}).Keys == m.Keys - {k};
      FlattenMembers(m - {k});
      forall a
        ensures a in Flatten(m) <==> a in MapAgents(m)
      {
        if a in MapAgents(m) {
          var j, i :| j in m && 0 <= i < |m[j]| && m[j][i] == a;
          if j != k {
            assert (m - {k})[j][i] == a;
          }
        }
      }
    }
  }

  /** The total number of agents of a map, as poolPrimaryRiskAgents adds it up. */
  method SumSizes(m: AgentListMap) returns (total: int)
    ensures total == |Flatten(m)|
  {
    total := 0;
    var rest := m;
    while |rest.Keys| > 0
      invariant total + |Flatten(rest)| == |Flatten(m)|
      decreases |rest.Keys|
    {
      ghost var w := SomeElement(rest.Keys);
      var k :| k in rest;
      FlattenRemove(rest, k);
      total := total + |rest[k]|;
      assert (rest - {k}).Keys == rest.Keys - {k};
      rest := rest - {k};
    }
  }

  /** The bucket key of an affected agent: its sex, or "0" for all. */
  function GenderKey(a: ViolenceAgent, bySex: bool): string
  {
    if bySex then IntToString(a.sex) else "0"
  }

  /** The agents appended one by one to the buckets of their gender keys. */
  function PushAll(m: AgentListMap, xs: seq<ViolenceAgent>, bySex: bool): (r: AgentListMap)
    ensures m.Keys <= r.Keys
  {
    if xs == [] then m
    else
      var n := |xs| - 1;
      Pushed(PushAll(m, xs[..n], bySex), GenderKey(xs[n], bySex), xs[n])
  }

  lemma PushAllSnoc(m: AgentListMap, xs: seq<ViolenceAgent>, a: ViolenceAgent, bySex: bool)
    ensures PushAll(m, xs + [a], bySex) == Pushed(PushAll(m, xs, bySex), GenderKey(a, bySex), a)
  {
    assert (xs + [a])[..|xs|] == xs;
  }

  /** The agents of a list whose gender key is the given one, in order. */
  function WithKey(xs: seq<ViolenceAgent>, key: string, bySex: bool): seq<ViolenceAgent>
  {
    if xs == [] then []
    else
      var n := |xs| - 1;
      WithKey(xs[..n], key, bySex) + (if GenderKey(xs[n], bySex) == key then [xs[n]] else [])
  }

  /** After the pushes, each bucket is the old one followed by the pushed agents of its
      key, in push order; a key gets a bucket exactly when it had one or an agent of
      that key was pushed. */
  lemma {:induction false} PushAllBucket(m: AgentListMap, xs: seq<ViolenceAgent>, bySex: bool, key: string)
    ensures key in PushAll(m, xs, bySex) <==> key in m || WithKey(xs, key, bySex) != []
    ensures key in PushAll(m, xs, bySex) ==>
      PushAll(m, xs, bySex)[key] == (if key in m then m[key] else []) + WithKey(xs, key, bySex)
  {
    if xs != [] {
      var n := |xs| - 1;
      PushAllBucket(m, xs[..n], bySex, key);
      var prev := PushAll(m, xs[..n], bySex);
      PushedBuckets(prev, GenderKey(xs[n], bySex), xs[n]);
      var w0 := WithKey(xs[..n], key, bySex);
      if GenderKey(xs[n], bySex) != key {
        assert WithKey(xs, key, bySex) == w0 + [];
      }
    }
  }

  /** When every pushed agent finds the bucket of its sex, no bucket is created. */
  lemma {:induction false} PushAllKeys(m: AgentListMap, xs: seq<ViolenceAgent>)
    requires HasSexBuckets(m, xs)
    ensures PushAll(m, xs, true).Keys == m.Keys
  {
    if xs != [] {
      var n := |xs| - 1;
      PushAllKeys(m, xs[..n]);
      PushedBuckets(PushAll(m, xs[..n], true), GenderKey(xs[n], true), xs[n]);
    }
  }

  lemma {:induction false} PushAllAppend(m: AgentListMap, a: seq<ViolenceAgent>, b: seq<ViolenceAgent>, bySex: bool)
    ensures PushAll(m, a + b, bySex) == PushAll(PushAll(m, a, bySex), b, bySex)
    decreases |b|
  {
    if b == [] {
      assert a + b == a;
    } else {
      var n := |b| - 1;
      assert (a + b)[..|a + b| - 1] == a + b[..n];
      PushAllAppend(m, a, b[..n], bySex);
    }
  }

  /** A draw of poolPrimaryRiskAgents: the origin key drawn and the position then drawn
      in that origin's bucket. */
  datatype Draw = Draw(origin: string, pick: nat)

  /** The position drawn lies inside the bucket, as random_int(0, size - 1) ensures. */
  predicate DrawsInRange(m: AgentListMap, draws: seq<Draw>)
  {
    forall i :: 0 <= i < |draws| && draws[i].origin in m ==> draws[i].pick < |m[draws[i].origin]|
  }

  /** The agents poolPrimaryRiskAgents takes from draw j onwards while count agents are
      still wanted: a drawn origin without a bucket and an agent already in the pool
      are skipped. */
  function Picks(m: AgentListMap, draws: seq<Draw>, j: nat, pool: set<string>, count: int): seq<ViolenceAgent>
    requires DrawsInRange(m, draws)
    decreases |draws| - j
  {
    if count <= 0 || j >= |draws| then []
    else if draws[j].origin !in m then Picks(m, draws, j + 1, pool, count)
    else
      var a := m[draws[j].origin][draws[j].pick];
      if a.agentIdx in pool then Picks(m, draws, j + 1, pool, count)
      else [a] + Picks(m, draws, j + 1, pool + {a.agentIdx}, count - 1)
  }

  /** A draw that takes its agent: the agent heads what is picked from that draw on. */
  lemma PicksTaken(chosen: seq<ViolenceAgent>, m: AgentListMap, draws: seq<Draw>, j: nat, pool: set<string>, count: int)
    requires DrawsInRange(m, draws)
    requires count > 0 && j < |draws| && draws[j].origin in m
    requires m[draws[j].origin][draws[j].pick].agentIdx !in pool
    ensures var a := m[draws[j].origin][draws[j].pick];
      (chosen + [a]) + Picks(m, draws, j + 1, pool + {a.agentIdx}, count - 1) == chosen + Picks(m, draws, j, pool, count)
  {
    var a := m[draws[j].origin][draws[j].pick];
    var rest := Picks(m, draws, j + 1, pool + {a.agentIdx}, count - 1);
    assert Picks(m, draws, j, pool, count) == [a] + rest;
    assert (chosen + [a]) + rest == chosen + ([a] + rest);
  }

  /** A draw that takes nothing: its origin has no bucket or its agent is pooled. */
  lemma PicksSkipped(chosen: seq<ViolenceAgent>, m: AgentListMap, draws: seq<Draw>, j: nat, pool: set<string>, count: int)
    requires DrawsInRange(m, draws)
    requires count > 0 && j < |draws|
    requires draws[j].origin in m ==> m[draws[j].origin][draws[j].pick].agentIdx in pool
    ensures chosen + Picks(m, draws, j + 1, pool, count) == chosen + Picks(m, draws, j, pool, count)
  {
  }

  /** The picked agents are new to the pool, pairwise distinct by index, taken from the
      map, and no more than wanted. */
  lemma {:induction false} PicksProperties(m: AgentListMap, draws: seq<Draw>, j: nat, pool: set<string>, count: int)
    requires DrawsInRange(m, draws)
    ensures var r := Picks(m, draws, j, pool, count);
      && (forall i :: 0 <= i < |r| ==> r[i].agentIdx !in pool && r[i] in MapAgents(m))
      && (forall i, i' :: 0 <= i < i' < |r| ==> r[i].agentIdx != r[i'].agentIdx)
      && (|r| == 0 || |r| <= count)
    decreases |draws| - j
  {
    if count <= 0 || j >= |draws| {
    } else if draws[j].origin !in m {
      PicksProperties(m, draws, j + 1, pool, count);
    } else {
      var a := m[draws[j].origin][draws[j].pick];
      if a.agentIdx in pool {
        PicksProperties(m, draws, j + 1, pool, count);
      } else {
        var rest := Picks(m, draws, j + 1, pool + {a.agentIdx}, count - 1);
        PicksProperties(m, draws, j + 1, pool + {a.agentIdx}, count - 1);
        assert Picks(m, draws, j, pool, count) == [a] + rest;
        assert a in MapAgents(m);
      }
    }
  }

  /** The drawing loop of poolPrimaryRiskAgents, from a pool and a wanted count: what
      it picks, the pool and the affected buckets it leaves, and the count still
      wanted. */
  method DrawPrimary(agentsMap: AgentListMap, affAgents: AgentListMap, bySex: bool, draws: seq<Draw>, pool0: set<string>, affectedCount: int)
    returns (chosen: seq<ViolenceAgent>, pool: set<string>, affOut: AgentListMap, count: int)
    requires DrawsInRange(agentsMap, draws)
    ensures chosen == Picks(agentsMap, draws, 0, pool0, affectedCount)
    ensures pool == pool0 + Indices(chosen)
    ensures count == affectedCount - |chosen|
    ensures affOut == PushAll(affAgents, chosen, bySex)
    ensures affectedCount > 0 ==> count >= 0
  {
    chosen, pool, affOut := [], pool0, affAgents;
    var i;
    i, count := 0, affectedCount;
    assert chosen + Picks(agentsMap, draws, i, pool, count) == Picks(agentsMap, draws, 0, pool0, affectedCount);
    while count > 0 && i < |draws|
      invariant 0 <= i <= |draws|
      invariant chosen + Picks(agentsMap, draws, i, pool, count) == Picks(agentsMap, draws, 0, pool0, affectedCount)
      invariant pool == pool0 + Indices(chosen)
      invariant count == affectedCount - |chosen|
      invariant affOut == PushAll(affAgents, chosen, bySex)
      invariant affectedCount > 0 ==> count >= 0
      decreases |draws| - i
    {
      chosen, pool, affOut, count := DrawStep(agentsMap, affAgents, bySex, draws, i, pool0, affectedCount, chosen, pool, affOut, count);
      i := i + 1;
    }
  }

  /** One draw of the loop of poolPrimaryRiskAgents: an agent drawn from a bucket and
      not yet at primary risk joins the pool and its gender bucket; any other draw
      changes nothing. */
  method DrawStep(agentsMap: AgentListMap, ghost affAgents: AgentListMap, bySex: bool, draws: seq<Draw>, i: nat,
                  ghost pool0: set<string>, ghost affectedCount: int,
                  chosen: seq<ViolenceAgent>, pool: set<string>, affOut: AgentListMap, count: int)
    returns (chosen': seq<ViolenceAgent>, pool': set<string>, affOut': AgentListMap, count': int)
    requires DrawsInRange(agentsMap, draws) && i < |draws| && count > 0
    requires pool == pool0 + Indices(chosen) && count == affectedCount - |chosen|
    requires affOut == PushAll(affAgents, chosen, bySex)
    ensures chosen' + Picks(agentsMap, draws, i + 1, pool', count') == chosen + Picks(agentsMap, draws, i, pool, count)
    ensures pool' == pool0 + Indices(chosen') && count' == affectedCount - |chosen'| && count' >= 0
    ensures affOut' == PushAll(affAgents, chosen', bySex)
  {
    chosen', pool', affOut', count' := chosen, pool, affOut, count;
    var d := draws[i];
    if d.origin in agentsMap {
      var agent := agentsMap[d.origin][d.pick];
      var keyGender := GenderKey(agent, bySex);
      if agent.InPool(pool) {
        PicksSkipped(chosen, agentsMap, draws, i, pool, count);
        return;
      }
      PushAllSnoc(affAgents, chosen, agent, bySex);
      IndicesSnoc(chosen, agent);
      PicksTaken(chosen, agentsMap, draws, i, pool, count);
      affOut' := PushAgent(affOut, keyGender, agent);
      pool' := pool + {agent.agentIdx};
      chosen' := chosen + [agent];
      count' := count - 1;
    } else {
      PicksSkipped(chosen, agentsMap, draws, i, pool, count);
    }
  }

  /** An agent list without the agents whose index is already pooled or appears
      earlier: what a loop that pools each agent once leaves behind. */
  function Fresh(cs: seq<ViolenceAgent>, pool: set<string>): seq<ViolenceAgent>
  {
    if cs == [] then []
    else
      var n := |cs| - 1;
      Fresh(cs[..n], pool) + (if cs[n].agentIdx in pool + Indices(cs[..n]) then [] else [cs[n]])
  }

  lemma FreshSnoc(cs: seq<ViolenceAgent>, c: ViolenceAgent, pool: set<string>)
    ensures Fresh(cs + [c], pool) == Fresh(cs, pool) + (if c.agentIdx in pool + Indices(cs) then [] else [c])
    ensures Indices(cs + [c]) == Indices(cs) + {c.agentIdx}
  {
    assert (cs + [c])[..|cs|] == cs;
  }

  /** Pooling two lists one after the other is pooling the second against the pool
      the first leaves. */
  lemma {:induction false} FreshAppend(a: seq<ViolenceAgent>, b: seq<ViolenceAgent>, pool: set<string>)
    ensures Fresh(a + b, pool) == Fresh(a, pool) + Fresh(b, pool + Indices(a))
    decreases |b|
  {
    if b == [] {
      assert a + b == a;
    } else {
      var init, c := b[..|b| - 1], b[|b| - 1];
      assert b == init + [c];
      assert a + b == (a + init) + [c];
      FreshAppend(a, init, pool);
      FreshSnoc(a + init, c, pool);
      FreshSnoc(init, c, pool + Indices(a));
      IndicesAppend(a, init);
    }
  }

  /** One step of a pooling loop: the next candidate is kept exactly when its index
      is not pooled yet, and the pool then gains it. */
  lemma FreshStep(cs: seq<ViolenceAgent>, c: ViolenceAgent, pool: set<string>, added: seq<ViolenceAgent>, poolNow: set<string>)
    requires added == Fresh(cs, pool) && poolNow == pool + Indices(cs)
    ensures c.agentIdx in poolNow ==> Fresh(cs + [c], pool) == added && pool + Indices(cs + [c]) == poolNow
    ensures c.agentIdx !in poolNow ==> Fresh(cs + [c], pool) == added + [c] && pool + Indices(cs + [c]) == poolNow + {c.agentIdx}
  {
    FreshSnoc(cs, c, pool);
  }

  /** Together with the pool, the kept agents cover every index of the list. */
  lemma {:induction false} FreshCovers(cs: seq<ViolenceAgent>, pool: set<string>)
    ensures pool + Indices(Fresh(cs, pool)) == pool + Indices(cs)
  {
    if cs != [] {
      var n := |cs| - 1;
      var init, c := cs[..n], cs[n];
      assert cs == init + [c];
      FreshCovers(init, pool);
      FreshSnoc(init, c, pool);
      var r0 := Fresh(init, pool);
      if c.agentIdx in pool + Indices(init) {
        assert Fresh(cs, pool) == r0;
        assert pool + Indices(cs) == (pool + Indices(init)) + {c.agentIdx};
      } else {
        IndicesSnoc(r0, c);
        assert pool + Indices(r0 + [c]) == (pool + Indices(r0)) + {c.agentIdx};
      }
    }
  }

  /** What a pooling loop keeps: agents of the list, new to the pool, each index once. */
  lemma {:induction false} FreshProperties(cs: seq<ViolenceAgent>, pool: set<string>)
    ensures var r := Fresh(cs, pool);
      && (forall i :: 0 <= i < |r| ==> r[i] in cs && r[i].agentIdx !in pool)
      && (forall i, j :: 0 <= i < j < |r| ==> r[i].agentIdx != r[j].agentIdx)
  {
    if cs != [] {
      var n := |cs| - 1;
      var init, c := cs[..n], cs[n];
      assert cs == init + [c];
      FreshProperties(init, pool);
      FreshSnoc(init, c, pool);
      var r0 := Fresh(init, pool);
      if c.agentIdx !in pool + Indices(init) {
        FreshCovers(init, pool);
        forall i | 0 <= i < |r0|
          ensures r0[i].agentIdx != c.agentIdx
        {
          IndicesMember(r0, r0[i].agentIdx);
        }
      }
    }
  }

  /** The friends of a primary-risk member that poolSecondaryRiskAgents considers:
      those not at primary risk themselves. */
  function FriendCandidates(fs: seq<ViolenceAgent>, primary: set<string>): seq<ViolenceAgent>
  {
    if fs == [] then []
    else
      var n := |fs| - 1;
      FriendCandidates(fs[..n], primary) + (if fs[n].agentIdx in primary then [] else [fs[n]])
  }

  lemma FriendCandidatesSnoc(fs: seq<ViolenceAgent>, k: nat, primary: set<string>)
    requires k < |fs|
    ensures fs[k].agentIdx in primary ==> FriendCandidates(fs[..k + 1], primary) == FriendCandidates(fs[..k], primary)
    ensures fs[k].agentIdx !in primary ==> FriendCandidates(fs[..k + 1], primary) == FriendCandidates(fs[..k], primary) + [fs[k]]
  {
    assert fs[..k + 1][..k] == fs[..k];
    var r0 := FriendCandidates(fs[..k], primary);
    if fs[k].agentIdx in primary {
      assert r0 + [] == r0;
    }
  }

  /** No agent of the list carries an index of the pool. */
  predicate NoneIn(xs: seq<ViolenceAgent>, pool: set<string>)
  {
    forall i :: 0 <= i < |xs| ==> xs[i].agentIdx !in pool
  }

  lemma NoneInAppend(a: seq<ViolenceAgent>, b: seq<ViolenceAgent>, pool: set<string>)
    requires NoneIn(a, pool) && NoneIn(b, pool)
    ensures NoneIn(a + b, pool)
  {
    forall i | 0 <= i < |a + b|
      ensures (a + b)[i].agentIdx !in pool
    {
      if i >= |a| {
        assert (a + b)[i] == b[i - |a|];
      }
    }
  }

  /** No agent at primary risk is ever a secondary candidate. */
  lemma {:induction false} FriendCandidatesNotPrimary(fs: seq<ViolenceAgent>, primary: set<string>)
    ensures NoneIn(FriendCandidates(fs, primary), primary)
  {
    if fs != [] {
      var n := |fs| - 1;
      FriendCandidatesNotPrimary(fs[..n], primary);
      NoneInAppend(FriendCandidates(fs[..n], primary), if fs[n].agentIdx in primary then [] else [fs[n]], primary);
    }
  }

  /** Every agent that will be pushed has a bucket for its sex, as the at() calls of
      poolSecondaryRiskAgents and poolTertiaryRiskAgents demand. */
  predicate HasSexBuckets(m: AgentListMap, xs: seq<ViolenceAgent>)
  {
    forall i :: 0 <= i < |xs| ==> GenderKey(xs[i], true) in m
  }

  /** The friend loop of poolSecondaryRiskAgents. */
  method PoolFriends(fs: seq<ViolenceAgent>, primary: set<string>, pool: set<string>, aff: AgentListMap)
    returns (added: seq<ViolenceAgent>, poolOut: set<string>, affOut: AgentListMap)
    ensures added == Fresh(FriendCandidates(fs, primary), pool)
    ensures poolOut == pool + Indices(FriendCandidates(fs, primary))
    ensures affOut == PushAll(aff, added, true)
  {
    added, poolOut, affOut := [], pool, aff;
    var k := 0;
    while k < |fs|
      invariant 0 <= k <= |fs|
      invariant added == Fresh(FriendCandidates(fs[..k], primary), pool)
      invariant poolOut == pool + Indices(FriendCandidates(fs[..k], primary))
      invariant affOut == PushAll(aff, added, true)
    {
      var frnd := fs[k];
      FriendCandidatesSnoc(fs, k, primary);
      var keyGender := GenderKey(frnd, true);
      if !frnd.InPool(primary) {
        FreshStep(FriendCandidates(fs[..k], primary), frnd, pool, added, poolOut);
        if !frnd.InPool(poolOut) {
          PushAllSnoc(aff, added, frnd, true);
          affOut := Pushed(affOut, keyGender, frnd);
          poolOut := poolOut + {frnd.agentIdx};
          added := added + [frnd];
        }
      }
      k := k + 1;
    }
    assert fs[..k] == fs;
  }

  /** Pooling one candidate list and then another is pooling their concatenation. */
  lemma PoolCompose(cs: seq<ViolenceAgent>, ds: seq<ViolenceAgent>, pool: set<string>, aff: AgentListMap,
                    added: seq<ViolenceAgent>, addedD: seq<ViolenceAgent>, affNow: AgentListMap, affD: AgentListMap)
    requires added == Fresh(cs, pool) && affNow == PushAll(aff, added, true)
    requires addedD == Fresh(ds, pool + Indices(cs)) && affD == PushAll(affNow, addedD, true)
    ensures added + addedD == Fresh(cs + ds, pool)
    ensures pool + Indices(cs) + Indices(ds) == pool + Indices(cs + ds)
    ensures affD == PushAll(aff, added + addedD, true)
  {
    FreshAppend(cs, ds, pool);
    IndicesAppend(cs, ds);
    PushAllAppend(aff, added, addedD, true);
  }

  /** What poolSecondaryRiskAgents reads of a household member: the agent, its school
      name and its friend list. */
  datatype Member = Member(agent: ViolenceAgent, school: string, friends: seq<ViolenceAgent>)

  /** The members of a household as they stand. */
  predicate Views(ms: seq<Member>, hh: Household)
    reads hh
  {
    |ms| == |hh|
    && forall k :: 0 <= k < |hh| ==> ms[k].agent == hh[k] && ms[k].school == hh[k].schoolName && ms[k].friends == hh[k].friendList
  }

  predicate SchoolViews(mss: seq<seq<Member>>, hhs: seq<Household>)
    reads set h, j | 0 <= h < |hhs| && 0 <= j < |hhs[h]| :: hhs[h][j]
  {
    |mss| == |hhs| && forall h :: 0 <= h < |hhs| ==> Views(mss[h], hhs[h])
  }

  function HouseholdView(hh: Household): (ms: seq<Member>)
    reads hh
    ensures Views(ms, hh)
  {
    seq(|hh|, k requires 0 <= k < |hh| reads hh => Member(hh[k], hh[k].schoolName, hh[k].friendList))
  }

  /** The school households as they stand. */
  function SchoolView(hhs: seq<Household>): (mss: seq<seq<Member>>)
    reads set h, j | 0 <= h < |hhs| && 0 <= j < |hhs[h]| :: hhs[h][j]
    ensures SchoolViews(mss, hhs)
  {
    seq(|hhs|, h requires 0 <= h < |hhs| reads if 0 <= h < |hhs| then set j | 0 <= j < |hhs[h]| :: hhs[h][j] else {} =>
      HouseholdView(hhs[h]))
  }

  /** isAffectedHousehold's condition on the members. */
  predicate MembersAffected(ms: seq<Member>, primary: set<string>)
  {
    exists i :: 0 <= i < |ms| && ms[i].agent.agentIdx in primary
  }

  /** The agents one household member brings to the secondary pool, in order: none
      below the minimum age; in an unaffected household the member itself when it is
      not at primary risk and attends the school; in an affected household the
      friends of a primary-risk member, or else the member itself. */
  function MemberCandidates(m: Member, affected: bool, primary: set<string>, minAge: int, schoolName: string): seq<ViolenceAgent>
  {
    if m.agent.age < minAge then []
    else if !affected then (if m.agent.agentIdx !in primary && m.school == schoolName then [m.agent] else [])
    else if m.agent.agentIdx in primary then FriendCandidates(m.friends, primary)
    else [m.agent]
  }

  function HouseholdCandidates(ms: seq<Member>, affected: bool, primary: set<string>, minAge: int, schoolName: string): seq<ViolenceAgent>
  {
    if ms == [] then []
    else
      var n := |ms| - 1;
      HouseholdCandidates(ms[..n], affected, primary, minAge, schoolName) + MemberCandidates(ms[n], affected, primary, minAge, schoolName)
  }

  /** The agents poolSecondaryRiskAgents considers over the school households. */
  function SchoolCandidates(mss: seq<seq<Member>>, primary: set<string>, minAge: int, schoolName: string): seq<ViolenceAgent>
  {
    if mss == [] then []
    else
      var n := |mss| - 1;
      SchoolCandidates(mss[..n], primary, minAge, schoolName)
        + HouseholdCandidates(mss[n], MembersAffected(mss[n], primary), primary, minAge, schoolName)
  }

  lemma {:induction false} HouseholdCandidatesNotPrimary(ms: seq<Member>, affected: bool, primary: set<string>, minAge: int, schoolName: string)
    ensures NoneIn(HouseholdCandidates(ms, affected, primary, minAge, schoolName), primary)
  {
    if ms != [] {
      var n := |ms| - 1;
      HouseholdCandidatesNotPrimary(ms[..n], affected, primary, minAge, schoolName);
      FriendCandidatesNotPrimary(ms[n].friends, primary);
      NoneInAppend(HouseholdCandidates(ms[..n], affected, primary, minAge, schoolName),
        MemberCandidates(ms[n], affected, primary, minAge, schoolName), primary);
    }
  }

  lemma {:induction false} SchoolCandidatesNotPrimary(mss: seq<seq<Member>>, primary: set<string>, minAge: int, schoolName: string)
    ensures NoneIn(SchoolCandidates(mss, primary, minAge, schoolName), primary)
  {
    if mss != [] {
      var n := |mss| - 1;
      var affected := MembersAffected(mss[n], primary);
      SchoolCandidatesNotPrimary(mss[..n], primary, minAge, schoolName);
      HouseholdCandidatesNotPrimary(mss[n], affected, primary, minAge, schoolName);
      NoneInAppend(SchoolCandidates(mss[..n], primary, minAge, schoolName),
        HouseholdCandidates(mss[n], affected, primary, minAge, schoolName), primary);
    }
  }

  /** The secondary pool only ever gains agents that are not at primary risk and were
      not at secondary risk before, each once, and it gains every candidate. */
  lemma SecondaryPoolSound(mss: seq<seq<Member>>, primary: set<string>, minAge: int, schoolName: string, secondary: set<string>)
    ensures var added := Fresh(SchoolCandidates(mss, primary, minAge, schoolName), secondary);
      && (forall i :: 0 <= i < |added| ==> added[i].agentIdx !in primary && added[i].agentIdx !in secondary)
      && (forall i, j :: 0 <= i < j < |added| ==> added[i].agentIdx != added[j].agentIdx)
      && secondary + Indices(added) == secondary + Indices(SchoolCandidates(mss, primary, minAge, schoolName))
  {
    var cs := SchoolCandidates(mss, primary, minAge, schoolName);
    FreshProperties(cs, secondary);
    FreshCovers(cs, secondary);
    SchoolCandidatesNotPrimary(mss, primary, minAge, schoolName);
  }

  /** The member step of poolSecondaryRiskAgents. */
  method PoolMember(a: ViolenceAgent, ghost m: Member, affected: bool, primary: set<string>, minAge: int, schoolName: string,
                    pool: set<string>, aff: AgentListMap)
    returns (added: seq<ViolenceAgent>, poolOut: set<string>, affOut: AgentListMap)
    requires m.agent == a && m.school == a.schoolName && m.friends == a.friendList
    ensures added == Fresh(MemberCandidates(m, affected, primary, minAge, schoolName), pool)
    ensures poolOut == pool + Indices(MemberCandidates(m, affected, primary, minAge, schoolName))
    ensures affOut == PushAll(aff, added, true)
  {
    added, poolOut, affOut := [], pool, aff;
    if a.age < minAge {
      return;
    }
    if !affected || !a.InPool(primary) {
      var keyGender := GenderKey(a, true);
      if !a.InPool(primary) && (affected || a.schoolName == schoolName) {
        FreshStep([], a, pool, [], pool);
        assert [] + [a] == [a];
        if !a.InPool(pool) {
          assert PushAll(aff, [a], true) == Pushed(aff, keyGender, a) by {
            PushAllSnoc(aff, [], a, true);
          }
          affOut := Pushed(aff, keyGender, a);
          poolOut := pool + {a.agentIdx};
          added := [a];
        }
      }
    } else {
      added, poolOut, affOut := PoolFriends(a.friendList, primary, pool, aff);
    }
  }

  /** The member loop of poolSecondaryRiskAgents over one household. */
  method PoolHousehold(hh: Household, ghost ms: seq<Member>, affected: bool, primary: set<string>, minAge: int, schoolName: string,
                       pool: set<string>, aff: AgentListMap)
    returns (added: seq<ViolenceAgent>, poolOut: set<string>, affOut: AgentListMap)
    requires Views(ms, hh)
    ensures added == Fresh(HouseholdCandidates(ms, affected, primary, minAge, schoolName), pool)
    ensures poolOut == pool + Indices(HouseholdCandidates(ms, affected, primary, minAge, schoolName))
    ensures affOut == PushAll(aff, added, true)
  {
    added, poolOut, affOut := [], pool, aff;
    var k := 0;
    while k < |hh|
      invariant 0 <= k <= |hh| && Views(ms, hh)
      invariant added == Fresh(HouseholdCandidates(ms[..k], affected, primary, minAge, schoolName), pool)
      invariant poolOut == pool + Indices(HouseholdCandidates(ms[..k], affected, primary, minAge, schoolName))
      invariant affOut == PushAll(aff, added, true)
    {
      ghost var cs := HouseholdCandidates(ms[..k], affected, primary, minAge, schoolName);
      ghost var ds := MemberCandidates(ms[k], affected, primary, minAge, schoolName);
      assert ms[..k + 1][..k] == ms[..k];
      assert HouseholdCandidates(ms[..k + 1], affected, primary, minAge, schoolName) == cs + ds;
      var addedM, poolM, affM := PoolMember(hh[k], ms[k], affected, primary, minAge, schoolName, poolOut, affOut);
      PoolCompose(cs, ds, pool, aff, added, addedM, affOut, affM);
      added, poolOut, affOut := added + addedM, poolM, affM;
      k := k + 1;
    }
    assert ms[..k] == ms;
  }

  /** One household step of poolSecondaryRiskAgents. */
  lemma SchoolStep(mss: seq<seq<Member>>, i: nat, primary: set<string>, minAge: int, school: string,
                   secondary: set<string>, aff: AgentListMap,
                   added: seq<ViolenceAgent>, pool: set<string>, affNow: AgentListMap,
                   addedH: seq<ViolenceAgent>, poolH: set<string>, affH: AgentListMap)
    requires i < |mss|
    requires added == Fresh(SchoolCandidates(mss[..i], primary, minAge, school), secondary)
    requires pool == secondary + Indices(SchoolCandidates(mss[..i], primary, minAge, school))
    requires affNow == PushAll(aff, added, true)
    requires addedH == Fresh(HouseholdCandidates(mss[i], MembersAffected(mss[i], primary), primary, minAge, school), pool)
    requires poolH == pool + Indices(HouseholdCandidates(mss[i], MembersAffected(mss[i], primary), primary, minAge, school))
    requires affH == PushAll(affNow, addedH, true)
    ensures added + addedH == Fresh(SchoolCandidates(mss[..i + 1], primary, minAge, school), secondary)
    ensures poolH == secondary + Indices(SchoolCandidates(mss[..i + 1], primary, minAge, school))
    ensures affH == PushAll(aff, added + addedH, true)
  {
    var cs := SchoolCandidates(mss[..i], primary, minAge, school);
    var ds := HouseholdCandidates(mss[i], MembersAffected(mss[i], primary), primary, minAge, school);
    assert mss[..i + 1][..i] == mss[..i];
    assert SchoolCandidates(mss[..i + 1], primary, minAge, school) == cs + ds;
    PoolCompose(cs, ds, secondary, aff, added, addedH, affNow, affH);
  }

  /** The household loop of poolSecondaryRiskAgents; mss holds the members of the
      households as they stand. */
  method PoolSchool(hhs: seq<Household>, ghost mss: seq<seq<Member>>, primary: set<string>, minAge: int, school: string,
                    secondary: set<string>, aff: AgentListMap)
    returns (added: seq<ViolenceAgent>, pool: set<string>, affOut: AgentListMap)
    requires SchoolViews(mss, hhs)
    ensures added == Fresh(SchoolCandidates(mss, primary, minAge, school), secondary)
    ensures pool == secondary + Indices(SchoolCandidates(mss, primary, minAge, school))
    ensures affOut == PushAll(aff, added, true)
  {
    pool := secondary;
    added, affOut := [], aff;
    var i := 0;
    while i < |hhs|
      invariant 0 <= i <= |hhs| && SchoolViews(mss, hhs)
      invariant added == Fresh(SchoolCandidates(mss[..i], primary, minAge, school), secondary)
      invariant pool == secondary + Indices(SchoolCandidates(mss[..i], primary, minAge, school))
      invariant affOut == PushAll(aff, added, true)
    {
      assert Views(mss[i], hhs[i]);
      var affected := HouseholdAffected(hhs[i], primary);
      assert affected == MembersAffected(mss[i], primary) by {
        if affected {
          var j :| 0 <= j < |hhs[i]| && hhs[i][j].agentIdx in primary;
          assert mss[i][j].agent == hhs[i][j];
        }
      }
      var addedH, poolH, affH := PoolHousehold(hhs[i], mss[i], affected, primary, minAge, school, pool, affOut);
      SchoolStep(mss, i, primary, minAge, school, secondary, aff, added, pool, affOut, addedH, poolH, affH);
      added, pool, affOut := added + addedH, poolH, affH;
      i := i + 1;
    }
    assert mss[..i] == mss;
  }

  /** The agents of a bucket at neither primary nor secondary risk, in order. */
  function Unpooled(xs: seq<ViolenceAgent>, primary: set<string>, secondary: set<string>): seq<ViolenceAgent>
  {
    if xs == [] then []
    else
      var n := |xs| - 1;
      Unpooled(xs[..n], primary, secondary)
        + (if xs[n].agentIdx !in primary && xs[n].agentIdx !in secondary then [xs[n]] else [])
  }

  /** Every bucket reduced to its agents at neither primary nor secondary risk. */
  function UnpooledMap(m: AgentListMap, primary: set<string>, secondary: set<string>): AgentListMap
  {
    map k | k in m :: Unpooled(m[k], primary, secondary)
  }

  lemma {:induction false} UnpooledMembers(xs: seq<ViolenceAgent>, primary: set<string>, secondary: set<string>)
    ensures forall a :: a in Unpooled(xs, primary, secondary) <==> a in xs && a.agentIdx !in primary && a.agentIdx !in secondary
  {
    if xs != [] {
      var n := |xs| - 1;
      UnpooledMembers(xs[..n], primary, secondary);
      assert xs == xs[..n] + [xs[n]];
    }
  }

  lemma UnpooledMapRemove(m: AgentListMap, k: string, primary: set<string>, secondary: set<string>)
    requires k in m
    ensures Flatten(UnpooledMap(m, primary, secondary))
      == multiset(Unpooled(m[k], primary, secondary)) + Flatten(UnpooledMap(m - {k}, primary, secondary))
  {
    var u := UnpooledMap(m, primary, secondary);
    FlattenRemove(u, k);
    assert u - {k} == UnpooledMap(m - {k}, primary, secondary);
  }

  /** Exactly the agents of the buckets at neither primary nor secondary risk are
      tertiary candidates. */
  lemma UnpooledMapMembers(m: AgentListMap, primary: set<string>, secondary: set<string>)
    ensures forall a :: (a in Flatten(UnpooledMap(m, primary, secondary))
                         <==> a in MapAgents(m) && a.agentIdx !in primary && a.agentIdx !in secondary)
  {
    var u := UnpooledMap(m, primary, secondary);
    FlattenMembers(u);
    forall a
      ensures a in MapAgents(u) <==> a in MapAgents(m) && a.agentIdx !in primary && a.agentIdx !in secondary
    {
      if a in MapAgents(u) {
        var k, i :| k in u && 0 <= i < |u[k]| && u[k][i] == a;
        UnpooledMembers(m[k], primary, secondary);
        assert a in m[k];
        var j :| 0 <= j < |m[k]| && m[k][j] == a;
      }
      if a in MapAgents(m) && a.agentIdx !in primary && a.agentIdx !in secondary {
        var k, i :| k in m && 0 <= i < |m[k]| && m[k][i] == a;
        UnpooledMembers(m[k], primary, secondary);
        assert a in u[k];
        var j :| 0 <= j < |u[k]| && u[k][j] == a;
      }
    }
  }

  /** One agent step of the bucket loop of poolTertiaryRiskAgents. */
  lemma BucketStep(xs: seq<ViolenceAgent>, j: nat, primary: set<string>, secondary: set<string>,
                   tertiary: set<string>, community: AgentListMap,
                   added0: seq<ViolenceAgent>, added: seq<ViolenceAgent>, pool: set<string>, communityNow: AgentListMap)
    requires j < |xs|
    requires added == added0 + Unpooled(xs[..j], primary, secondary)
    requires pool == tertiary + Indices(added) && communityNow == PushAll(community, added, true)
    ensures var a := xs[j];
      if a.agentIdx !in primary && a.agentIdx !in secondary then
        && added + [a] == added0 + Unpooled(xs[..j + 1], primary, secondary)
        && pool + {a.agentIdx} == tertiary + Indices(added + [a])
        && Pushed(communityNow, GenderKey(a, true), a) == PushAll(community, added + [a], true)
      else
        added == added0 + Unpooled(xs[..j + 1], primary, secondary)
  {
    var a := xs[j];
    assert xs[..j + 1][..j] == xs[..j];
    var u := Unpooled(xs[..j], primary, secondary);
    if a.agentIdx !in primary && a.agentIdx !in secondary {
      assert Unpooled(xs[..j + 1], primary, secondary) == u + [a];
      assert added0 + (u + [a]) == added + [a];
      PushAllSnoc(community, added, a, true);
      IndicesSnoc(added, a);
    } else {
      assert Unpooled(xs[..j + 1], primary, secondary) == u + [];
      assert u + [] == u;
    }
  }

  /** The bucket loop of poolTertiaryRiskAgents. */
  method PoolBucket(xs: seq<ViolenceAgent>, primary: set<string>, secondary: set<string>,
                    ghost tertiary: set<string>, ghost community: AgentListMap,
                    added0: seq<ViolenceAgent>, pool: set<string>, communityNow: AgentListMap)
    returns (added: seq<ViolenceAgent>, poolOut: set<string>, communityOut: AgentListMap)
    requires pool == tertiary + Indices(added0) && communityNow == PushAll(community, added0, true)
    ensures added == added0 + Unpooled(xs, primary, secondary)
    ensures poolOut == tertiary + Indices(added)
    ensures communityOut == PushAll(community, added, true)
  {
    added, poolOut, communityOut := added0, pool, communityNow;
    var j := 0;
    while j < |xs|
      invariant 0 <= j <= |xs|
      invariant added == added0 + Unpooled(xs[..j], primary, secondary)
      invariant poolOut == tertiary + Indices(added)
      invariant communityOut == PushAll(community, added, true)
    {
      var a := xs[j];
      var keyGender := GenderKey(a, true);
      BucketStep(xs, j, primary, secondary, tertiary, community, added0, added, poolOut, communityOut);
      if !a.InPool(primary) && !a.InPool(secondary) {
        communityOut := Pushed(communityOut, keyGender, a);
        poolOut := poolOut + {a.agentIdx};
        added := added + [a];
      }
      j := j + 1;
    }
    assert xs[..j] == xs;
  }

  /** The scan of isAffectedHousehold: it stops at the first member of the primary
      pool. */
  method HouseholdAffected(hh: Household, primary: set<string>) returns (affected: bool)
    ensures affected <==> Affected(hh, primary)
  {
    affected := false;
    var i := 0;
    while i < |hh|
      invariant 0 <= i <= |hh|
      invariant forall j :: 0 <= j < i ==> hh[j].agentIdx !in primary
    {
      if hh[i].InPool(primary) {
        affected := true;
        break;
      }
      i := i + 1;
    }
  }

  /** One bucket step of poolTertiaryRiskAgents: the bucket's unpooled agents move
      from what is left to what is added. */
  lemma OthersStep(whole: AgentListMap, rest: AgentListMap, k: string, primary: set<string>, secondary: set<string>,
                   added: seq<ViolenceAgent>, after: seq<ViolenceAgent>)
    requires k in rest
    requires Flatten(whole) == multiset(added) + Flatten(UnpooledMap(rest, primary, secondary))
    requires after == added + Unpooled(rest[k], primary, secondary)
    ensures Flatten(whole) == multiset(after) + Flatten(UnpooledMap(rest - {k}, primary, secondary))
  {
    UnpooledMapRemove(rest, k, primary, secondary);
    assert multiset(after) == multiset(added) + multiset(Unpooled(rest[k], primary, secondary));
  }

  /** The bucket loop of poolTertiaryRiskAgents over the other-agents map. */
  method PoolOthers(others: AgentListMap, primary: set<string>, secondary: set<string>, tertiary: set<string>, community: AgentListMap)
    returns (added: seq<ViolenceAgent>, pool: set<string>, communityOut: AgentListMap)
    ensures multiset(added) == Flatten(UnpooledMap(others, primary, secondary))
    ensures pool == tertiary + Indices(added)
    ensures communityOut == PushAll(community, added, true)
  {
    ghost var whole := UnpooledMap(others, primary, secondary);
    pool := tertiary;
    added, communityOut := [], community;
    var rest := others;
    while |rest.Keys| > 0
      invariant Flatten(whole) == multiset(added) + Flatten(UnpooledMap(rest, primary, secondary))
      invariant pool == tertiary + Indices(added)
      invariant communityOut == PushAll(community, added, true)
      decreases |rest.Keys|
    {
      ghost var w := SomeElement(rest.Keys);
      var k :| k in rest;
      ghost var before := added;
      added, pool, communityOut := PoolBucket(rest[k], primary, secondary, tertiary, community, added, pool, communityOut);
      OthersStep(whole, rest, k, primary, secondary, before, added);
      assert (rest - {k}).Keys == rest.Keys - {k};
      rest := rest - {k};
    }
    assert UnpooledMap(rest, primary, secondary) == map[];
  }

  /** How poolPrimaryRiskAgents ended: it exits when no agent is to be affected or the
      map holds too few agents; otherwise it pools the wanted number, unless the draws
      given to the model run out first. */
  datatype PoolOutcome = NoneAffected | TooFewAgents | AllPooled | DrawsRanOut

  /** How setPtsdStatus ended: it exits on a negative prevalence, and `at` throws when
      the map has no bucket for the sex; otherwise it flags the wanted number of agents,
      unless the draws given to the model run out first. */
  datatype PtsdOutcome = NegativePrevalence | MissingBucket | AllFlagged | PtsdDrawsRanOut

  /** The number of agents setPtsdStatus flags: the prevalence times the bucket size,
      rounded to the nearest integer with halves rounded up (boost::math::round on a
      value that is not negative). */
  function PrevCount(preval: real, size: nat): (r: int)
    requires preval >= 0.0
    ensures r >= 0
    ensures (r as real) - 0.5 <= preval * (size as real) < (r as real) + 0.5
  {
    (preval * (size as real) + 0.5).Floor
  }

  /** A prevalence of at most 1 never asks for more agents than the bucket holds. */
  lemma PrevCountAtMostSize(preval: real, size: nat)
    requires 0.0 <= preval <= 1.0
    ensures PrevCount(preval, size) <= size
  {
    var r := PrevCount(preval, size);
    assert preval * (size as real) <= size as real;
  }

  /** The bucket of a sex in an agent map ([] when it is missing). */
  function SexBucket(m: AgentListMap, sex: int): seq<ViolenceAgent>
  {
    if IntToString(sex) in m then m[IntToString(sex)] else []
  }

  /** The agents of a bucket whose flag of the type is set. */
  function FlaggedIn(bucket: seq<ViolenceAgent>, ptsdType: int): set<ViolenceAgent>
    reads set a | a in bucket
  {
    set a | a in bucket && a.GetPtsdStatus(ptsdType)
  }

  /** The agents setPtsdStatus flags from draw j on: each draw picks the agent at that
      position of the bucket; an agent already flagged (in flagged) is skipped, and
      the loop stops once count agents are flagged. For a type without a flag no
      agent ever counts as flagged, so every draw counts. */
  function PtsdPicks(bucket: seq<ViolenceAgent>, draws: seq<nat>, j: nat, flagged: set<ViolenceAgent>, count: int, valid: bool): seq<ViolenceAgent>
    requires forall i :: 0 <= i < |draws| ==> draws[i] < |bucket|
    decreases |draws| - j
  {
    if count <= 0 || j >= |draws| then []
    else
      var a := bucket[draws[j]];
      if a in flagged then PtsdPicks(bucket, draws, j + 1, flagged, count, valid)
      else [a] + PtsdPicks(bucket, draws, j + 1, if valid then flagged + {a} else flagged, count - 1, valid)
  }

  /** One round of the loop of setPtsdStatus, after the agents flagged so far. */
  lemma PtsdPicksStep(bucket: seq<ViolenceAgent>, draws: seq<nat>, j: nat, flagged: set<ViolenceAgent>, count: int, valid: bool,
                      before: seq<ViolenceAgent>)
    requires forall i :: 0 <= i < |draws| ==> draws[i] < |bucket|
    requires 0 < count && j < |draws|
    ensures var a := bucket[draws[j]];
      if a in flagged then
        before + PtsdPicks(bucket, draws, j, flagged, count, valid) == before + PtsdPicks(bucket, draws, j + 1, flagged, count, valid)
      else
        before + PtsdPicks(bucket, draws, j, flagged, count, valid)
          == (before + [a]) + PtsdPicks(bucket, draws, j + 1, if valid then flagged + {a} else flagged, count - 1, valid)
  {
  }

  /** For a type with a flag, the flagged agents come from the bucket, were not flagged
      before and are flagged once each; never more than count are flagged. */
  lemma {:induction false} PtsdPicksProperties(bucket: seq<ViolenceAgent>, draws: seq<nat>, j: nat, flagged: set<ViolenceAgent>, count: int)
    requires forall i :: 0 <= i < |draws| ==> draws[i] < |bucket|
    ensures var r := PtsdPicks(bucket, draws, j, flagged, count, true);
      && (forall i :: 0 <= i < |r| ==> r[i] in bucket && r[i] !in flagged)
      && (forall i, k :: 0 <= i < k < |r| ==> r[i] != r[k])
      && (|r| == 0 || |r| <= count)
    decreases |draws| - j
  {
    if count > 0 && j < |draws| {
      var a := bucket[draws[j]];
      if a in flagged {
        PtsdPicksProperties(bucket, draws, j + 1, flagged, count);
      } else {
        PtsdPicksProperties(bucket, draws, j + 1, flagged + {a}, count - 1);
      }
    }
  }

  /** The loop of setPtsdStatus: while agents are still to be flagged and draws are
      left, the drawn agent of the bucket gets the flag unless it has it already. It
      returns the agents it flagged and how many are still to be flagged. */
  method FlagDrawn(bucket: seq<ViolenceAgent>, count: int, ptsdType: int, draws: seq<nat>)
    returns (flagged: seq<ViolenceAgent>, left: int)
    requires count >= 0
    requires forall i :: 0 <= i < |draws| ==> draws[i] < |bucket|
    modifies (set a | a in bucket)`priPtsd, (set a | a in bucket)`secPtsd, (set a | a in bucket)`terPtsd
    ensures flagged == PtsdPicks(bucket, draws, 0, old(FlaggedIn(bucket, ptsdType)), count, IsPtsdType(ptsdType))
    ensures 0 <= left == count - |flagged|
    ensures forall i :: 0 <= i < |bucket| ==>
      && bucket[i].priPtsd == (old(bucket[i].priPtsd) || (ptsdType == Primary && bucket[i] in flagged))
      && bucket[i].secPtsd == (old(bucket[i].secPtsd) || (ptsdType == Secondary && bucket[i] in flagged))
      && bucket[i].terPtsd == (old(bucket[i].terPtsd) || (ptsdType == Tertiary && bucket[i] in flagged))
  {
    flagged := [];
    left := count;
    ghost var valid := IsPtsdType(ptsdType);
    ghost var s0 := FlaggedIn(bucket, ptsdType);
    ghost var s := s0;
    var j := 0;
    while left > 0 && j < |draws|
      invariant 0 <= j <= |draws|
      invariant PtsdPicks(bucket, draws, 0, s0, count, valid) == flagged + PtsdPicks(bucket, draws, j, s, left, valid)
      invariant 0 <= left == count - |flagged|
      invariant forall i :: 0 <= i < |bucket| ==> (bucket[i].GetPtsdStatus(ptsdType) <==> bucket[i] in s)
      invariant forall i :: 0 <= i < |bucket| ==>
        && bucket[i].priPtsd == (old(bucket[i].priPtsd) || (ptsdType == Primary && bucket[i] in flagged))
        && bucket[i].secPtsd == (old(bucket[i].secPtsd) || (ptsdType == Secondary && bucket[i] in flagged))
        && bucket[i].terPtsd == (old(bucket[i].terPtsd) || (ptsdType == Tertiary && bucket[i] in flagged))
    {
      var affAgent := bucket[draws[j]];
      PtsdPicksStep(bucket, draws, j, s, left, valid, flagged);
      if !affAgent.GetPtsdStatus(ptsdType) {
        affAgent.SetPtsdStatus(true, ptsdType);
        flagged := flagged + [affAgent];
        s := if valid then s + {affAgent} else s;
        left := left - 1;
      }
      j := j + 1;
    }
  }

  class ViolenceModel {
    var pumaHouseholds: map<int, seq<Household>>
    var schoolHouseholds: seq<Household>
    var studentsMap: AgentListMap
    var teachersMap: AgentListMap
    var othersMap: AgentListMap
    var primaryRiskPool: set<string>
    var secondaryRiskPool: set<string>
    var tertiaryRiskPool: set<string>
    var schoolName: string
    // The model parameters this part reads: the minimum age of the network and the
    // numbers of directly affected students and teachers.
    const minAge: int
    const affectedStudents: int
    const affectedTeachers: int

    /** The school of the model is fixed by the constructor; the three parameters
        stand for the values read from the parameter file. */
    constructor (minAge: int, affectedStudents: int, affectedTeachers: int)
      ensures this.minAge == minAge && this.affectedStudents == affectedStudents
      ensures this.affectedTeachers == affectedTeachers && schoolName == "Stoneman HS"
      ensures pumaHouseholds == map[] && schoolHouseholds == []
      ensures studentsMap == map[] && teachersMap == map[] && othersMap == map[]
      ensures primaryRiskPool == {} && secondaryRiskPool == {} && tertiaryRiskPool == {}
    {
      this.minAge, this.affectedStudents, this.affectedTeachers := minAge, affectedStudents, affectedTeachers;
      schoolName := "Stoneman HS";
      pumaHouseholds, schoolHouseholds := map[], [];
      studentsMap, teachersMap, othersMap := map[], map[], map[];
      primaryRiskPool, secondaryRiskPool, tertiaryRiskPool := {}, {}, {};
    }

    /** isAffectedHousehold: a scan of the household that stops at the first member of
        the primary pool. */
    method IsAffectedHousehold(hh: Household) returns (affected: bool)
      ensures affected <==> Affected(hh, primaryRiskPool)
    {
      affected := HouseholdAffected(hh, primaryRiskPool);
    }

    /** getNumStudents: the number of students, and countPersons raised by the number
        of members of at least the minimum age. */
    method GetNumStudents(agents: seq<ViolenceAgent>, countPersons: int) returns (numStudents: int, countPersonsOut: int)
      ensures numStudents == NumStudents(agents)
      ensures countPersonsOut == countPersons + NumAtLeast(agents, minAge)
    {
      numStudents, countPersonsOut := 0, countPersons;
      var i := 0;
      while i < |agents|
        invariant 0 <= i <= |agents|
        invariant numStudents == NumStudents(agents[..i])
        invariant countPersonsOut == countPersons + NumAtLeast(agents[..i], minAge)
      {
        CountsSnoc(agents, i, minAge);
        if agents[i].IsStudent() {
          numStudents := numStudents + 1;
        }
        if agents[i].age >= minAge {
          countPersonsOut := countPersonsOut + 1;
        }
        i := i + 1;
      }
      assert agents[..i] == agents;
    }

    /** The affected count of poolPrimaryRiskAgents: the students' or the teachers'
        parameter, 0 for any other agent type. */
    function AffectedCount(agentType: int): int
    {
      if agentType == Student then affectedStudents
      else if agentType == Teacher then affectedTeachers
      else 0
    }

    /** poolPrimaryRiskAgents: after the two exits, draws agents from the map until the
        affected count is reached, skipping agents already at primary risk; each new
        one goes to its gender bucket of affAgents ("0" unless teachers are pooled)
        and into the primary pool. */
    method PoolPrimaryRiskAgents(agentsMap: AgentListMap, affAgents: AgentListMap, agentType: int, draws: seq<Draw>)
      returns (outcome: PoolOutcome, affOut: AgentListMap, chosen: seq<ViolenceAgent>)
      requires DrawsInRange(agentsMap, draws)
      modifies this`primaryRiskPool
      ensures outcome == NoneAffected <==> AffectedCount(agentType) <= 0
      ensures outcome == TooFewAgents <==> 0 < AffectedCount(agentType) && |Flatten(agentsMap)| < AffectedCount(agentType)
      ensures outcome == NoneAffected || outcome == TooFewAgents ==> chosen == []
      ensures outcome == AllPooled || outcome == DrawsRanOut ==>
        chosen == Picks(agentsMap, draws, 0, old(primaryRiskPool), AffectedCount(agentType))
      ensures outcome == AllPooled ==> |chosen| == AffectedCount(agentType)
      ensures outcome == DrawsRanOut ==> |chosen| < AffectedCount(agentType)
      ensures primaryRiskPool == old(primaryRiskPool) + Indices(chosen)
      ensures affOut == PushAll(affAgents, chosen, agentType == Teacher)
    {
      var affectedCount := 0;
      if agentType == Student {
        affectedCount := affectedStudents;
      } else if agentType == Teacher {
        affectedCount := affectedTeachers;
      }
      chosen, affOut := [], affAgents;
      if affectedCount <= 0 {
        outcome := NoneAffected;
        return;
      }
      var totalSize := SumSizes(agentsMap);
      if totalSize < affectedCount {
        outcome := TooFewAgents;
        return;
      }
      var pool, count;
      chosen, pool, affOut, count := DrawPrimary(agentsMap, affAgents, agentType == Teacher, draws, primaryRiskPool, affectedCount);
      outcome := if count == 0 then AllPooled else DrawsRanOut;
      primaryRiskPool := pool;
    }

    /** poolSecondaryRiskAgents: over the school households, the members of affected
        households and the friends of their primary-risk members, and the pupils of
        unaffected households, each pooled once and pushed to the bucket of its sex
        (the household members below the minimum age are skipped). The at() calls
        demand a bucket for the sex of every agent pushed. */
    method PoolSecondaryRiskAgents(aff: AgentListMap) returns (affOut: AgentListMap, added: seq<ViolenceAgent>)
      requires HasSexBuckets(aff, Fresh(SchoolCandidates(SchoolView(schoolHouseholds), primaryRiskPool, minAge, schoolName), secondaryRiskPool))
      modifies this`secondaryRiskPool
      ensures added == Fresh(SchoolCandidates(old(SchoolView(schoolHouseholds)), primaryRiskPool, minAge, schoolName), old(secondaryRiskPool))
      ensures secondaryRiskPool == old(secondaryRiskPool) + Indices(SchoolCandidates(old(SchoolView(schoolHouseholds)), primaryRiskPool, minAge, schoolName))
      ensures affOut == PushAll(aff, added, true) && affOut.Keys == aff.Keys
    {
      ghost var mss := SchoolView(schoolHouseholds);
      var pool;
      added, pool, affOut := PoolSchool(schoolHouseholds, mss, primaryRiskPool, minAge, schoolName, secondaryRiskPool, aff);
      PushAllKeys(aff, added);
      secondaryRiskPool := pool;
    }

    /** poolTertiaryRiskAgents: every agent of the other-agents buckets at neither
        primary nor secondary risk goes to the tertiary pool and to the community
        bucket of its sex. The buckets are taken in some order; the at() call demands a
        community bucket for the sex of every such agent. */
    method PoolTertiaryRiskAgents(community: AgentListMap) returns (communityOut: AgentListMap, added: seq<ViolenceAgent>)
      requires forall a :: (a in MapAgents(othersMap) && a.agentIdx !in primaryRiskPool && a.agentIdx !in secondaryRiskPool
                            ==> GenderKey(a, true) in community)
      modifies this`tertiaryRiskPool
      ensures multiset(added) == Flatten(UnpooledMap(othersMap, primaryRiskPool, secondaryRiskPool))
      ensures tertiaryRiskPool == old(tertiaryRiskPool) + Indices(added)
      ensures communityOut == PushAll(community, added, true) && communityOut.Keys == community.Keys
    {
      var pool;
      added, pool, communityOut := PoolOthers(othersMap, primaryRiskPool, secondaryRiskPool, tertiaryRiskPool, community);
      UnpooledMapMembers(othersMap, primaryRiskPool, secondaryRiskPool);
      forall i | 0 <= i < |added|
        ensures GenderKey(added[i], true) in community
      {
        assert added[i] in multiset(added);
      }
      PushAllKeys(community, added);
      tertiaryRiskPool := pool;
    }

    /** setPtsdStatus: exits on a negative prevalence; otherwise flags PrevCount agents of
        the sex's bucket with the type, drawing a position of the bucket each round and
        skipping agents whose flag is set already. A map without the sex's bucket ends
        the run in `at` before anything is flagged (a sex none of the drawn teachers has,
        say); random_int keeps every draw inside the bucket. */
    method SetPtsdStatus(affected: AgentListMap, sex: int, preval: real, ptsdType: int, draws: seq<nat>)
      returns (outcome: PtsdOutcome, flagged: seq<ViolenceAgent>)
      requires forall i :: 0 <= i < |draws| ==> draws[i] < |SexBucket(affected, sex)|
      modifies (set a | a in SexBucket(affected, sex))`priPtsd, (set a | a in SexBucket(affected, sex))`secPtsd
      modifies (set a | a in SexBucket(affected, sex))`terPtsd
      ensures outcome == NegativePrevalence <==> preval < 0.0
      ensures outcome == MissingBucket <==> preval >= 0.0 && IntToString(sex) !in affected
      ensures outcome in {NegativePrevalence, MissingBucket} ==> flagged == []
      ensures preval >= 0.0 && IntToString(sex) in affected ==> flagged == PtsdPicks(SexBucket(affected, sex), draws, 0,
        old(FlaggedIn(SexBucket(affected, sex), ptsdType)), PrevCount(preval, |SexBucket(affected, sex)|), IsPtsdType(ptsdType))
      ensures outcome == AllFlagged ==> |flagged| == PrevCount(preval, |SexBucket(affected, sex)|)
      ensures outcome == PtsdDrawsRanOut ==> |flagged| < PrevCount(preval, |SexBucket(affected, sex)|)
      ensures var bucket := SexBucket(affected, sex);
        forall i :: 0 <= i < |bucket| ==>
          && bucket[i].priPtsd == (old(bucket[i].priPtsd) || (ptsdType == Primary && bucket[i] in flagged))
          && bucket[i].secPtsd == (old(bucket[i].secPtsd) || (ptsdType == Secondary && bucket[i] in flagged))
          && bucket[i].terPtsd == (old(bucket[i].terPtsd) || (ptsdType == Tertiary && bucket[i] in flagged))
    {
      flagged := [];
      if preval < 0.0 {
        outcome := NegativePrevalence;
        return;
      }
      if IntToString(sex) !in affected {
        outcome := MissingBucket;
        return;
      }
      var bucket := affected[IntToString(sex)];
      var prevCount := PrevCount(preval, |bucket|);
      flagged, prevCount := FlagDrawn(bucket, prevCount, ptsdType, draws);
      outcome := if prevCount <= 0 then AllFlagged else PtsdDrawsRanOut;
    }

    /** clearList: every PUMA's household list is emptied (the PUMA keys stay), and the
        school households, the three agent maps and the three pools are cleared. */
    method ClearList()
      modifies this`pumaHouseholds, this`schoolHouseholds, this`studentsMap, this`teachersMap, this`othersMap
      modifies this`primaryRiskPool, this`secondaryRiskPool, this`tertiaryRiskPool
      ensures pumaHouseholds.Keys == old(pumaHouseholds.Keys)
      ensures forall k :: k in pumaHouseholds ==> pumaHouseholds[k] == []
      ensures schoolHouseholds == [] && studentsMap == map[] && teachersMap == map[] && othersMap == map[]
      ensures primaryRiskPool == {} && secondaryRiskPool == {} && tertiaryRiskPool == {}
    {
      var rest := pumaHouseholds.Keys;
      while |rest| > 0
        invariant rest <= pumaHouseholds.Keys
        invariant pumaHouseholds.Keys == old(pumaHouseholds.Keys)
        invariant forall k :: k in pumaHouseholds && k !in rest ==> pumaHouseholds[k] == []
        decreases rest
      {
        ghost var w := SomeElement(rest);
        var k :| k in rest;
        pumaHouseholds := pumaHouseholds[k := []];
        rest := rest - {k};
      }
      schoolHouseholds := [];
      studentsMap, teachersMap, othersMap := map[], map[], map[];
      primaryRiskPool, secondaryRiskPool, tertiaryRiskPool := {}, {}, {};
    }
  }
}
