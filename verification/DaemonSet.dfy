/** The environment of the agent DaemonSet, and the sticky INSTANA_PERSIST_HOST_UNIQUE_ID over runs. */
module DaemonSet {
  import opened Text
  import opened Wrappers

  datatype EnvSource =
    | Value(text: string)
    | FieldRef(path: string)
    | SecretKeyRef(secret: string, key: string)
    | ConfigMapKeyRef(configMap: string, key: string)

  datatype EnvVar = EnvVar(name: string, source: EnvSource)

  const PERSIST := "INSTANA_PERSIST_HOST_UNIQUE_ID"
  const ID_FILE := "INSTANA_AGENT_ID_FILE_PATH"
  const AGENT_CONTAINER := "instana-agent"

  // ---- Sorting by name ---------------------------------------------------------------------

  ghost predicate SortedByName(s: seq<EnvVar>) {
    forall i, j :: 0 <= i < j < |s| ==> !Less(s[j].name, s[i].name)
  }

  ghost predicate StrictlySorted(s: seq<EnvVar>) {
    forall i, j :: 0 <= i < j < |s| ==> Less(s[i].name, s[j].name)
  }

  lemma NotLessTransitive(a: string, b: string, c: string)
    requires !Less(b, a) && !Less(c, b)
    ensures !Less(c, a)
  {
  }

  /** Stands for the unstable `sort.Slice`: callers learn nothing about entries of the same name. */
  method SortEnvVarsByName(s: seq<EnvVar>) returns (r: seq<EnvVar>)
    ensures SortedByName(r)
    ensures multiset(r) == multiset(s)
  {
    r := [];
    for n := 0 to |s|
      invariant SortedByName(r)
      invariant multiset(r) == multiset(s[..n])
    {
      var at := |r|;
      while at > 0 && !Less(r[at - 1].name, s[n].name)
        invariant 0 <= at <= |r|
        invariant forall k :: at <= k < |r| ==> !Less(r[k].name, s[n].name)
      {
        at := at - 1;
      }
      InsertByName(r, at, s[n]);
      assert s[..n + 1] == s[..n] + [s[n]];
      assert r == r[..at] + r[at..];
      r := r[..at] + [s[n]] + r[at..];
    }
    assert s[..|s|] == s;
  }

  lemma InsertByName(r: seq<EnvVar>, at: nat, x: EnvVar)
    requires SortedByName(r) && at <= |r|
    requires forall k :: at <= k < |r| ==> !Less(r[k].name, x.name)
    requires at > 0 ==> Less(r[at - 1].name, x.name)
    ensures SortedByName(r[..at] + [x] + r[at..])
  {
    var t := r[..at] + [x] + r[at..];
    if at > 0 { LessTrichotomy(r[at - 1].name, x.name); }
    forall i, j | 0 <= i < j < |t| ensures !Less(t[j].name, t[i].name) {
      if j == at {
        if i < at - 1 { NotLessTransitive(r[i].name, r[at - 1].name, x.name); }
      } else if i < at < j {
        assert !Less(r[j - 1].name, r[i].name);
      }
    }
  }

  // ---- Merging -----------------------------------------------------------------------------

  /** The last entry of that name. */
  function Last(s: seq<EnvVar>, name: string): (r: Option<EnvVar>)
    ensures r.Some? ==> r.value.name == name && r.value in s
    ensures r.None? ==> forall e :: e in s ==> e.name != name
  {
    if s == [] then None
    else
      var n := |s| - 1;
      assert s == s[..n] + [s[n]];
      if s[n].name == name then Some(s[n]) else Last(s[..n], name)
  }

  function Present(s: seq<Option<EnvVar>>): seq<EnvVar> {
    if s == [] then []
    else
      var n := |s| - 1;
      Present(s[..n]) + if s[n].Some? then [s[n].value] else []
  }

  function Prefer(a: Option<EnvVar>, b: Option<EnvVar>): Option<EnvVar> {
    if a.Some? then a else b
  }

  function FromMap(m: map<string, EnvVar>, name: string): Option<EnvVar> {
    if name in m then Some(m[name]) else None
  }

  function UserEnv(env: map<string, string>, name: string): Option<EnvVar> {
    if name in env then Some(EnvVar(name, Value(env[name]))) else None
  }

  function PersistEnv(persist: bool, name: string): Option<EnvVar> {
    if persist && name == PERSIST then Some(EnvVar(PERSIST, Value("true")))
    else if persist && name == ID_FILE then Some(EnvVar(ID_FILE, Value("/var/lib/instana/instana-agent-id")))
    else None
  }

  lemma LastOfSum(a: seq<EnvVar>, b: seq<EnvVar>, name: string)
    ensures Last(a + b, name) == Prefer(Last(b, name), Last(a, name))
    decreases |b|
  {
    if b == [] {
      assert a + b == a;
    } else {
      var n := |b| - 1;
      assert (a + b)[..|a + b| - 1] == a + b[..n];
      if b[n].name != name { LastOfSum(a, b[..n], name); }
    }
  }

  /** `EnvBuilder.Build`: the entries of agent.env in any order, then the variables that are produced. */
  method BuildEnv(agentEnv: map<string, string>, produced: seq<Option<EnvVar>>) returns (r: seq<EnvVar>)
    ensures forall name :: Last(r, name) == Prefer(Last(Present(produced), name), UserEnv(agentEnv, name))
    ensures forall e :: e in r <==> e in Present(produced) || UserEnv(agentEnv, e.name) == Some(e)
  {
    var user := [];
    var pending := agentEnv.Keys;
    while pending != {}
      invariant pending <= agentEnv.Keys
      invariant forall name :: Last(user, name) == if name in pending then None else UserEnv(agentEnv, name)
      invariant forall e :: e in user <==> e.name !in pending && UserEnv(agentEnv, e.name) == Some(e)
    {
      var name :| name in pending;
      forall other { LastOfSum(user, [EnvVar(name, Value(agentEnv[name]))], other); }
      user := user + [EnvVar(name, Value(agentEnv[name]))];
      pending := pending - {name};
    }
    r := user;
    for n := 0 to |produced|
      invariant r == user + Present(produced[..n])
    {
      assert produced[..n + 1][..n] == produced[..n];
      if produced[n].Some? { r := r + [produced[n].value]; }
    }
    assert produced[..|produced|] == produced;
    forall name { LastOfSum(user, Present(produced), name); }
  }

  /** Writes every entry under its name, the later ones over the earlier ones. */
  method Overlay(m: map<string, EnvVar>, s: seq<EnvVar>) returns (r: map<string, EnvVar>)
    ensures forall name :: FromMap(r, name) == Prefer(Last(s, name), FromMap(m, name))
  {
    r := m;
    for n := 0 to |s|
      invariant forall name :: FromMap(r, name) == Prefer(Last(s[..n], name), FromMap(m, name))
    {
      assert s[..n + 1][..n] == s[..n];
      r := r[s[n].name := s[n]];
    }
    assert s[..|s|] == s;
  }

  /** The value a name ends up with: pod.env (its last entry) over the persist-ID pair over what the
      builder produces over agent.env. */
  function Chosen(agentEnv: map<string, string>, produced: seq<Option<EnvVar>>, persist: bool, podEnv: seq<EnvVar>,
                  name: string): Option<EnvVar>
  {
    Prefer(Last(podEnv, name),
      Prefer(PersistEnv(persist, name),
        Prefer(Last(Present(produced), name), UserEnv(agentEnv, name))))
  }

  /** `env` is sorted, holds one entry a name, and each is the chosen one. */
  ghost predicate Canonical(env: seq<EnvVar>, agentEnv: map<string, string>, produced: seq<Option<EnvVar>>,
                            persist: bool, podEnv: seq<EnvVar>)
  {
    StrictlySorted(env) &&
    forall e :: e in env <==> Chosen(agentEnv, produced, persist, podEnv, e.name) == Some(e)
  }

  ghost predicate NamedIn(env: seq<EnvVar>, name: string) {
    exists i :: 0 <= i < |env| && env[i].name == name
  }

  ghost predicate ProducedIn(produced: seq<Option<EnvVar>>, name: string) {
    exists i :: 0 <= i < |produced| && produced[i].Some? && produced[i].value.name == name
  }

  /** The persist-ID pair takes the name. */
  predicate Persisted(persist: bool, name: string) {
    persist && (name == PERSIST || name == ID_FILE)
  }

  /** Whose entry a name gets, from the lists themselves: the last one of pod.env; without one there, the pair if it
      is wanted; without that, the last one produced; and the one of agent.env only if there is no other. */
  ghost predicate Precedence(env: seq<EnvVar>, agentEnv: map<string, string>, produced: seq<Option<EnvVar>>,
                             persist: bool, podEnv: seq<EnvVar>)
  {
    && PodFirst(env, podEnv) && PairSecond(env, persist, podEnv) && ProducedThird(env, produced, persist, podEnv)
    && AgentLast(env, agentEnv, produced, persist, podEnv)
  }

  ghost predicate PodFirst(env: seq<EnvVar>, podEnv: seq<EnvVar>) {
    forall i :: 0 <= i < |podEnv| && (forall j :: i < j < |podEnv| ==> podEnv[j].name != podEnv[i].name) ==>
      podEnv[i] in env
  }

  ghost predicate PairSecond(env: seq<EnvVar>, persist: bool, podEnv: seq<EnvVar>) {
    && (persist && !NamedIn(podEnv, PERSIST) ==> EnvVar(PERSIST, Value("true")) in env)
    && (persist && !NamedIn(podEnv, ID_FILE) ==>
          EnvVar(ID_FILE, Value("/var/lib/instana/instana-agent-id")) in env)
  }

  ghost predicate ProducedThird(env: seq<EnvVar>, produced: seq<Option<EnvVar>>, persist: bool, podEnv: seq<EnvVar>) {
    forall i :: 0 <= i < |produced| && LastProduced(produced, i) &&
                !NamedIn(podEnv, produced[i].value.name) && !Persisted(persist, produced[i].value.name) ==>
      produced[i].value in env
  }

  ghost predicate AgentLast(env: seq<EnvVar>, agentEnv: map<string, string>, produced: seq<Option<EnvVar>>,
                            persist: bool, podEnv: seq<EnvVar>)
  {
    forall name :: name in agentEnv && !NamedIn(podEnv, name) && !Persisted(persist, name) &&
                   !ProducedIn(produced, name) ==>
      EnvVar(name, Value(agentEnv[name])) in env
  }

  /** No later entry that is produced has the name of entry `i`. */
  ghost predicate LastProduced(produced: seq<Option<EnvVar>>, i: nat) {
    i < |produced| && produced[i].Some? &&
    forall j :: i < j < |produced| && produced[j].Some? ==> produced[j].value.name != produced[i].value.name
  }

  lemma {:induction false} LastAt(s: seq<EnvVar>, i: nat)
    requires i < |s| && forall j :: i < j < |s| ==> s[j].name != s[i].name
    ensures Last(s, s[i].name) == Some(s[i])
  {
    if i < |s| - 1 { LastAt(s[..|s| - 1], i); }
  }

  lemma {:induction false} PresentMembers(s: seq<Option<EnvVar>>)
    ensures forall e :: e in Present(s) <==> Some(e) in s
  {
    if s != [] {
      PresentMembers(s[..|s| - 1]);
      assert s == s[..|s| - 1] + [s[|s| - 1]];
    }
  }

  lemma {:induction false} PresentLast(s: seq<Option<EnvVar>>, i: nat)
    requires LastProduced(s, i)
    ensures Last(Present(s), s[i].value.name) == Some(s[i].value)
  {
    var n := |s| - 1;
    if s[n].Some? {
      LastOfSum(Present(s[..n]), [s[n].value], s[i].value.name);
      LastOne(s[n].value, s[i].value.name);
    } else {
      assert Present(s) == Present(s[..n]);
    }
    if i < n { PresentLast(s[..n], i); }
  }

  lemma LastOne(e: EnvVar, name: string)
    ensures Last([e], name) == if e.name == name then Some(e) else None
  {
    assert [e][..0] == [];
  }

  lemma NotNamed(podEnv: seq<EnvVar>, name: string)
    requires !NamedIn(podEnv, name)
    ensures Last(podEnv, name) == None
  {
  }

  lemma NotProduced(produced: seq<Option<EnvVar>>, name: string)
    requires !ProducedIn(produced, name)
    ensures Last(Present(produced), name) == None
  {
    PresentMembers(produced);
  }

  lemma CanonicalPrecedence(env: seq<EnvVar>, agentEnv: map<string, string>, produced: seq<Option<EnvVar>>,
                            persist: bool, podEnv: seq<EnvVar>)
    requires Canonical(env, agentEnv, produced, persist, podEnv)
    ensures Precedence(env, agentEnv, produced, persist, podEnv)
  {
    hide Last, Present, StrictlySorted, NamedIn, ProducedIn, LastProduced;
    assert PodFirst(env, podEnv) by {
      forall i | 0 <= i < |podEnv| && (forall j :: i < j < |podEnv| ==> podEnv[j].name != podEnv[i].name)
        ensures podEnv[i] in env
      {
        LastAt(podEnv, i);
      }
    }
    assert PairSecond(env, persist, podEnv) by {
      if !NamedIn(podEnv, PERSIST) { NotNamed(podEnv, PERSIST); }
      if !NamedIn(podEnv, ID_FILE) { NotNamed(podEnv, ID_FILE); }
    }
    ProducedPrecedence(env, agentEnv, produced, persist, podEnv);
    AgentPrecedence(env, agentEnv, produced, persist, podEnv);
  }

  lemma ProducedPrecedence(env: seq<EnvVar>, agentEnv: map<string, string>, produced: seq<Option<EnvVar>>,
                           persist: bool, podEnv: seq<EnvVar>)
    requires Canonical(env, agentEnv, produced, persist, podEnv)
    ensures ProducedThird(env, produced, persist, podEnv)
  {
    forall i | 0 <= i < |produced| && LastProduced(produced, i) &&
               !NamedIn(podEnv, produced[i].value.name) && !Persisted(persist, produced[i].value.name)
      ensures produced[i].value in env
    {
      hide Last, Present, StrictlySorted;
      PresentLast(produced, i);
      NotNamed(podEnv, produced[i].value.name);
    }
  }

  lemma AgentPrecedence(env: seq<EnvVar>, agentEnv: map<string, string>, produced: seq<Option<EnvVar>>,
                        persist: bool, podEnv: seq<EnvVar>)
    requires Canonical(env, agentEnv, produced, persist, podEnv)
    ensures AgentLast(env, agentEnv, produced, persist, podEnv)
  {
    forall name | name in agentEnv && !NamedIn(podEnv, name) && !Persisted(persist, name) &&
                  !ProducedIn(produced, name)
      ensures EnvVar(name, Value(agentEnv[name])) in env
    {
      hide Last, Present, StrictlySorted;
      NotNamed(podEnv, name);
      NotProduced(produced, name);
    }
  }

  /** The map that `getEnvVars` fills, name by name. */
  method MergeEnv(agentEnv: map<string, string>, produced: seq<Option<EnvVar>>, persist: bool, podEnv: seq<EnvVar>)
    returns (m: map<string, EnvVar>)
    ensures forall name :: FromMap(m, name) == Chosen(agentEnv, produced, persist, podEnv, name)
  {
    var base := BuildEnv(agentEnv, produced);
    m := Overlay(map[], base);
    if persist {
      m := m[PERSIST := EnvVar(PERSIST, Value("true"))];
      m := m[ID_FILE := EnvVar(ID_FILE, Value("/var/lib/instana/instana-agent-id"))];
    }
    m := Overlay(m, podEnv);
  }

  method GetEnvVars(agentEnv: map<string, string>, produced: seq<Option<EnvVar>>, persist: bool, podEnv: seq<EnvVar>)
    returns (result: seq<EnvVar>)
    ensures Canonical(result, agentEnv, produced, persist, podEnv)
    ensures Precedence(result, agentEnv, produced, persist, podEnv)
  {
    var m := MergeEnv(agentEnv, produced, persist, podEnv);
    assert forall name :: name in m ==> FromMap(m, name) == Some(m[name]);
    assert forall name :: name in m ==> m[name].name == name by {
      forall name { ChosenNamed(agentEnv, produced, persist, podEnv, name); }
    }
    hide Chosen, Precedence;
    var list := MapValues(m);
    result := SortEnvVarsByName(list);
    DistinctSorted(list, result);
    forall e ensures e in result <==> FromMap(m, e.name) == Some(e) {
      assert e in result <==> e in multiset(list);
    }
    CanonicalPrecedence(result, agentEnv, produced, persist, podEnv);
  }

  lemma ChosenNamed(agentEnv: map<string, string>, produced: seq<Option<EnvVar>>, persist: bool, podEnv: seq<EnvVar>,
                    name: string)
    ensures var c := Chosen(agentEnv, produced, persist, podEnv, name); c.Some? ==> c.value.name == name
  {
  }

  ghost predicate DistinctNames(s: seq<EnvVar>) {
    forall i, j :: 0 <= i < j < |s| ==> s[i].name != s[j].name
  }

  /** The map's values in any order. */
  method MapValues(m: map<string, EnvVar>) returns (list: seq<EnvVar>)
    requires forall name :: name in m ==> m[name].name == name
    ensures DistinctNames(list)
    ensures forall e :: e in list <==> FromMap(m, e.name) == Some(e)
  {
    list := [];
    var pending := m.Keys;
    while pending != {}
      invariant pending <= m.Keys
      invariant DistinctNames(list)
      invariant forall e :: e in list <==> e.name !in pending && FromMap(m, e.name) == Some(e)
    {
      var name :| name in pending;
      assert forall e :: e in list ==> e.name != name;
      list := list + [m[name]];
      pending := pending - {name};
    }
  }

  lemma {:induction false} DistinctCounts(s: seq<EnvVar>, a: EnvVar, b: EnvVar)
    requires DistinctNames(s)
    ensures a == b ==> multiset(s)[a] <= 1
    ensures a != b && a.name == b.name ==> multiset(s)[a] == 0 || multiset(s)[b] == 0
  {
    if s != [] {
      var n := |s| - 1;
      assert s == s[..n] + [s[n]];
      DistinctCounts(s[..n], a, b);
      if s[n].name == a.name { assert a !in s[..n]; }
      if s[n].name == b.name { assert b !in s[..n]; }
    }
  }

  /** Sorting distinct names makes the order strict, so the instability of the sort cannot show. */
  lemma DistinctSorted(list: seq<EnvVar>, r: seq<EnvVar>)
    requires DistinctNames(list) && SortedByName(r) && multiset(r) == multiset(list)
    ensures StrictlySorted(r)
  {
    forall i, j | 0 <= i < j < |r| ensures Less(r[i].name, r[j].name) {
      assert r == r[..i] + [r[i]] + r[i + 1..j] + [r[j]] + r[j + 1..];
      assert multiset(r)[r[i]] >= 1 && multiset(r)[r[j]] >= 1 && (r[i] == r[j] ==> multiset(r)[r[i]] >= 2);
      DistinctCounts(list, r[i], r[j]);
      LessTrichotomy(r[i].name, r[j].name);
    }
  }

  /** There is only one such list: neither map order nor sort order can make a difference. */
  lemma {:induction false} CanonicalUnique(a: seq<EnvVar>, b: seq<EnvVar>)
    requires StrictlySorted(a) && StrictlySorted(b) && forall e :: e in a <==> e in b
    ensures a == b
  {
    assert a != [] ==> a[0] in b;
    assert b != [] ==> b[0] in a;
    if a != [] && b != [] {
      LessTrichotomy(a[0].name, b[0].name);
      assert a[0] == b[0];
      assert a == [a[0]] + a[1..] && b == [b[0]] + b[1..];
      assert a[0] !in a[1..] && b[0] !in b[1..] by {
        LessTrichotomy(a[0].name, a[0].name);
      }
      assert forall e :: e in a[1..] <==> e in a && e != a[0];
      assert forall e :: e in b[1..] <==> e in b && e != b[0];
      CanonicalUnique(a[1..], b[1..]);
    }
  }

  // ---- The sticky variable -----------------------------------------------------------------

  datatype Container = Container(name: string, env: seq<EnvVar>)

  datatype Workload = Workload(containers: seq<Container>)

  /** What a read of the existing DaemonSet gives. */
  datatype Read = Found(workload: Workload) | Missing | ReadError

  ghost predicate Names(env: seq<EnvVar>, name: string) {
    exists e :: e in env && e.name == name
  }

  /** The environment of the first agent container. */
  function AgentEnv(w: Workload): Option<seq<EnvVar>>
    decreases |w.containers|
  {
    if w.containers == [] then None
    else if w.containers[0].name == AGENT_CONTAINER then Some(w.containers[0].env)
    else AgentEnv(Workload(w.containers[1..]))
  }

  /** It is the first container of that name that counts. */
  lemma {:induction false} AgentEnvAt(w: Workload, i: nat)
    requires i < |w.containers| && forall j :: 0 <= j < i ==> w.containers[j].name != AGENT_CONTAINER
    ensures w.containers[i].name == AGENT_CONTAINER ==> AgentEnv(w) == Some(w.containers[i].env)
    ensures w.containers[i].name != AGENT_CONTAINER && i == |w.containers| - 1 ==> AgentEnv(w) == None
    decreases |w.containers|
  {
    if i > 0 { AgentEnvAt(Workload(w.containers[1..]), i - 1); }
  }

  ghost predicate HasPersist(w: Workload) {
    AgentEnv(w).Some? && Names(AgentEnv(w).value, PERSIST)
  }

  /** `shouldSetPersistHostUniqueIDEnvVar`: no answer stands for a failed reconcile. */
  method ShouldSetPersist(read: Read) returns (set_: Option<bool>)
    ensures set_.Some? <==> read.Missing? || (read.Found? && AgentEnv(read.workload).Some?)
    ensures read.Missing? ==> set_ == Some(true)
    ensures read.Found? && set_.Some? ==> (set_.value <==> HasPersist(read.workload))
  {
    if read.Missing? { return Some(true); }
    if read.ReadError? { return None; }
    var containers := read.workload.containers;
    for n := 0 to |containers|
      invariant AgentEnv(read.workload) == AgentEnv(Workload(containers[n..]))
    {
      var container := containers[n];
      assert containers[n..][1..] == containers[n + 1..];
      if container.name == AGENT_CONTAINER {
        for m := 0 to |container.env|
          invariant forall k :: 0 <= k < m ==> container.env[k].name != PERSIST
        {
          if container.env[m].name == PERSIST { return Some(true); }
        }
        return Some(false);
      }
    }
    return None;
  }

  /** The part of the agent resource that shapes its DaemonSets. What the builder produces may depend on
      the zone. No zone at all means one DaemonSet without a zone. */
  datatype Agent = Agent(name: string, zones: seq<string>, env: map<string, string>,
                         produced: Option<string> -> seq<Option<EnvVar>>, podEnv: seq<EnvVar>)

  function DaemonSetName(agent: Agent, zone: Option<string>): string {
    if zone.None? then agent.name else agent.name + "-" + zone.value
  }

  function Zones(agent: Agent): (zones: seq<Option<string>>)
    ensures agent.zones == [] ==> zones == [None]
    ensures agent.zones != [] ==>
      |zones| == |agent.zones| && forall i :: 0 <= i < |zones| ==> zones[i] == Some(agent.zones[i])
  {
    if agent.zones == [] then [None] else seq(|agent.zones|, i requires 0 <= i < |agent.zones| => Some(agent.zones[i]))
  }

  /** Every DaemonSet of a resource has a name of its own. */
  lemma NamesApart(agent: Agent, y: Option<string>, z: Option<string>)
    ensures DaemonSetName(agent, y) == DaemonSetName(agent, z) <==> y == z
  {
    var n := |agent.name| + 1;
    if y.Some? { assert DaemonSetName(agent, y)[n..] == y.value; }
    if z.Some? { assert DaemonSetName(agent, z)[n..] == z.value; }
  }

  datatype Builder = Builder(zone: Option<string>, persist: bool)

  /** `getDaemonSetBuilders`, with the lookup for the DaemonSet without a zone: first all lookups, by the
      name the builder will use, then the builders; one failed lookup yields none. */
  method GetDaemonSetBuilders(agent: Agent, read: string -> Read) returns (builders: Option<seq<Builder>>)
    ensures builders.None? <==>
            exists z :: z in Zones(agent) && Lookup(read(DaemonSetName(agent, z))).None?
    ensures builders.Some? ==> |builders.value| == |Zones(agent)|
    ensures builders.Some? ==> forall i :: 0 <= i < |Zones(agent)| ==>
              var z := Zones(agent)[i];
              builders.value[i].zone == z && Some(builders.value[i].persist) == Lookup(read(DaemonSetName(agent, z)))
  {
    var zones := Zones(agent);
    var settings := [];
    for i := 0 to |zones|
      invariant |settings| == i
      invariant forall j :: 0 <= j < i ==> Some(settings[j]) == Lookup(read(DaemonSetName(agent, zones[j])))
    {
      var r := ShouldSetPersist(read(DaemonSetName(agent, zones[i])));
      if r.None? {
        assert zones[i] in zones;
        return None;
      }
      settings := settings + [r.value];
    }
    builders := Some(
      seq(|zones|, i requires 0 <= i < |zones| && |settings| == |zones| => Builder(zones[i], settings[i])));
  }

  ghost function Lookup(read: Read): Option<bool> {
    match read
    case Missing => Some(true)
    case ReadError => None
    case Found(w) => if AgentEnv(w).None? then None else Some(HasPersist(w))
  }

  /** The DaemonSet of that zone, as built with that setting. */
  ghost predicate IsBuilt(agent: Agent, b: Builder, w: Workload) {
    |w.containers| == 1 && w.containers[0].name == AGENT_CONTAINER
    && Canonical(w.containers[0].env, agent.env, agent.produced(b.zone), b.persist, agent.podEnv)
  }

  type Workloads = map<string, Workload>

  ghost predicate Accurate(ws: Workloads, name: string, read: Read) {
    read.ReadError? || read == if name in ws then Found(ws[name]) else Missing
  }

  /** One reconcile of any agent: reads are accurate or fail; any of the builders' results may be applied,
      one after the other, or not. Or somebody deletes a DaemonSet. */
  datatype Change = Reconcile(agent: Agent, read: string -> Read) | Delete(name: string)

  ghost predicate Moves(ws: Workloads, ev: Change, ws': Workloads) {
    match ev
    case Delete(name) => ws' == ws - {name}
    case Reconcile(agent, read) =>
      && (forall name :: Accurate(ws, name, read(name)))
      && ws.Keys <= ws'.Keys
      && forall name :: name in ws' ==>
           (name in ws && ws'[name] == ws[name]) ||
           (exists z :: z in Zones(agent) && Applied(agent, read, z, name, ws'[name]))
  }

  ghost predicate Applied(agent: Agent, read: string -> Read, z: Option<string>, name: string, w: Workload) {
    && (forall y :: y in Zones(agent) ==> Lookup(read(DaemonSetName(agent, y))).Some?)
    && z in Zones(agent) && name == DaemonSetName(agent, z)
    && Lookup(read(name)).Some? && IsBuilt(agent, Builder(z, Lookup(read(name)).value), w)
  }

  /** One reconcile of the DaemonSets: look all of them up, build them, and apply them one after the other;
      `succeeds` says which of these calls come through. */
  method ReconcileDaemonSets(agent: Agent, read: string -> Read, ws: Workloads, succeeds: seq<bool>)
    returns (ws': Workloads)
    requires forall name :: Accurate(ws, name, read(name))
    ensures Moves(ws, Reconcile(agent, read), ws')
  {
    ws' := ws;
    var builders := GetDaemonSetBuilders(agent, read);
    if builders.None? { return; }
    for i := 0 to |builders.value|
      invariant ws.Keys <= ws'.Keys
      invariant forall name :: name in ws' ==>
        (name in ws && ws'[name] == ws[name]) ||
        (exists z :: z in Zones(agent) && Applied(agent, read, z, name, ws'[name]))
    {
      var b := builders.value[i];
      var env := GetEnvVars(agent.env, agent.produced(b.zone), b.persist, agent.podEnv);
      if i < |succeeds| && succeeds[i] {
        var name, w := DaemonSetName(agent, b.zone), Workload([Container(AGENT_CONTAINER, env)]);
        assert b.zone == Zones(agent)[i] && b.zone in Zones(agent);
        assert IsBuilt(agent, Builder(b.zone, b.persist), w);
        assert Applied(agent, read, b.zone, name, w);
        ws' := ws'[name := w];
      }
    }
  }

  /** What happens in one step of a run: a reconcile in which some lookups fail and some applies succeed, or a
      deletion. */
  datatype Happening = Reconciling(agent: Agent, failing: set<string>, succeeds: seq<bool>) | Deleting(name: string)

  /** Runs of any length: what the reconciles leave, one after the other, is a history. */
  method RunReconciles(start: Workloads, script: seq<Happening>) returns (states: seq<Workloads>, changes: seq<Change>)
    ensures |changes| == |script| && IsHistory(states, changes) && states[0] == start
  {
    states, changes := [start], [];
    for n := 0 to |script|
      invariant |changes| == n && IsHistory(states, changes) && states[0] == start
    {
      var ws := states[n];
      match script[n]
      case Deleting(name) =>
        states, changes := states + [ws - {name}], changes + [Delete(name)];
      case Reconciling(agent, failing, succeeds) =>
        var read := (name: string) =>
          if name in failing then ReadError else if name in ws then Found(ws[name]) else Missing;
        var next := ReconcileDaemonSets(agent, read, ws, succeeds);
        states, changes := states + [next], changes + [Reconcile(agent, read)];
    }
  }

  /** The variable is in a built environment exactly if the setting is on or the resource names it. */
  lemma BuiltCarries(agent: Agent, b: Builder, w: Workload)
    requires IsBuilt(agent, b, w)
    ensures HasPersist(w) <==> b.persist || OwnEnvNames(agent, b.zone)
  {
    var env := w.containers[0].env;
    var c := Chosen(agent.env, agent.produced(b.zone), b.persist, agent.podEnv, PERSIST);
    assert AgentEnv(w) == Some(env);
    if c.Some? { assert c.value in env && c.value.name == PERSIST; }
  }

  /** The resource's own environment, or what is produced from it, has an entry of that name. */
  ghost predicate OwnEnvNames(agent: Agent, zone: Option<string>) {
    PERSIST in agent.env || Last(agent.podEnv, PERSIST).Some? || Last(Present(agent.produced(zone)), PERSIST).Some?
  }

  ghost predicate IsHistory(states: seq<Workloads>, events: seq<Change>) {
    |states| == |events| + 1 && forall i :: 0 <= i < |events| ==> Moves(states[i], events[i], states[i + 1])
  }

  /** Once a DaemonSet carries the variable, every later version of it does, as long as it exists. */
  lemma {:induction false} StaysSet(states: seq<Workloads>, events: seq<Change>, name: string, i: nat, j: nat)
    requires IsHistory(states, events) && i <= j < |states|
    requires forall k :: i <= k <= j ==> name in states[k]
    requires HasPersist(states[i][name])
    ensures HasPersist(states[j][name])
  {
    if i < j {
      StaysSet(states, events, name, i, j - 1);
      StepKeeps(states[j - 1], events[j - 1], states[j], name);
    }
  }

  /** One that exists without it never gets it, unless the resource's own environment names it. */
  lemma {:induction false} NeverGains(states: seq<Workloads>, events: seq<Change>, name: string, i: nat, j: nat)
    requires IsHistory(states, events) && i <= j < |states|
    requires forall k :: i <= k <= j ==> name in states[k]
    requires forall k, z :: i <= k < j && events[k].Reconcile? ==> !OwnEnvNames(events[k].agent, z)
    requires !HasPersist(states[i][name])
    ensures !HasPersist(states[j][name])
  {
    if i < j {
      NeverGains(states, events, name, i, j - 1);
      StepKeeps(states[j - 1], events[j - 1], states[j], name);
    }
  }

  lemma StepKeeps(ws: Workloads, ev: Change, ws': Workloads, name: string)
    requires Moves(ws, ev, ws') && name in ws && name in ws'
    ensures HasPersist(ws[name]) ==> HasPersist(ws'[name])
    ensures !HasPersist(ws[name]) && ev.Reconcile? && (forall z :: !OwnEnvNames(ev.agent, z)) ==> !HasPersist(ws'[name])
  {
    if ev.Reconcile? && ws'[name] != ws[name] {
      var z :| z in Zones(ev.agent) && Applied(ev.agent, ev.read, z, name, ws'[name]);
      assert Accurate(ws, name, ev.read(name));
      BuiltCarries(ev.agent, Builder(z, Lookup(ev.read(name)).value), ws'[name]);
    }
  }
}
