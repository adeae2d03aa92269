/** ETCD targets of the sensor: discovery, comparison with what is deployed, and how the comparison feeds
    back into the Deployment. */
module Etcd {
  import opened Text
  import opened Wrappers
  import opened DaemonSet

  const TARGETS := "ETCD_TARGETS"

  // ---- Comparison --------------------------------------------------------------------------

  /** The plain value of the first entry named ETCD_TARGETS, or nothing. */
  function EnvText(env: seq<EnvVar>): (text: string)
    ensures (forall i :: 0 <= i < |env| ==> env[i].name != TARGETS) ==> text == ""
    ensures forall i :: 0 <= i < |env| && env[i].name == TARGETS
                        && (forall j :: 0 <= j < i ==> env[j].name != TARGETS) ==>
      text == if env[i].source.Value? then env[i].source.text else ""
  {
    assert forall i :: 1 <= i < |env| ==> env[i] == env[1..][i - 1];
    if env == [] then ""
    else if env[0].name == TARGETS then (if env[0].source.Value? then env[0].source.text else "")
    else EnvText(env[1..])
  }

  function CurrentTargets(w: Workload): string {
    if AgentEnv(w).Some? then EnvText(AgentEnv(w).value) else ""
  }

  /** The list that the value of the variable stands for. */
  function TargetList(text: string): seq<string> {
    if text == "" then [] else Split(text, ',')
  }

  ghost predicate Targets(list: seq<string>) {
    AllFree(list, ',') && "" !in list
  }

  method ExtractCurrentTargets(w: Workload) returns (text: string)
    ensures text == CurrentTargets(w)
  {
    for n := 0 to |w.containers|
      invariant AgentEnv(w) == AgentEnv(Workload(w.containers[n..]))
    {
      var container := w.containers[n];
      assert w.containers[n..][1..] == w.containers[n + 1..];
      if container.name == AGENT_CONTAINER {
        for m := 0 to |container.env|
          invariant EnvText(container.env) == EnvText(container.env[m..])
        {
          assert container.env[m..][1..] == container.env[m + 1..];
          if container.env[m].name == TARGETS {
            return if container.env[m].source.Value? then container.env[m].source.text else "";
          }
        }
        return "";
      }
    }
    return "";
  }

  /** No update is needed exactly if the deployed and the discovered list agree as multisets. */
  method CompareAndUpdateETCDTargets(w: Workload, discovered: seq<string>) returns (needsUpdate: bool)
    ensures Targets(discovered) ==>
      (needsUpdate <==> multiset(TargetList(CurrentTargets(w))) != multiset(discovered))
  {
    var current := ExtractCurrentTargets(w);
    ghost var deployed := current;
    var sortedDiscovered := SortStrings(discovered);
    var newTargets := Join(sortedDiscovered, ',');
    ghost var list := [];
    if current != "" {
      var currentList := SortStrings(Split(current, ','));
      list := currentList;
      current := Join(currentList, ',');
    }
    needsUpdate := current != newTargets;
    if Targets(discovered) { ComparisonExact(deployed, list, discovered, sortedDiscovered); }
  }

  lemma SameMembers(a: seq<string>, b: seq<string>)
    requires multiset(a) == multiset(b)
    ensures |a| == |b| && forall x :: x in a <==> x in b
  {
    assert |multiset(a)| == |a| && |multiset(b)| == |b|;
    forall x ensures x in a <==> x in b {
      assert x in multiset(a) <==> x in multiset(b);
    }
  }

  lemma ComparisonExact(text: string, list: seq<string>, discovered: seq<string>, sorted: seq<string>)
    requires Targets(discovered) && Sorted(sorted) && multiset(sorted) == multiset(discovered)
    requires Sorted(list) && multiset(list) == multiset(TargetList(text))
    ensures Join(list, ',') == Join(sorted, ',') <==> multiset(TargetList(text)) == multiset(discovered)
  {
    SameMembers(sorted, discovered);
    SameMembers(list, TargetList(text));
    if multiset(list) == multiset(sorted) {
      SortedUnique(list, sorted);
    } else if list == [] {
      assert sorted != [];
    } else {
      SplitFree(text, ',');
      if sorted == [] {
        if list == [""] {
          assert multiset(Split(text, ',')) == multiset([""]);
          assert |Split(text, ',')| == 1 && "" in Split(text, ',');
          JoinOfSplit(text, ',');
        }
      } else if Join(list, ',') == Join(sorted, ',') {
        JoinInjective(list, sorted, ',');
      }
    }
  }

  // ---- Deployment context ------------------------------------------------------------------

  datatype Discovered = Discovered(targets: seq<string>, caFound: bool)

  datatype Context = Context(targets: seq<string>, caSecret: string)

  const CA_SECRET := "etcd-ca"

  /** `CreateDeploymentContext` outside OpenShift. A discovery error counts as nothing discovered, and
      any error of the Deployment read as a missing Deployment. */
  method CreateDeploymentContext(discovered: Option<Discovered>, existing: Read) returns (ctx: Option<Context>)
    ensures ctx.Some? ==> discovered.Some? && Sorted(ctx.value.targets)
                          && multiset(ctx.value.targets) == multiset(discovered.value.targets)
                          && ctx.value.caSecret == if discovered.value.caFound then CA_SECRET else ""
    ensures discovered.None? || discovered.value.targets == [] ==> ctx.None?
    ensures discovered.Some? && discovered.value.targets != [] && Targets(discovered.value.targets) ==>
      (ctx.None? <==> existing.Found? && Unchanged(existing.workload, discovered.value.targets))
  {
    if discovered.None? || discovered.value.targets == [] { return None; }
    if existing.Found? {
      var needsUpdate := CompareAndUpdateETCDTargets(existing.workload, discovered.value.targets);
      if !needsUpdate { return None; }
    }
    var targets := SortStrings(discovered.value.targets);
    ctx := Some(Context(targets, if discovered.value.caFound then CA_SECRET else ""));
  }

  ghost predicate Unchanged(w: Workload, targets: seq<string>) {
    multiset(TargetList(CurrentTargets(w))) == multiset(targets)
  }

  /** The ETCD part of the sensor's environment outside OpenShift, among what agent.env adds: the entries named
      ETCD_TARGETS are the one from agent.env, if any, and the one to deploy, if any. */
  method GetEtcdEnv(agentEnv: map<string, string>, specTargets: seq<string>, ctx: Option<Context>)
    returns (env: seq<EnvVar>)
    ensures forall e :: e in env && e.name == TARGETS <==>
      UserEnv(agentEnv, TARGETS) == Some(e) || TargetEntry(DeployedText(specTargets, ctx)) == Some(e)
  {
    var fromSpec := if specTargets == [] then None else Some(EnvVar(TARGETS, Value(Join(specTargets, ','))));
    env := BuildEnv(agentEnv, [fromSpec]);
    PresentOne(fromSpec);
    assert forall e :: e in env && e.name == TARGETS <==> UserEnv(agentEnv, TARGETS) == Some(e) || fromSpec == Some(e);
    if ctx.Some? && ctx.value.targets != [] && specTargets == [] {
      env := env + [EnvVar(TARGETS, Value(Join(ctx.value.targets, ',')))];
      if ctx.value.caSecret != "" {
        env := env + [EnvVar("ETCD_CA_FILE", Value("/var/run/secrets/etcd/ca.crt"))];
      }
    }
    ghost var unsorted := env;
    env := SortEnvVarsByName(env);
    assert forall e :: e in env <==> e in multiset(unsorted);
  }

  function TargetEntry(text: Option<string>): Option<EnvVar> {
    if text.Some? then Some(EnvVar(TARGETS, Value(text.value))) else None
  }

  lemma PresentOne(e: Option<EnvVar>)
    ensures Present([e]) == if e.Some? then [e.value] else []
  {
  }

  function DeployedText(specTargets: seq<string>, ctx: Option<Context>): Option<string> {
    if specTargets != [] then Some(Join(specTargets, ','))
    else if ctx.Some? && ctx.value.targets != [] then Some(Join(ctx.value.targets, ','))
    else None
  }

  /** ETCD_TARGETS has exactly this value, or is missing. */
  ghost predicate Holds(env: seq<EnvVar>, text: Option<string>) {
    && (text.Some? ==> EnvVar(TARGETS, Value(text.value)) in env)
    && (forall e :: e in env && e.name == TARGETS ==> text.Some? && e == EnvVar(TARGETS, Value(text.value)))
  }

  /** One reconcile with discovery but no targets in the resource: context from the deployed workload, new
      workload from the context. */
  method ReconcileEtcd(agentEnv: map<string, string>, discovered: Discovered, existing: Read) returns (w: Workload)
    ensures TARGETS !in agentEnv && discovered.targets != [] && Targets(discovered.targets) ==>
      Follows(discovered.targets, existing, w)
  {
    var ctx := CreateDeploymentContext(Some(discovered), existing);
    var env := GetEtcdEnv(agentEnv, [], ctx);
    w := Workload([Container(AGENT_CONTAINER, env)]);
    if TARGETS !in agentEnv && discovered.targets != [] && Targets(discovered.targets) {
      EnvTextHolds(env, DeployedText([], ctx));
      if ctx.Some? {
        SameMembers(ctx.value.targets, discovered.targets);
        JoinedList(ctx.value.targets);
      }
    }
  }

  lemma {:induction false} EnvTextHolds(env: seq<EnvVar>, text: Option<string>)
    requires Holds(env, text)
    ensures EnvText(env) == if text.Some? then text.value else ""
  {
    if env != [] && env[0].name != TARGETS {
      assert env == [env[0]] + env[1..];
      EnvTextHolds(env[1..], text);
    }
  }

  lemma JoinedList(list: seq<string>)
    requires list != [] && Targets(list)
    ensures Join(list, ',') != "" && TargetList(Join(list, ',')) == list
  {
    SplitOfJoin(list, ',');
    assert list == [""] ==> "" in list;
  }

  /** What one reconcile leaves: the discovered targets if they had changed, and none if they had not. */
  ghost predicate Follows(targets: seq<string>, existing: Read, w: Workload) {
    && w.containers != [] && w.containers[0].name == AGENT_CONTAINER
    && if existing.Found? && Unchanged(existing.workload, targets)
       then CurrentTargets(w) == ""
       else CurrentTargets(w) != "" && Unchanged(w, targets)
  }

  /** Unchanged discovery is meant to leave the variable alone. It does exactly if the targets had changed:
      the very reconcile that finds them unchanged drops the variable. */
  lemma KeepsTargetsIff(targets: seq<string>, existing: Read, w: Workload)
    requires targets != [] && Follows(targets, existing, w)
    ensures Unchanged(w, targets) <==> !(existing.Found? && Unchanged(existing.workload, targets))
    ensures Unchanged(w, targets) <==> CurrentTargets(w) != ""
  {
  }

  /** With fixed discovery the variable is there after every other reconcile, for runs of every length. */
  lemma {:induction false} Alternates(targets: seq<string>, first: Read, run: seq<Workload>, n: nat)
    requires targets != [] && n < |run|
    requires forall i :: 0 <= i < |run| ==> Follows(targets, if i == 0 then first else Found(run[i - 1]), run[i])
    ensures CurrentTargets(run[n]) != "" <==> (n % 2 == 0) == (CurrentTargets(run[0]) != "")
    ensures CurrentTargets(run[n]) != "" <==> Unchanged(run[n], targets)
  {
    hide CurrentTargets, TargetList;
    KeepsTargetsIff(targets, if n == 0 then first else Found(run[n - 1]), run[n]);
    if n > 0 { Alternates(targets, first, run, n - 1); }
  }

  // ---- Discovery ---------------------------------------------------------------------------

  function Decimal(n: int): string { if n < 0 then "-" + Itoa(-n) else Itoa(n) }

  function Target(scheme: string, address: string, port: int): string {
    scheme + "://" + address + ":" + Decimal(port) + "/metrics"
  }

  datatype SlicePort = SlicePort(name: Option<string>, port: Option<int>) {
    predicate Usable() { name == Some("metrics") && port.Some? }
  }

  datatype Endpoint = Endpoint(addresses: seq<string>, ready: Option<bool>) {
    predicate ExplicitlyUnready() { ready == Some(false) }
  }

  datatype EndpointSlice = EndpointSlice(ports: seq<SlicePort>, endpoints: seq<Endpoint>)

  /** The port of the first usable metrics entry, or the service's port. */
  ghost predicate IsSlicePort(ports: seq<SlicePort>, servicePort: int, port: int) {
    if exists i :: 0 <= i < |ports| && ports[i].Usable()
    then exists i :: 0 <= i < |ports| && ports[i].Usable() && ports[i].port == Some(port) &&
                     forall j :: 0 <= j < i ==> !ports[j].Usable()
    else port == servicePort
  }

  method FindSlicePort(ports: seq<SlicePort>, servicePort: int) returns (port: int)
    ensures IsSlicePort(ports, servicePort, port)
  {
    port := servicePort;
    for i := 0 to |ports|
      invariant port == servicePort && forall j :: 0 <= j < i ==> !ports[j].Usable()
    {
      if ports[i].Usable() { return ports[i].port.value; }
    }
  }

  // ---- Where the targets come from ---------------------------------------------------------

  /** An address: which slice, which endpoint of it, which address of that. */
  datatype Origin = Origin(slice: nat, endpoint: nat, address: nat)

  predicate Precedes(a: Origin, b: Origin) {
    || a.slice < b.slice
    || (a.slice == b.slice && a.endpoint < b.endpoint)
    || (a.slice == b.slice && a.endpoint == b.endpoint && a.address < b.address)
  }

  /** There is such an address, and its endpoint is not explicitly unready. */
  predicate IsOrigin(slices: seq<EndpointSlice>, o: Origin) {
    && o.slice < |slices| && o.endpoint < |slices[o.slice].endpoints|
    && !slices[o.slice].endpoints[o.endpoint].ExplicitlyUnready()
    && o.address < |slices[o.slice].endpoints[o.endpoint].addresses|
  }

  function TargetOf(slices: seq<EndpointSlice>, ports: seq<int>, scheme: string, o: Origin): string
    requires IsOrigin(slices, o) && |ports| == |slices|
  {
    Target(scheme, slices[o.slice].endpoints[o.endpoint].addresses[o.address], ports[o.slice])
  }

  /** One target for every such address of the endpoints before position `end`, in their order, and no other: the
      positions of the list and the addresses correspond one to one. */
  ghost predicate Collects(slices: seq<EndpointSlice>, ports: seq<int>, scheme: string, end: Origin,
                           targets: seq<string>, origins: seq<Origin>)
  {
    && |ports| == |slices| && |origins| == |targets|
    && (forall p :: 0 <= p < |origins| ==>
          IsOrigin(slices, origins[p]) && Precedes(origins[p], end)
          && targets[p] == TargetOf(slices, ports, scheme, origins[p]))
    && (forall p, q :: 0 <= p < q < |origins| ==> Precedes(origins[p], origins[q]))
    && (forall o :: IsOrigin(slices, o) && Precedes(o, end) ==> o in origins)
  }

  ghost predicate CollectsAll(slices: seq<EndpointSlice>, ports: seq<int>, scheme: string, targets: seq<string>,
                              origins: seq<Origin>)
  {
    Collects(slices, ports, scheme, Origin(|slices|, 0, 0), targets, origins)
  }

  /** A string is among the targets exactly if it is the target of an address of an endpoint, not explicitly
      unready, of one of the slices. */
  lemma TargetsIff(slices: seq<EndpointSlice>, ports: seq<int>, scheme: string, list: seq<string>,
                   origins: seq<Origin>, targets: seq<string>, t: string)
    requires CollectsAll(slices, ports, scheme, list, origins) && multiset(targets) == multiset(list)
    ensures t in targets <==>
      exists i, j, k :: 0 <= i < |slices| && 0 <= j < |slices[i].endpoints| &&
        slices[i].endpoints[j].ready != Some(false) && 0 <= k < |slices[i].endpoints[j].addresses| &&
        t == scheme + "://" + slices[i].endpoints[j].addresses[k] + ":" + Decimal(ports[i]) + "/metrics"
  {
    SameMembers(targets, list);
    hide Decimal;
    if t in targets {
      var p :| 0 <= p < |list| && list[p] == t;
      var o := origins[p];
      assert IsOrigin(slices, o) && t == TargetOf(slices, ports, scheme, o);
      var addresses := slices[o.slice].endpoints[o.endpoint].addresses;
      assert addresses[o.address] in addresses;
    }
    if i, j, k :| 0 <= i < |slices| && 0 <= j < |slices[i].endpoints| &&
                  slices[i].endpoints[j].ready != Some(false) && 0 <= k < |slices[i].endpoints[j].addresses| &&
                  t == scheme + "://" + slices[i].endpoints[j].addresses[k] + ":" + Decimal(ports[i]) + "/metrics"
    {
      var o := Origin(i, j, k);
      assert IsOrigin(slices, o) && Precedes(o, Origin(|slices|, 0, 0));
      var p :| 0 <= p < |origins| && origins[p] == o;
      assert list[p] == TargetOf(slices, ports, scheme, o) == t;
    }
  }

  /** There are exactly as many targets as such addresses. */
  lemma TargetsCount(slices: seq<EndpointSlice>, ports: seq<int>, scheme: string, list: seq<string>,
                     origins: seq<Origin>, targets: seq<string>, all: set<Origin>)
    requires CollectsAll(slices, ports, scheme, list, origins) && multiset(targets) == multiset(list)
    requires forall o :: o in all <==>
      && o.slice < |slices| && o.endpoint < |slices[o.slice].endpoints|
      && slices[o.slice].endpoints[o.endpoint].ready != Some(false)
      && o.address < |slices[o.slice].endpoints[o.endpoint].addresses|
    ensures |targets| == |all|
  {
    SameMembers(targets, list);
    assert all == set o | o in origins by {
      forall o | o in all ensures o in origins {
        assert IsOrigin(slices, o) && Precedes(o, Origin(|slices|, 0, 0));
      }
    }
    IncreasingCount(origins);
  }

  lemma {:induction false} IncreasingCount(origins: seq<Origin>)
    requires forall p, q :: 0 <= p < q < |origins| ==> Precedes(origins[p], origins[q])
    ensures |set o | o in origins| == |origins|
  {
    if origins != [] {
      var n := |origins| - 1;
      IncreasingCount(origins[..n]);
      assert origins == origins[..n] + [origins[n]];
      assert (set o | o in origins) == (set o | o in origins[..n]) + {origins[n]};
      assert origins[n] !in origins[..n] by {
        forall p | 0 <= p < n ensures origins[p] != origins[n] { assert Precedes(origins[p], origins[n]); }
      }
    }
  }

  lemma CollectsNone(slices: seq<EndpointSlice>, ports: seq<int>, scheme: string)
    requires |ports| == |slices|
    ensures Collects(slices, ports, scheme, Origin(0, 0, 0), [], [])
  {
  }

  /** The addresses of one endpoint, in their order. */
  function AddressesOf(slice: nat, endpoint: nat, n: nat): (r: seq<Origin>)
    ensures |r| == n && forall k :: 0 <= k < n ==> r[k] == Origin(slice, endpoint, k)
  {
    seq(n, (k: nat) => Origin(slice, endpoint, k))
  }

  /** One endpoint more. */
  lemma CollectsEndpoint(slices: seq<EndpointSlice>, ports: seq<int>, scheme: string, i: nat, j: nat,
                         targets: seq<string>, origins: seq<Origin>, more: seq<string>, r: seq<string>)
    returns (all: seq<Origin>)
    requires Collects(slices, ports, scheme, Origin(i, j, 0), targets, origins)
    requires i < |slices| && j < |slices[i].endpoints| && r == targets + more
    requires var e := slices[i].endpoints[j];
      if e.ExplicitlyUnready() then more == []
      else
        && |more| == |e.addresses|
        && forall k :: 0 <= k < |more| ==> more[k] == Target(scheme, e.addresses[k], ports[i])
    ensures Collects(slices, ports, scheme, Origin(i, j + 1, 0), r, all)
  {
    hide Target;
    var added := AddressesOf(i, j, |more|);
    all := origins + added;
    EndpointCovers(slices, i, j, origins, added);
    forall p, q | 0 <= p < q < |all| ensures Precedes(all[p], all[q]) {
      if p < |origins| <= q { assert Precedes(origins[p], Origin(i, j, 0)); }
    }
    forall p | 0 <= p < |all|
      ensures IsOrigin(slices, all[p]) && Precedes(all[p], Origin(i, j + 1, 0))
      ensures r[p] == TargetOf(slices, ports, scheme, all[p])
    {
      if p < |origins| { assert IsOrigin(slices, origins[p]) && Precedes(origins[p], Origin(i, j, 0)); }
    }
    hide IsOrigin, Precedes;
  }

  lemma EndpointCovers(slices: seq<EndpointSlice>, i: nat, j: nat, origins: seq<Origin>, added: seq<Origin>)
    requires i < |slices| && j < |slices[i].endpoints|
    requires forall o :: IsOrigin(slices, o) && Precedes(o, Origin(i, j, 0)) ==> o in origins
    requires forall k :: 0 <= k < |added| ==> added[k] == Origin(i, j, k)
    requires slices[i].endpoints[j].ExplicitlyUnready() || |added| == |slices[i].endpoints[j].addresses|
    ensures forall o :: IsOrigin(slices, o) && Precedes(o, Origin(i, j + 1, 0)) ==> o in origins + added
  {
    forall o | IsOrigin(slices, o) && Precedes(o, Origin(i, j + 1, 0)) ensures o in origins + added {
      if !Precedes(o, Origin(i, j, 0)) {
        assert o == Origin(i, j, o.address) && o == added[o.address];
      }
    }
  }

  /** One slice more: after its last endpoint comes the next slice. */
  lemma CollectsSlice(slices: seq<EndpointSlice>, ports: seq<int>, scheme: string, i: nat, targets: seq<string>,
                      origins: seq<Origin>)
    requires i < |slices| && Collects(slices, ports, scheme, Origin(i, |slices[i].endpoints|, 0), targets, origins)
    ensures Collects(slices, ports, scheme, Origin(i + 1, 0, 0), targets, origins)
  {
    forall o | IsOrigin(slices, o) && Precedes(o, Origin(i + 1, 0, 0))
      ensures Precedes(o, Origin(i, |slices[i].endpoints|, 0))
    {
    }
  }

  method AddTargets(targets: seq<string>, addresses: seq<string>, scheme: string, port: int) returns (r: seq<string>)
    ensures targets <= r && |r| == |targets| + |addresses|
    ensures forall k :: 0 <= k < |addresses| ==> r[|targets| + k] == Target(scheme, addresses[k], port)
  {
    r := targets;
    for n := 0 to |addresses|
      invariant targets <= r && |r| == |targets| + n
      invariant forall k :: 0 <= k < n ==> r[|targets| + k] == Target(scheme, addresses[k], port)
    {
      r := r + [Target(scheme, addresses[n], port)];
    }
  }

  /** `buildTargetsFromEndpointSlice`. */
  method BuildTargetsFromEndpointSlice(slice: EndpointSlice, servicePort: int, scheme: string)
    returns (targets: seq<string>, port: int, ghost origins: seq<Origin>)
    ensures IsSlicePort(slice.ports, servicePort, port)
    ensures CollectsAll([slice], [port], scheme, targets, origins)
  {
    targets := [];
    port := FindSlicePort(slice.ports, servicePort);
    origins := [];
    ghost var slices, ports := [slice], [port];
    CollectsNone(slices, ports, scheme);
    for n := 0 to |slice.endpoints|
      invariant Collects(slices, ports, scheme, Origin(0, n, 0), targets, origins)
    {
      hide Collects;
      ghost var before := targets;
      if !slice.endpoints[n].ExplicitlyUnready() {
        targets := AddTargets(targets, slice.endpoints[n].addresses, scheme, port);
      }
      origins := CollectsEndpoint(slices, ports, scheme, 0, n, before, origins, targets[|before|..], targets);
    }
    CollectsSlice(slices, ports, scheme, 0, targets, origins);
  }

  /** The same addresses, as those of slice `i`. */
  function Shifted(origins: seq<Origin>, i: nat): (r: seq<Origin>)
    ensures |r| == |origins| && forall p :: 0 <= p < |r| ==> r[p] == origins[p].(slice := i)
  {
    seq(|origins|, p requires 0 <= p < |origins| => origins[p].(slice := i))
  }

  lemma ShiftedOrdered(origins: seq<Origin>, own: seq<Origin>, i: nat)
    requires forall p, q :: 0 <= p < q < |origins| ==> Precedes(origins[p], origins[q])
    requires forall p :: 0 <= p < |origins| ==> Precedes(origins[p], Origin(i, 0, 0))
    requires forall p, q :: 0 <= p < q < |own| ==> Precedes(own[p], own[q])
    requires forall p :: 0 <= p < |own| ==> own[p].slice == 0
    ensures var all := origins + Shifted(own, i); forall p, q :: 0 <= p < q < |all| ==> Precedes(all[p], all[q])
  {
    var all := origins + Shifted(own, i);
    forall p, q | 0 <= p < q < |all| ensures Precedes(all[p], all[q]) {
      if |origins| <= p {
        assert Precedes(own[p - |origins|], own[q - |origins|]);
      } else if |origins| <= q {
        assert Precedes(origins[p], Origin(i, 0, 0));
      }
    }
  }

  lemma ShiftedCovers(slices: seq<EndpointSlice>, i: nat, origins: seq<Origin>, own: seq<Origin>)
    requires i < |slices|
    requires forall o :: IsOrigin(slices, o) && Precedes(o, Origin(i, 0, 0)) ==> o in origins
    requires forall o :: IsOrigin([slices[i]], o) && Precedes(o, Origin(1, 0, 0)) ==> o in own
    ensures forall o :: IsOrigin(slices, o) && Precedes(o, Origin(i + 1, 0, 0)) ==> o in origins + Shifted(own, i)
  {
    forall o | IsOrigin(slices, o) && Precedes(o, Origin(i + 1, 0, 0)) ensures o in origins + Shifted(own, i) {
      if !Precedes(o, Origin(i, 0, 0)) {
        var mine := o.(slice := 0);
        assert IsOrigin([slices[i]], mine) && Precedes(mine, Origin(1, 0, 0));
        var p :| 0 <= p < |own| && own[p] == mine;
        assert Shifted(own, i)[p] == o;
      }
    }
  }

  /** Adding all that one slice gives to what the slices before it gave. */
  lemma CollectsMore(slices: seq<EndpointSlice>, ports: seq<int>, scheme: string, i: nat, targets: seq<string>,
                     origins: seq<Origin>, more: seq<string>, own: seq<Origin>)
    returns (all: seq<Origin>)
    requires i < |slices| && |ports| == |slices| && Collects(slices, ports, scheme, Origin(i, 0, 0), targets, origins)
    requires CollectsAll([slices[i]], [ports[i]], scheme, more, own)
    ensures Collects(slices, ports, scheme, Origin(i + 1, 0, 0), targets + more, all)
  {
    hide Target;
    all := origins + Shifted(own, i);
    forall p | 0 <= p < |own|
      ensures own[p].slice == 0 && IsOrigin(slices, Shifted(own, i)[p])
      ensures more[p] == TargetOf(slices, ports, scheme, Shifted(own, i)[p])
    {
      assert IsOrigin([slices[i]], own[p]);
    }
    ShiftedOrdered(origins, own, i);
    ShiftedCovers(slices, i, origins, own);
  }

  /** Later slices and their ports make no difference to what was collected before. */
  lemma CollectsPrefix(slices: seq<EndpointSlice>, ports: seq<int>, more: seq<int>, scheme: string, i: nat,
                       targets: seq<string>, origins: seq<Origin>)
    requires i <= |slices| && |ports| == |more| == |slices| && ports[..i] == more[..i]
    requires Collects(slices, ports, scheme, Origin(i, 0, 0), targets, origins)
    ensures Collects(slices, more, scheme, Origin(i, 0, 0), targets, origins)
  {
    forall p | 0 <= p < |origins| ensures targets[p] == TargetOf(slices, more, scheme, origins[p]) {
      assert origins[p].slice < i && ports[..i][origins[p].slice] == more[..i][origins[p].slice];
    }
  }

  datatype LegacyPort = LegacyPort(name: string, port: int)

  datatype Subset = Subset(ports: seq<LegacyPort>, addresses: seq<string>)

  /** The legacy Endpoints object, as a read gives it. */
  datatype Legacy = LegacyFound(subsets: seq<Subset>) | LegacyMissing | LegacyError

  ghost predicate IsSubsetPort(ports: seq<LegacyPort>, servicePort: int, port: int) {
    if exists i :: 0 <= i < |ports| && ports[i].name == "metrics"
    then exists i :: 0 <= i < |ports| && ports[i] == LegacyPort("metrics", port) &&
                     forall j :: 0 <= j < i ==> ports[j].name != "metrics"
    else port == servicePort
  }

  method FindSubsetPort(ports: seq<LegacyPort>, servicePort: int) returns (port: int)
    ensures IsSubsetPort(ports, servicePort, port)
  {
    port := servicePort;
    for i := 0 to |ports|
      invariant port == servicePort && forall j :: 0 <= j < i ==> ports[j].name != "metrics"
    {
      if ports[i].name == "metrics" { return ports[i].port; }
    }
  }

  /** A subset counts like a slice with one endpoint that is ready. */
  function AsSlice(subset: Subset): EndpointSlice {
    EndpointSlice([], [Endpoint(subset.addresses, None)])
  }

  function AsSlices(subsets: seq<Subset>): (r: seq<EndpointSlice>)
    ensures |r| == |subsets| && forall i :: 0 <= i < |r| ==> r[i] == AsSlice(subsets[i])
  {
    seq(|subsets|, i requires 0 <= i < |subsets| => AsSlice(subsets[i]))
  }

  ghost predicate FromSubsets(subsets: seq<Subset>, servicePort: int, scheme: string, targets: seq<string>,
                              ports: seq<int>, origins: seq<Origin>)
  {
    && CollectsAll(AsSlices(subsets), ports, scheme, targets, origins)
    && forall i :: 0 <= i < |subsets| ==> IsSubsetPort(subsets[i].ports, servicePort, ports[i])
  }

  ghost predicate FromSlices(slices: seq<EndpointSlice>, servicePort: int, scheme: string, targets: seq<string>,
                             ports: seq<int>, origins: seq<Origin>)
  {
    && CollectsAll(slices, ports, scheme, targets, origins)
    && forall i :: 0 <= i < |slices| ==> IsSlicePort(slices[i].ports, servicePort, ports[i])
  }

  method BuildTargetsFromLegacyEndpoints(legacy: Legacy, servicePort: int, scheme: string)
    returns (targets: Option<seq<string>>, ghost ports: seq<int>, ghost origins: seq<Origin>)
    ensures targets.None? <==> legacy.LegacyError?
    ensures legacy.LegacyMissing? ==> targets == Some([])
    ensures legacy.LegacyFound? ==> FromSubsets(legacy.subsets, servicePort, scheme, targets.value, ports, origins)
  {
    ports, origins := [], [];
    if legacy.LegacyError? { return None, [], []; }
    if legacy.LegacyMissing? { return Some([]), [], []; }
    var subsets, list := legacy.subsets, [];
    ghost var slices := AsSlices(subsets);
    CollectsNone(slices, Padded(ports, |slices|), scheme);
    for n := 0 to |subsets|
      invariant |ports| == n && forall i :: 0 <= i < n ==> IsSubsetPort(subsets[i].ports, servicePort, ports[i])
      invariant Collects(slices, Padded(ports, |slices|), scheme, Origin(n, 0, 0), list, origins)
    {
      hide Collects;
      var port := FindSubsetPort(subsets[n].ports, servicePort);
      ghost var before := list;
      list := AddTargets(list, subsets[n].addresses, scheme, port);
      CollectsPrefix(slices, Padded(ports, |slices|), Padded(ports + [port], |slices|), scheme, n, before, origins);
      ports := ports + [port];
      origins := CollectsEndpoint(slices, Padded(ports, |slices|), scheme, n, 0, before, origins, list[|before|..],
                                  list);
      CollectsSlice(slices, Padded(ports, |slices|), scheme, n, list, origins);
    }
    assert Padded(ports, |slices|) == ports;
    targets := Some(list);
  }

  /** The ports found so far, and anything for the rest. */
  function Padded(ports: seq<int>, n: nat): (r: seq<int>)
    requires |ports| <= n
    ensures |r| == n && r[..|ports|] == ports
  {
    ports + seq(n - |ports|, _ => 0)
  }

  /** `BuildTargetsFromEndpoints`: sorted, and exactly the targets of all slices; legacy subsets serve exactly when
      the slices give none. No answer stands for an error. */
  method BuildTargetsFromEndpoints(slices: Option<seq<EndpointSlice>>, legacy: Legacy, servicePort: int, scheme: string)
    returns (targets: Option<seq<string>>, ghost list: seq<string>, ghost legacyList: seq<string>,
             ghost ports: seq<int>, ghost origins: seq<Origin>)
    ensures targets.Some? ==> Sorted(targets.value)
    ensures targets.None? <==> slices.None? || (list == [] && legacy.LegacyError?)
    ensures slices.Some? ==> exists ps, os :: FromSlices(slices.value, servicePort, scheme, list, ps, os)
    ensures targets.Some? && list != [] ==> multiset(targets.value) == multiset(list)
    ensures targets.Some? && list == [] ==> multiset(targets.value) == multiset(legacyList)
    ensures targets.Some? && list == [] && legacy.LegacyMissing? ==> legacyList == []
    ensures targets.Some? && list == [] && legacy.LegacyFound? ==>
      FromSubsets(legacy.subsets, servicePort, scheme, legacyList, ports, origins)
    ensures targets.Some? && list != [] ==> FromSlices(slices.value, servicePort, scheme, list, ports, origins)
  {
    list, legacyList, ports, origins := [], [], [], [];
    if slices.None? { return None, [], [], [], []; }
    var found := [];
    ghost var all := slices.value;
    CollectsNone(all, Padded(ports, |all|), scheme);
    for n := 0 to |slices.value|
      invariant |ports| == n && forall i :: 0 <= i < n ==> IsSlicePort(slices.value[i].ports, servicePort, ports[i])
      invariant Collects(all, Padded(ports, |all|), scheme, Origin(n, 0, 0), found, origins)
    {
      hide Collects;
      var sliceTargets, port, own := BuildTargetsFromEndpointSlice(slices.value[n], servicePort, scheme);
      CollectsPrefix(all, Padded(ports, |all|), Padded(ports + [port], |all|), scheme, n, found, origins);
      ports := ports + [port];
      origins := CollectsMore(all, Padded(ports, |all|), scheme, n, found, origins, sliceTargets, own);
      found := found + sliceTargets;
    }
    assert Padded(ports, |all|) == ports;
    list := found;
    assert FromSlices(all, servicePort, scheme, list, ports, origins);
    if found == [] {
      var legacyTargets, legacyPorts, legacyOrigins := BuildTargetsFromLegacyEndpoints(legacy, servicePort, scheme);
      if legacyTargets.None? { return None, list, [], ports, origins; }
      ports, origins := legacyPorts, legacyOrigins;
      found := found + legacyTargets.value;
      legacyList := found;
    }
    var sorted := SortStrings(found);
    targets := Some(sorted);
  }
}
