/** The sensor backends and how their ConfigMap, keys Secret and Deployments refer to each other. */
module Backends {
  import opened Text
  import opened Wrappers

  datatype Backend = Backend(suffix: string, key: string, host: string, port: string)

  datatype AdditionalBackend = AdditionalBackend(key: string, host: string, port: string)

  /** The part of the agent resource that matters here. Absent strings are empty. */
  datatype AgentSpec = AgentSpec(
    name: string, key: string, downloadKey: string, keysSecret: string, host: string, port: string,
    additional: seq<AdditionalBackend>, useSecretMounts: Option<bool>, pollRate: string,
    proxyProtocol: string, proxyHost: string, proxyPort: string, proxyUser: string, proxyPassword: string,
    releaseUser: string, releasePassword: string, sharedUser: string, sharedPassword: string)

  function OrDefault(s: string, default: string): string { if s == "" then default else s }

  /** `url.URL.String` for a scheme, a host with a port, and credentials if both are given; `userinfo` is
      the library's escaping of them. */
  function ProxyUrl(protocol: string, host: string, port: string, user: string, password: string,
                    userinfo: (string, string) -> string): (url: string)
    ensures url != ""
  {
    OrDefault(protocol, "http") + "://" +
    (if user != "" && password != "" then userinfo(user, password) + "@" else "") +
    host + ":" + OrDefault(port, "80")
  }

  /** What the URL says: protocol, credentials only if there are both, host and port, with the two defaults. */
  lemma ProxyUrlSays(protocol: string, host: string, port: string, user: string, password: string,
                     userinfo: (string, string) -> string)
    ensures var scheme, p := if protocol == "" then "http" else protocol, if port == "" then "80" else port;
      var auth := if user == "" || password == "" then "" else userinfo(user, password) + "@";
      ProxyUrl(protocol, host, port, user, password, userinfo) == scheme + "://" + auth + host + ":" + p
  {
  }

  const AGENT_KEY := "key"
  const DOWNLOAD_KEY := "downloadKey"
  const BACKEND_KEY := "backend"
  const FILE_AGENT_KEY := "INSTANA_AGENT_KEY"
  const FILE_DOWNLOAD_KEY := "INSTANA_DOWNLOAD_KEY"
  const FILE_PROXY_USER := "INSTANA_AGENT_PROXY_USER"
  const FILE_PROXY_PASSWORD := "INSTANA_AGENT_PROXY_PASSWORD"
  const FILE_RELEASE_USER := "AGENT_RELEASE_REPOSITORY_MIRROR_USERNAME"
  const FILE_RELEASE_PASSWORD := "AGENT_RELEASE_REPOSITORY_MIRROR_PASSWORD"
  const FILE_SHARED_USER := "INSTANA_SHARED_REPOSITORY_MIRROR_USERNAME"
  const FILE_SHARED_PASSWORD := "INSTANA_SHARED_REPOSITORY_MIRROR_PASSWORD"
  const FILE_HTTPS_PROXY := "HTTPS_PROXY"
  const KEY_HTTPS_PROXY := "httpsProxy"
  const SECRETS_DIRECTORY := "/opt/instana/agent/etc/instana/secrets"

  // ---- The backends ------------------------------------------------------------------------

  function Suffix(i: nat): string { if i == 0 then "" else "-" + Itoa(i) }

  lemma SuffixInjective(i: nat, j: nat)
    requires Suffix(i) == Suffix(j)
    ensures i == j
  {
    if i > 0 && j > 0 {
      assert Itoa(i) == Suffix(i)[1..] == Suffix(j)[1..] == Itoa(j);
      ItoaInjective(i, j);
    }
  }

  ghost predicate AreBackends(key: string, host: string, port: string, additional: seq<AdditionalBackend>,
                              r: seq<Backend>)
  {
    && |r| == |additional| + 1 && r[0] == Backend("", key, host, port)
    && forall i :: 1 <= i < |r| ==>
         r[i] == Backend(Suffix(i), additional[i - 1].key, additional[i - 1].host, additional[i - 1].port)
  }

  /** `getK8SensorBackends`, and `getRemoteSensorBackends` with the remote resource's fields. */
  method GetBackends(key: string, host: string, port: string, additional: seq<AdditionalBackend>)
    returns (r: seq<Backend>)
    ensures AreBackends(key, host, port, additional, r)
    ensures DistinctSuffixes(r)
  {
    r := [Backend("", key, host, port)];
    for i := 0 to |additional|
      invariant |r| == i + 1 && r[0] == Backend("", key, host, port)
      invariant forall j :: 1 <= j <= i ==>
        r[j] == Backend(Suffix(j), additional[j - 1].key, additional[j - 1].host, additional[j - 1].port)
    {
      r := r + [Backend("-" + Itoa(i + 1), additional[i].key, additional[i].host, additional[i].port)];
    }
    forall i, j | 0 <= i < j < |r| ensures r[i].suffix != r[j].suffix {
      if r[i].suffix == r[j].suffix { SuffixInjective(i, j); }
    }
  }

  ghost predicate DistinctSuffixes(bs: seq<Backend>) {
    forall i, j :: 0 <= i < j < |bs| ==> bs[i].suffix != bs[j].suffix
  }

  lemma PrefixedInjective(p: string, a: string, b: string)
    requires p + a == p + b
    ensures a == b
  {
    assert a == (p + a)[|p|..] == b;
  }

  // ---- The ConfigMap -----------------------------------------------------------------------

  method GetConfigMapData(bs: seq<Backend>) returns (data: map<string, string>)
    ensures DistinctSuffixes(bs) ==> |data| == |bs| && forall i :: 0 <= i < |bs| ==>
      BACKEND_KEY + bs[i].suffix in data && data[BACKEND_KEY + bs[i].suffix] == bs[i].host + ":" + bs[i].port
  {
    hide BACKEND_KEY;
    data := map[];
    for n := 0 to |bs|
      invariant forall k :: k in data ==> exists i :: 0 <= i < n && k == BACKEND_KEY + bs[i].suffix
      invariant DistinctSuffixes(bs) ==> |data| == n && forall i :: 0 <= i < n ==>
        BACKEND_KEY + bs[i].suffix in data && data[BACKEND_KEY + bs[i].suffix] == bs[i].host + ":" + bs[i].port
    {
      forall i | 0 <= i < n && bs[i].suffix != bs[n].suffix
        ensures BACKEND_KEY + bs[i].suffix != BACKEND_KEY + bs[n].suffix
      {
        if BACKEND_KEY + bs[i].suffix == BACKEND_KEY + bs[n].suffix {
          PrefixedInjective(BACKEND_KEY, bs[i].suffix, bs[n].suffix);
        }
      }
      data := data[BACKEND_KEY + bs[n].suffix := bs[n].host + ":" + bs[n].port];
    }
  }

  // ---- The keys Secret ---------------------------------------------------------------------

  type SecretData = map<string, string>

  /** The keys that are not a backend's. */
  const OTHER_KEYS: set<string> := {DOWNLOAD_KEY, FILE_DOWNLOAD_KEY, FILE_PROXY_USER, FILE_PROXY_PASSWORD,
    FILE_RELEASE_USER, FILE_RELEASE_PASSWORD, FILE_SHARED_USER, FILE_SHARED_PASSWORD, FILE_HTTPS_PROXY}

  /** No backend key takes the name of another entry, whatever the suffix. */
  lemma BackendKeysApart(s: string, t: string)
    ensures AGENT_KEY + s !in OTHER_KEYS && FILE_AGENT_KEY + s !in OTHER_KEYS
    ensures AGENT_KEY + s != FILE_AGENT_KEY + t
  {
    var k, f := AGENT_KEY + s, FILE_AGENT_KEY + s;
    assert k[0] == 'k' && f[0] == 'I' && f[8] == 'A' && f[14] == 'K' && (FILE_AGENT_KEY + t)[0] == 'I';
    assert DOWNLOAD_KEY[0] == 'd' && FILE_RELEASE_USER[0] == FILE_RELEASE_PASSWORD[0] == 'A';
    assert FILE_HTTPS_PROXY[0] == 'H';
    assert FILE_DOWNLOAD_KEY[0] == FILE_SHARED_USER[0] == FILE_SHARED_PASSWORD[0] == 'I';
    assert FILE_DOWNLOAD_KEY[8] == 'D' && FILE_SHARED_USER[8] == FILE_SHARED_PASSWORD[8] == 'S';
    assert FILE_PROXY_USER[14] == FILE_PROXY_PASSWORD[14] == 'P' && FILE_PROXY_USER[0] == FILE_PROXY_PASSWORD[0] == 'I';
  }

  function When(wanted: bool, value: string): Option<string> {
    if wanted then Some(value) else None
  }

  /** The entries that are not a backend's, and the value each must have: every field that is set has its
      own entry, most of them only for secret mounts. */
  function Fields(spec: AgentSpec, url: string): map<string, Option<string>> {
    var mounts := spec.useSecretMounts == Some(true);
    map[DOWNLOAD_KEY := When(spec.downloadKey != "", spec.downloadKey),
        FILE_DOWNLOAD_KEY := When(mounts && spec.downloadKey != "", spec.downloadKey),
        FILE_PROXY_USER := When(mounts && spec.proxyUser != "", spec.proxyUser),
        FILE_PROXY_PASSWORD := When(mounts && spec.proxyPassword != "", spec.proxyPassword),
        FILE_RELEASE_USER := When(mounts && spec.releaseUser != "", spec.releaseUser),
        FILE_RELEASE_PASSWORD := When(mounts && spec.releasePassword != "", spec.releasePassword),
        FILE_SHARED_USER := When(mounts && spec.sharedUser != "", spec.sharedUser),
        FILE_SHARED_PASSWORD := When(mounts && spec.sharedPassword != "", spec.sharedPassword),
        FILE_HTTPS_PROXY := When(mounts && spec.proxyHost != "", url)]
  }

  /** All these names differ, so no write can overwrite another. */
  lemma FieldsHold(spec: AgentSpec, url: string)
    ensures var f, mounts := Fields(spec, url), spec.useSecretMounts == Some(true);
      && f.Keys == OTHER_KEYS
      && f[DOWNLOAD_KEY] == When(spec.downloadKey != "", spec.downloadKey)
      && f[FILE_DOWNLOAD_KEY] == When(mounts && spec.downloadKey != "", spec.downloadKey)
      && f[FILE_PROXY_USER] == When(mounts && spec.proxyUser != "", spec.proxyUser)
      && f[FILE_PROXY_PASSWORD] == When(mounts && spec.proxyPassword != "", spec.proxyPassword)
      && f[FILE_RELEASE_USER] == When(mounts && spec.releaseUser != "", spec.releaseUser)
      && f[FILE_RELEASE_PASSWORD] == When(mounts && spec.releasePassword != "", spec.releasePassword)
      && f[FILE_SHARED_USER] == When(mounts && spec.sharedUser != "", spec.sharedUser)
      && f[FILE_SHARED_PASSWORD] == When(mounts && spec.sharedPassword != "", spec.sharedPassword)
      && f[FILE_HTTPS_PROXY] == When(mounts && spec.proxyHost != "", url)
  {
  }

  /** Of these fields, exactly those that have a value are written, with it; nothing else is. */
  ghost predicate Written(data: SecretData, fields: map<string, Option<string>>, done: set<string>) {
    && data.Keys <= done <= fields.Keys
    && forall k :: k in done ==> if k in data then fields[k] == Some(data[k]) else fields[k] == None
  }

  ghost predicate HoldsFields(data: SecretData, fields: map<string, Option<string>>) {
    forall k :: k in fields ==> if k in data then fields[k] == Some(data[k]) else fields[k] == None
  }

  lemma WrittenAll(data: SecretData, fields: map<string, Option<string>>)
    requires Written(data, fields, fields.Keys)
    ensures HoldsFields(data, fields) && data.Keys <= fields.Keys
  {
  }

  method PutIf(data: SecretData, key: string, wanted: bool, value: string,
               ghost fields: map<string, Option<string>>, ghost done: set<string>)
    returns (r: SecretData)
    requires Written(data, fields, done) && key in fields && fields[key] == When(wanted, value)
    ensures Written(r, fields, done + {key})
  {
    r := data;
    if wanted { r := r[key := value]; }
  }

  method GetSecretBase(spec: AgentSpec, url: string) returns (data: SecretData)
    ensures data.Keys <= OTHER_KEYS && HoldsFields(data, Fields(spec, url))
  {
    ghost var f := Fields(spec, url);
    FieldsHold(spec, url);
    assert Written(map[], f, {});
    hide DOWNLOAD_KEY, FILE_DOWNLOAD_KEY, FILE_PROXY_USER, FILE_PROXY_PASSWORD, FILE_RELEASE_USER,
         FILE_RELEASE_PASSWORD, FILE_SHARED_USER, FILE_SHARED_PASSWORD, FILE_HTTPS_PROXY, Fields, When,
         Written, HoldsFields;
    var mounts := spec.useSecretMounts == Some(true);
    data := map[];
    ghost var done := {};
    data := PutIf(data, DOWNLOAD_KEY, spec.downloadKey != "", spec.downloadKey, f, done);
    done := done + {DOWNLOAD_KEY};
    data := PutIf(data, FILE_DOWNLOAD_KEY, mounts && spec.downloadKey != "", spec.downloadKey, f, done);
    done := done + {FILE_DOWNLOAD_KEY};
    data := PutIf(data, FILE_PROXY_USER, mounts && spec.proxyUser != "", spec.proxyUser, f, done);
    done := done + {FILE_PROXY_USER};
    data := PutIf(data, FILE_PROXY_PASSWORD, mounts && spec.proxyPassword != "", spec.proxyPassword, f, done);
    done := done + {FILE_PROXY_PASSWORD};
    data := PutIf(data, FILE_RELEASE_USER, mounts && spec.releaseUser != "", spec.releaseUser, f, done);
    done := done + {FILE_RELEASE_USER};
    data := PutIf(data, FILE_RELEASE_PASSWORD, mounts && spec.releasePassword != "", spec.releasePassword, f, done);
    done := done + {FILE_RELEASE_PASSWORD};
    data := PutIf(data, FILE_SHARED_USER, mounts && spec.sharedUser != "", spec.sharedUser, f, done);
    done := done + {FILE_SHARED_USER};
    data := PutIf(data, FILE_SHARED_PASSWORD, mounts && spec.sharedPassword != "", spec.sharedPassword, f, done);
    done := done + {FILE_SHARED_PASSWORD};
    data := PutIf(data, FILE_HTTPS_PROXY, mounts && spec.proxyHost != "", url, f, done);
    done := done + {FILE_HTTPS_PROXY};
    assert done == OTHER_KEYS;
    WrittenAll(data, f);
  }

  /** What a Secret says about one backend: its own key under both names, or nothing. */
  ghost predicate HoldsKeyOf(data: SecretData, b: Backend, mounts: bool) {
    && (AGENT_KEY + b.suffix in data <==> b.key != "")
    && (b.key != "" ==> data[AGENT_KEY + b.suffix] == b.key)
    && (FILE_AGENT_KEY + b.suffix in data <==> b.key != "" && mounts)
    && (b.key != "" && mounts ==> data[FILE_AGENT_KEY + b.suffix] == b.key)
  }

  /** The loop over the backends that both keys Secrets end with; nothing else is overwritten. */
  method AddBackendKeys(base: SecretData, bs: seq<Backend>, mounts: bool) returns (data: SecretData)
    requires forall s :: AGENT_KEY + s !in base && FILE_AGENT_KEY + s !in base
    ensures DistinctSuffixes(bs) ==> forall i :: 0 <= i < |bs| ==> HoldsKeyOf(data, bs[i], mounts)
    ensures forall k :: k in base ==> k in data && data[k] == base[k]
    ensures forall k :: k in OTHER_KEYS && k in data ==> k in base
  {
    data := base;
    for n := 0 to |bs|
      invariant DistinctSuffixes(bs) ==> forall i :: 0 <= i < n ==> HoldsKeyOf(data, bs[i], mounts)
      invariant DistinctSuffixes(bs) ==> forall i :: n <= i < |bs| ==>
        AGENT_KEY + bs[i].suffix !in data && FILE_AGENT_KEY + bs[i].suffix !in data
      invariant forall k :: k in base ==> k in data && data[k] == base[k]
      invariant forall k :: k in OTHER_KEYS && k in data ==> k in base
    {
      forall i | 0 <= i < |bs| && bs[i].suffix != bs[n].suffix
        ensures AGENT_KEY + bs[i].suffix != AGENT_KEY + bs[n].suffix
        ensures FILE_AGENT_KEY + bs[i].suffix != FILE_AGENT_KEY + bs[n].suffix
        ensures AGENT_KEY + bs[i].suffix != FILE_AGENT_KEY + bs[n].suffix
        ensures FILE_AGENT_KEY + bs[i].suffix != AGENT_KEY + bs[n].suffix
      {
        KeysDiffer(bs[i].suffix, bs[n].suffix);
      }
      BackendKeysApart(bs[n].suffix, bs[n].suffix);
      if bs[n].key != "" {
        data := data[AGENT_KEY + bs[n].suffix := bs[n].key];
        if mounts { data := data[FILE_AGENT_KEY + bs[n].suffix := bs[n].key]; }
      }
    }
  }

  lemma KeysDiffer(a: string, b: string)
    requires a != b
    ensures AGENT_KEY + a != AGENT_KEY + b && FILE_AGENT_KEY + a != FILE_AGENT_KEY + b
    ensures AGENT_KEY + a != FILE_AGENT_KEY + b && FILE_AGENT_KEY + a != AGENT_KEY + b
  {
    BackendKeysApart(a, b);
    BackendKeysApart(b, a);
    if AGENT_KEY + a == AGENT_KEY + b { PrefixedInjective(AGENT_KEY, a, b); }
    if FILE_AGENT_KEY + a == FILE_AGENT_KEY + b { PrefixedInjective(FILE_AGENT_KEY, a, b); }
  }

  /** `getData` of the agent's keys Secret. */
  method GetSecretData(spec: AgentSpec, bs: seq<Backend>, url: string) returns (data: SecretData)
    ensures DistinctSuffixes(bs) ==>
      forall i :: 0 <= i < |bs| ==> HoldsKeyOf(data, bs[i], spec.useSecretMounts == Some(true))
    ensures HoldsFields(data, Fields(spec, url))
  {
    var base := GetSecretBase(spec, url);
    forall s ensures AGENT_KEY + s !in base && FILE_AGENT_KEY + s !in base { BackendKeysApart(s, s); }
    data := AddBackendKeys(base, bs, spec.useSecretMounts == Some(true));
  }

  // ---- The Deployments ---------------------------------------------------------------------

  datatype Item = Item(key: string, path: string)

  datatype SecretVolume = SecretVolume(secret: string, items: seq<Item>, mountPath: string)

  /** `k8sensorSecretsVolume`. */
  method K8SensorSecretsVolume(spec: AgentSpec, suffix: string) returns (v: Option<SecretVolume>)
    ensures v.None? <==> spec.useSecretMounts == Some(false)
    ensures v.Some? ==>
      && v.value.secret == OrDefault(spec.keysSecret, spec.name) && v.value.mountPath == SECRETS_DIRECTORY
      && |v.value.items| == (if spec.proxyHost != "" then 2 else 1)
      && v.value.items[0] ==
         Item((if spec.keysSecret != "" then AGENT_KEY else FILE_AGENT_KEY) + suffix, FILE_AGENT_KEY + suffix)
      && (spec.proxyHost != "" ==>
            v.value.items[1] ==
            Item(if spec.keysSecret != "" then KEY_HTTPS_PROXY else FILE_HTTPS_PROXY, FILE_HTTPS_PROXY))
  {
    if spec.useSecretMounts == Some(false) { return None; }
    var secret := OrDefault(spec.keysSecret, spec.name);
    var agentKey, proxyKey := FILE_AGENT_KEY + suffix, FILE_HTTPS_PROXY;
    if spec.keysSecret != "" {
      agentKey, proxyKey := AGENT_KEY + suffix, KEY_HTTPS_PROXY;
    }
    var items := [Item(agentKey, FILE_AGENT_KEY + suffix)];
    if spec.proxyHost != "" {
      items := items + [Item(proxyKey, FILE_HTTPS_PROXY)];
    }
    v := Some(SecretVolume(secret, items, SECRETS_DIRECTORY));
  }

  /** `^[0-9]+s$`. */
  predicate ValidPollRate(s: string) {
    |s| >= 2 && s[|s| - 1] == 's' && forall i :: 0 <= i < |s| - 1 ==> IsDigit(s[i])
  }

  method GetK8SensorArgs(spec: AgentSpec, suffix: string) returns (args: seq<string>)
    ensures |args| >= 2 && args[0] == "-pollrate" && ValidPollRate(args[1])
    ensures ValidPollRate(spec.pollRate) ==> args[1] == spec.pollRate
    ensures spec.useSecretMounts == Some(false) <==> |args| == 2
    ensures spec.useSecretMounts != Some(false) ==>
      && |args| == (if spec.proxyHost != "" then 6 else 4)
      && args[2] == "-agent-key-file" && args[3] == SECRETS_DIRECTORY + "/" + FILE_AGENT_KEY + suffix
      && (spec.proxyHost != "" ==>
            args[4] == "-https-proxy-file" && args[5] == SECRETS_DIRECTORY + "/" + FILE_HTTPS_PROXY)
  {
    var pollRate := "10s";
    if spec.pollRate != "" && ValidPollRate(spec.pollRate) { pollRate := spec.pollRate; }
    args := ["-pollrate", pollRate];
    if spec.useSecretMounts != Some(false) {
      args := args + ["-agent-key-file", SECRETS_DIRECTORY + "/" + (FILE_AGENT_KEY + suffix)];
      if spec.proxyHost != "" {
        args := args + ["-https-proxy-file", SECRETS_DIRECTORY + "/" + FILE_HTTPS_PROXY];
      }
    }
  }

  /** A reference to a key of a ConfigMap or Secret. */
  datatype KeyRef = KeyRef(resource: string, key: string)

  datatype Sensor = Sensor(name: string, backendRef: KeyRef, agentKeyRef: Option<KeyRef>, args: seq<string>,
                           secrets: Option<SecretVolume>)

  /** The text of the mounted file at `path`, given the Secret that the volume names. */
  ghost predicate FileHas(v: Option<SecretVolume>, secret: string, data: SecretData, path: string, text: string) {
    v.Some? && v.value.secret == secret &&
    exists i :: 0 <= i < |v.value.items| && path == v.value.mountPath + "/" + v.value.items[i].path
                && v.value.items[i].key in data && data[v.value.items[i].key] == text
  }

  function SensorName(spec: AgentSpec): string { spec.name + "-k8sensor" }

  /** The Deployment of one backend, as far as it refers to others. */
  method BuildSensor(spec: AgentSpec, b: Backend, ghost secret: SecretData, ghost url: string) returns (s: Sensor)
    requires HoldsKeyOf(secret, b, spec.useSecretMounts == Some(true))
    requires HoldsFields(secret, Fields(spec, url))
    ensures s.name == SensorName(spec) + b.suffix && s.backendRef == KeyRef(SensorName(spec), BACKEND_KEY + b.suffix)
    ensures Wired(spec, b, s, secret, url) && WiredToKeys(spec, b, s)
  {
    var volume := K8SensorSecretsVolume(spec, b.suffix);
    var args := GetK8SensorArgs(spec, b.suffix);
    var agentKeyRef := None;
    if spec.useSecretMounts == Some(false) {
      agentKeyRef := Some(KeyRef(OrDefault(spec.keysSecret, spec.name), AGENT_KEY + b.suffix));
    }
    var backendRef := KeyRef(SensorName(spec), BACKEND_KEY + b.suffix);
    s := Sensor(SensorName(spec) + b.suffix, backendRef, agentKeyRef, args, volume);
    ProxyPathApart(b.suffix);
    if volume.Some? {
      var v := volume.value;
      assert v.mountPath + "/" + v.items[0].path == args[3];
      assert spec.proxyHost != "" ==> v.mountPath + "/" + v.items[1].path == args[5] != args[3];
    }
  }

  ghost function KeyFile(s: Sensor): string {
    if |s.args| >= 4 then s.args[3] else ""
  }

  lemma ProxyPathApart(suffix: string)
    ensures SECRETS_DIRECTORY + "/" + FILE_AGENT_KEY + suffix == SECRETS_DIRECTORY + "/" + (FILE_AGENT_KEY + suffix)
    ensures SECRETS_DIRECTORY + "/" + (FILE_AGENT_KEY + suffix) != SECRETS_DIRECTORY + "/" + FILE_HTTPS_PROXY
  {
  }

  /** All objects of the sensors together, for every spec and any number of backends: distinct names, each
      backend reference resolves to its own endpoint, and each sensor gets its own backend's key. */
  method BuildSensors(spec: AgentSpec, url: string)
    returns (bs: seq<Backend>, configMap: map<string, string>, secret: SecretData, sensors: seq<Sensor>)
    ensures AreBackends(spec.key, spec.host, spec.port, spec.additional, bs)
    ensures |sensors| == |bs|
    ensures forall i, j :: 0 <= i < j < |sensors| ==> sensors[i].name != sensors[j].name
    ensures forall i :: 0 <= i < |sensors| ==>
      && sensors[i].backendRef.resource == SensorName(spec) && sensors[i].backendRef.key in configMap
      && configMap[sensors[i].backendRef.key] == bs[i].host + ":" + bs[i].port
    ensures forall i :: 0 <= i < |sensors| ==> Wired(spec, bs[i], sensors[i], secret, url)
    ensures forall i :: 0 <= i < |sensors| ==> WiredToKeys(spec, bs[i], sensors[i])
    ensures HoldsFields(secret, Fields(spec, url))
  {
    hide Wired, WiredToKeys, HoldsFields, BACKEND_KEY, FILE_HTTPS_PROXY, AGENT_KEY, FILE_AGENT_KEY, SensorName,
         AreBackends;
    bs := GetBackends(spec.key, spec.host, spec.port, spec.additional);
    configMap := GetConfigMapData(bs);
    secret := GetSecretData(spec, bs, url);
    sensors := [];
    for n := 0 to |bs|
      invariant |sensors| == n
      invariant forall i :: 0 <= i < n ==> sensors[i].name == SensorName(spec) + bs[i].suffix
      invariant forall i :: 0 <= i < n ==> sensors[i].backendRef == KeyRef(SensorName(spec), BACKEND_KEY + bs[i].suffix)
      invariant forall i :: 0 <= i < n ==> Wired(spec, bs[i], sensors[i], secret, url)
      invariant forall i :: 0 <= i < n ==> WiredToKeys(spec, bs[i], sensors[i])
    {
      var s := BuildSensor(spec, bs[n], secret, url);
      sensors := sensors + [s];
    }
    forall i, j | 0 <= i < j < |sensors| ensures sensors[i].name != sensors[j].name {
      if sensors[i].name == sensors[j].name { PrefixedInjective(SensorName(spec), bs[i].suffix, bs[j].suffix); }
    }
  }

  /** Which entry of which Secret the sensor's key comes from, whatever that Secret holds: with mounts the key file is
      the user's own entry for that backend; without them a variable refers to the entry of the same name. */
  ghost predicate WiredToKeys(spec: AgentSpec, b: Backend, s: Sensor) {
    && (spec.keysSecret != "" && spec.useSecretMounts != Some(false) ==> forall data: SecretData, text ::
          FileHas(s.secrets, spec.keysSecret, data, KeyFile(s), text) <==>
            AGENT_KEY + b.suffix in data && data[AGENT_KEY + b.suffix] == text)
    && s.agentKeyRef ==
       if spec.useSecretMounts == Some(false)
       then Some(KeyRef(if spec.keysSecret != "" then spec.keysSecret else spec.name, AGENT_KEY + b.suffix))
       else None
  }

  /** Without a user-provided Secret: the key file of the sensor holds its own backend's key exactly if that
      key is set and secret mounts are set to true, as defaulting makes them; with mounts set to false its
      key variable refers to that key instead; and the proxy file holds the proxy URL. */
  ghost predicate Wired(spec: AgentSpec, b: Backend, s: Sensor, secret: SecretData, url: string) {
    spec.keysSecret == "" ==>
      && (spec.useSecretMounts != Some(false) ==> forall text ::
            FileHas(s.secrets, spec.name, secret, KeyFile(s), text) <==>
              b.key != "" && spec.useSecretMounts == Some(true) && text == b.key)
      && (spec.useSecretMounts == Some(false) ==>
            && s.agentKeyRef == Some(KeyRef(spec.name, AGENT_KEY + b.suffix))
            && HoldsKeyOf(secret, b, false))
      && (spec.useSecretMounts == Some(true) && spec.proxyHost != "" ==>
            |s.args| == 6 && FileHas(s.secrets, spec.name, secret, s.args[5], url))
  }
}
