/** The remote agent: its keys Secret against the volume that mounts it, and its host name. */
module Remote {
  import opened Text
  import opened Wrappers
  import opened Backends

  // ---- Secret integrity --------------------------------------------------------------------

  const KEY_PROXY_USER := "proxyUser"
  const KEY_PROXY_PASSWORD := "proxyPassword"
  const KEY_RELEASE_USER := "mirrorReleaseRepoUsername"
  const KEY_RELEASE_PASSWORD := "mirrorReleaseRepoPassword"
  const KEY_SHARED_USER := "mirrorSharedRepoUsername"
  const KEY_SHARED_PASSWORD := "mirrorSharedRepoPassword"

  datatype RemoteSpec = RemoteSpec(
    name: string, zone: string, key: string, downloadKey: string, keysSecret: string, host: string, port: string,
    additional: seq<AdditionalBackend>, useSecretMounts: Option<bool>,
    proxyProtocol: string, proxyHost: string, proxyPort: string, proxyUser: string, proxyPassword: string,
    releaseUser: string, releasePassword: string, sharedUser: string, sharedPassword: string)
  {
    /** When `Build` yields a Deployment; the remote builder never has a zone of its own. */
    predicate Deployed() {
      !(key == "" && keysSecret == "") && zone != ""
    }

    predicate Mounts() { useSecretMounts != Some(false) }
  }

  /** The value the resource gives for each file of the secrets directory. */
  function SpecValue(spec: RemoteSpec, url: string, path: string): string {
    if path == FILE_AGENT_KEY then spec.key
    else if path == FILE_DOWNLOAD_KEY then spec.downloadKey
    else if path == FILE_PROXY_USER then spec.proxyUser
    else if path == FILE_PROXY_PASSWORD then spec.proxyPassword
    else if path == FILE_HTTPS_PROXY then url
    else if path == FILE_RELEASE_USER then spec.releaseUser
    else if path == FILE_RELEASE_PASSWORD then spec.releasePassword
    else if path == FILE_SHARED_USER then spec.sharedUser
    else if path == FILE_SHARED_PASSWORD then spec.sharedPassword
    else ""
  }

  function HttpsProxyValue(spec: RemoteSpec, userinfo: (string, string) -> string): string {
    if spec.proxyHost == "" then ""
    else ProxyUrl(spec.proxyProtocol, spec.proxyHost, spec.proxyPort, spec.proxyUser, spec.proxyPassword, userinfo)
  }

  /** The entries that are not a backend's, and the value each must have. */
  function Entries(spec: RemoteSpec, url: string): map<string, string> {
    map[DOWNLOAD_KEY := spec.downloadKey, FILE_DOWNLOAD_KEY := spec.downloadKey,
        KEY_PROXY_USER := spec.proxyUser, KEY_PROXY_PASSWORD := spec.proxyPassword,
        KEY_RELEASE_USER := spec.releaseUser, KEY_RELEASE_PASSWORD := spec.releasePassword,
        KEY_SHARED_USER := spec.sharedUser, KEY_SHARED_PASSWORD := spec.sharedPassword,
        KEY_HTTPS_PROXY := url]
  }

  /** Every entry written so far has its value, and each non-empty value up to here is written. */
  ghost predicate Holding(data: SecretData, entries: map<string, string>) {
    forall k :: k in data ==> k in entries && data[k] == entries[k] && entries[k] != ""
  }

  method PutIfPresent(data: SecretData, key: string, value: string, ghost entries: map<string, string>)
    returns (r: SecretData)
    requires Holding(data, entries) && key in entries && entries[key] == value
    ensures Holding(r, entries) && data.Keys <= r.Keys && (key in r <==> key in data || value != "")
  {
    r := if value != "" then data[key := value] else data;
  }

  /** All these names differ, so no write can overwrite another. */
  lemma EntriesHold(spec: RemoteSpec, url: string)
    ensures var e := Entries(spec, url);
      && e.Keys == {DOWNLOAD_KEY, FILE_DOWNLOAD_KEY, KEY_PROXY_USER, KEY_PROXY_PASSWORD, KEY_RELEASE_USER,
                    KEY_RELEASE_PASSWORD, KEY_SHARED_USER, KEY_SHARED_PASSWORD, KEY_HTTPS_PROXY}
      && e[DOWNLOAD_KEY] == e[FILE_DOWNLOAD_KEY] == spec.downloadKey
      && e[KEY_PROXY_USER] == spec.proxyUser && e[KEY_PROXY_PASSWORD] == spec.proxyPassword
      && e[KEY_RELEASE_USER] == spec.releaseUser && e[KEY_RELEASE_PASSWORD] == spec.releasePassword
      && e[KEY_SHARED_USER] == spec.sharedUser && e[KEY_SHARED_PASSWORD] == spec.sharedPassword
      && e[KEY_HTTPS_PROXY] == url
  {
  }

  method GetBase(spec: RemoteSpec, url: string) returns (data: SecretData)
    ensures Holding(data, Entries(spec, url))
    ensures spec.downloadKey != "" ==> DOWNLOAD_KEY in data
    ensures spec.Mounts() ==> forall k :: k in Entries(spec, url) && Entries(spec, url)[k] != "" ==> k in data
  {
    ghost var entries := Entries(spec, url);
    EntriesHold(spec, url);
    hide DOWNLOAD_KEY, FILE_DOWNLOAD_KEY, KEY_PROXY_USER, KEY_PROXY_PASSWORD, KEY_RELEASE_USER, KEY_RELEASE_PASSWORD,
         KEY_SHARED_USER, KEY_SHARED_PASSWORD, KEY_HTTPS_PROXY, Entries;
    data := PutIfPresent(map[], DOWNLOAD_KEY, spec.downloadKey, entries);
    if spec.Mounts() {
      data := PutIfPresent(data, FILE_DOWNLOAD_KEY, spec.downloadKey, entries);
      data := PutIfPresent(data, KEY_PROXY_USER, spec.proxyUser, entries);
      data := PutIfPresent(data, KEY_PROXY_PASSWORD, spec.proxyPassword, entries);
      data := PutIfPresent(data, KEY_RELEASE_USER, spec.releaseUser, entries);
      data := PutIfPresent(data, KEY_RELEASE_PASSWORD, spec.releasePassword, entries);
      data := PutIfPresent(data, KEY_SHARED_USER, spec.sharedUser, entries);
      data := PutIfPresent(data, KEY_SHARED_PASSWORD, spec.sharedPassword, entries);
      data := PutIfPresent(data, KEY_HTTPS_PROXY, url, entries);
    }
  }

  /** No backend key takes the name of another entry, whatever the suffix. */
  lemma RemoteKeysApart(spec: RemoteSpec, url: string, s: string)
    ensures AGENT_KEY + s !in Entries(spec, url) && FILE_AGENT_KEY + s !in Entries(spec, url)
  {
    EntriesHold(spec, url);
    BackendKeysApart(s, s);
    var k, f := AGENT_KEY + s, FILE_AGENT_KEY + s;
    assert k[0] == 'k' && f[0] == 'I';
    assert KEY_PROXY_USER[0] == KEY_PROXY_PASSWORD[0] == 'p' && KEY_HTTPS_PROXY[0] == 'h';
    assert KEY_RELEASE_USER[0] == KEY_RELEASE_PASSWORD[0] == KEY_SHARED_USER[0] == KEY_SHARED_PASSWORD[0] == 'm';
    hide DOWNLOAD_KEY, FILE_DOWNLOAD_KEY, KEY_PROXY_USER, KEY_PROXY_PASSWORD, KEY_RELEASE_USER, KEY_RELEASE_PASSWORD,
         KEY_SHARED_USER, KEY_SHARED_PASSWORD, KEY_HTTPS_PROXY, AGENT_KEY, FILE_AGENT_KEY;
  }

  /** `getData` of the remote keys Secret: every non-empty value is there and nothing overwrites it. */
  method GetData(spec: RemoteSpec, bs: seq<Backend>, url: string) returns (data: SecretData)
    ensures DistinctSuffixes(bs) ==> forall i :: 0 <= i < |bs| ==> HoldsKeyOf(data, bs[i], spec.Mounts())
    ensures spec.Mounts() ==> forall k :: k in Entries(spec, url) && Entries(spec, url)[k] != "" ==>
      k in data && data[k] == Entries(spec, url)[k]
  {
    hide HoldsKeyOf, Entries, AGENT_KEY, FILE_AGENT_KEY;
    var base := GetBase(spec, url);
    forall s ensures AGENT_KEY + s !in base && FILE_AGENT_KEY + s !in base { RemoteKeysApart(spec, url, s); }
    data := AddBackendKeys(base, bs, spec.Mounts());
  }

  /** An item maps an entry to the file for which the resource gives that entry's value. */
  ghost predicate Maps(spec: RemoteSpec, url: string, item: Item) {
    if item.key == AGENT_KEY then item.path == FILE_AGENT_KEY
    else item.key in Entries(spec, url) && Entries(spec, url)[item.key] != ""
         && SpecValue(spec, url, item.path) == Entries(spec, url)[item.key]
  }

  /** The files of the secrets directory that the resource asks for, each with the entry behind it. */
  ghost predicate Needed(spec: RemoteSpec, item: Item) {
    || item == Item(AGENT_KEY, FILE_AGENT_KEY)
    || (item == Item(DOWNLOAD_KEY, FILE_DOWNLOAD_KEY) && spec.downloadKey != "")
    || (item == Item(KEY_PROXY_USER, FILE_PROXY_USER) && spec.proxyHost != "" && spec.proxyUser != "")
    || (item == Item(KEY_PROXY_PASSWORD, FILE_PROXY_PASSWORD) && spec.proxyHost != "" && spec.proxyPassword != "")
    || (item == Item(KEY_HTTPS_PROXY, FILE_HTTPS_PROXY) && spec.proxyHost != "")
    || (item == Item(KEY_RELEASE_USER, FILE_RELEASE_USER) && spec.releaseUser != "")
    || (item == Item(KEY_RELEASE_PASSWORD, FILE_RELEASE_PASSWORD) && spec.releasePassword != "")
    || (item == Item(KEY_SHARED_USER, FILE_SHARED_USER) && spec.sharedUser != "")
    || (item == Item(KEY_SHARED_PASSWORD, FILE_SHARED_PASSWORD) && spec.sharedPassword != "")
  }

  lemma NeededMaps(spec: RemoteSpec, userinfo: (string, string) -> string, item: Item)
    requires Needed(spec, item)
    ensures Maps(spec, HttpsProxyValue(spec, userinfo), item)
  {
  }

  method AppendIf(items: seq<Item>, wanted: bool, item: Item) returns (r: seq<Item>)
    ensures forall i :: i in r <==> i in items || (wanted && i == item)
  {
    r := if wanted then items + [item] else items;
  }

  /** `secretsVolume` of the remote agent: exactly the needed files. */
  method SecretsVolume(spec: RemoteSpec) returns (v: Option<SecretVolume>)
    ensures v.None? <==> !spec.Mounts()
    ensures v.Some? ==>
      v.value.secret == OrDefault(spec.keysSecret, spec.name) && v.value.mountPath == SECRETS_DIRECTORY
    ensures v.Some? ==> forall i :: i in v.value.items <==> Needed(spec, i)
  {
    hide DOWNLOAD_KEY, FILE_DOWNLOAD_KEY, KEY_PROXY_USER, KEY_PROXY_PASSWORD, KEY_RELEASE_USER, KEY_RELEASE_PASSWORD,
         KEY_SHARED_USER, KEY_SHARED_PASSWORD, KEY_HTTPS_PROXY, AGENT_KEY, FILE_AGENT_KEY, FILE_PROXY_USER,
         FILE_PROXY_PASSWORD, FILE_HTTPS_PROXY, FILE_RELEASE_USER, FILE_RELEASE_PASSWORD, FILE_SHARED_USER,
         FILE_SHARED_PASSWORD, SECRETS_DIRECTORY;
    if !spec.Mounts() { return None; }
    var secret := spec.keysSecret;
    if secret == "" { secret := spec.name; }
    var items := [Item(AGENT_KEY, FILE_AGENT_KEY)];
    items := AppendIf(items, spec.downloadKey != "", Item(DOWNLOAD_KEY, FILE_DOWNLOAD_KEY));
    items := AppendIf(items, spec.proxyHost != "" && spec.proxyUser != "", Item(KEY_PROXY_USER, FILE_PROXY_USER));
    items := AppendIf(items, spec.proxyHost != "" && spec.proxyPassword != "",
                      Item(KEY_PROXY_PASSWORD, FILE_PROXY_PASSWORD));
    items := AppendIf(items, spec.proxyHost != "", Item(KEY_HTTPS_PROXY, FILE_HTTPS_PROXY));
    items := AppendIf(items, spec.releaseUser != "", Item(KEY_RELEASE_USER, FILE_RELEASE_USER));
    items := AppendIf(items, spec.releasePassword != "", Item(KEY_RELEASE_PASSWORD, FILE_RELEASE_PASSWORD));
    items := AppendIf(items, spec.sharedUser != "", Item(KEY_SHARED_USER, FILE_SHARED_USER));
    items := AppendIf(items, spec.sharedPassword != "", Item(KEY_SHARED_PASSWORD, FILE_SHARED_PASSWORD));
    v := Some(SecretVolume(secret, items, SECRETS_DIRECTORY));
  }

  /** Whenever the remote Deployment is built without a user-provided Secret, every entry its mandatory
      volume lists exists in the built Secret, with the value the resource gives for that file. */
  method BuildRemote(spec: RemoteSpec, userinfo: (string, string) -> string)
    returns (data: SecretData, v: Option<SecretVolume>)
    ensures spec.keysSecret == "" && spec.Deployed() && v.Some? ==>
      && v.value.secret == spec.name
      && forall i :: i in v.value.items ==>
           i.key in data && data[i.key] == SpecValue(spec, HttpsProxyValue(spec, userinfo), i.path) && data[i.key] != ""
    ensures v.Some? <==> spec.Mounts()
    ensures v.Some? ==> forall i :: Needed(spec, i) ==> i in v.value.items
  {
    hide Needed, Entries, HttpsProxyValue, AGENT_KEY, FILE_AGENT_KEY;
    var url := HttpsProxyValue(spec, userinfo);
    var bs := GetBackends(spec.key, spec.host, spec.port, spec.additional);
    data := GetData(spec, bs, url);
    v := SecretsVolume(spec);
    if spec.keysSecret == "" && spec.Deployed() && v.Some? {
      assert HoldsKeyOf(data, bs[0], true) && bs[0].suffix == "" && AGENT_KEY + "" == AGENT_KEY;
      forall i | i in v.value.items
        ensures i.key in data && data[i.key] == SpecValue(spec, url, i.path) && data[i.key] != ""
      {
        NeededMaps(spec, userinfo, i);
      }
    }
  }

  // ---- Host name ---------------------------------------------------------------------------

  predicate IsAlphanumeric(c: char) { 'a' <= c <= 'z' || '0' <= c <= '9' }

  predicate IsHostChar(c: char) { IsAlphanumeric(c) || c == '-' }

  /** A label of section 2.1 of RFC 1123, in lower case: 1 to 63 letters, digits and hyphens, no hyphen at
      either end. */
  predicate IsLabel(s: string) {
    && 1 <= |s| <= 63 && (forall i :: 0 <= i < |s| ==> IsHostChar(s[i]))
    && IsAlphanumeric(s[0]) && IsAlphanumeric(s[|s| - 1])
  }

  /** What is known of `unicode.ToLower`: on ASCII it lowers the letters and keeps the rest. */
  ghost predicate LowersAscii(lower: char -> char) {
    forall c: char :: c < 128 as char ==>
      lower(c) == if 'A' <= c <= 'Z' then (c as int + 32) as char else c
  }

  function Mapped(s: string, f: char -> char): (r: string)
    ensures |r| == |s| && forall i :: 0 <= i < |s| ==> r[i] == f(s[i])
  {
    if s == "" then "" else [f(s[0])] + Mapped(s[1..], f)
  }

  /** Lower case, then a hyphen for every character that a host name cannot hold. */
  function Cleaned(hostname: string, lower: char -> char): string {
    Mapped(Mapped(hostname, lower), c => if IsHostChar(c) then c else '-')
  }

  lemma CleanedLabel(hostname: string, lower: char -> char)
    ensures |Cleaned(hostname, lower)| == |hostname|
    ensures forall i :: 0 <= i < |hostname| ==> IsHostChar(Cleaned(hostname, lower)[i])
    ensures LowersAscii(lower) && IsLabel(hostname) ==> Cleaned(hostname, lower) == hostname
  {
  }

  /** `h` is the cleaned name behind an "a" if it starts with a hyphen, cut at 63 characters, with a "0"
      for or after a final hyphen. */
  ghost predicate Resembles(h: string, c: string) {
    c != "" &&
    var lead := if IsAlphanumeric(c[0]) then 0 else 1;
    var length := |c| + lead + if IsAlphanumeric(c[|c| - 1]) then 0 else 1;
    && |h| == (if length > 63 then 63 else length)
    && (lead == 1 ==> h[0] == 'a') && (|h| > |c| + lead ==> h[|c| + lead] == '0')
    && forall i :: lead <= i < |h| && i - lead < |c| ==>
         h[i] == c[i - lead] || (i == |h| - 1 && h[i] == '0' && !IsAlphanumeric(c[i - lead]))
  }

  /** What every character becomes, and the ends: a character stays as its lower case if a host name can hold that,
      and becomes a hyphen if not; an "a" leads if the first one is no letter or digit; a "0" stands after a
      last one that is neither, or in its place where the name is cut at 63 characters. */
  ghost predicate Keeps(h: string, hostname: string, lower: char -> char) {
    hostname != "" &&
    var lead := if IsAlphanumeric(lower(hostname[0])) then 0 else 1;
    var length := |hostname| + lead + if IsAlphanumeric(lower(hostname[|hostname| - 1])) then 0 else 1;
    && |h| == (if length > 63 then 63 else length)
    && (lead == 1 ==> h[0] == 'a') && (|h| > |hostname| + lead ==> h[|hostname| + lead] == '0')
    && forall i :: lead <= i < |h| && i - lead < |hostname| ==>
         var c := lower(hostname[i - lead]);
         || h[i] == (if IsHostChar(c) then c else '-')
         || (i == |h| - 1 && h[i] == '0' && !IsAlphanumeric(c))
  }

  lemma ResemblesKeeps(h: string, hostname: string, lower: char -> char)
    requires Resembles(h, Cleaned(hostname, lower))
    ensures Keeps(h, hostname, lower)
  {
    hide Cleaned, IsAlphanumeric, IsHostChar;
    CleanedAt(hostname, lower);
    var c := Cleaned(hostname, lower);
    var lead := if IsAlphanumeric(c[0]) then 0 else 1;
    forall i | lead <= i < |h| && i - lead < |hostname|
      ensures var d := lower(hostname[i - lead]);
        h[i] == (if IsHostChar(d) then d else '-') || (i == |h| - 1 && h[i] == '0' && !IsAlphanumeric(d))
    {
      assert c[i - lead] == if IsHostChar(lower(hostname[i - lead])) then lower(hostname[i - lead]) else '-';
    }
  }

  lemma CleanedAt(hostname: string, lower: char -> char)
    ensures |Cleaned(hostname, lower)| == |hostname|
    ensures forall i :: 0 <= i < |hostname| ==>
      Cleaned(hostname, lower)[i] == if IsHostChar(lower(hostname[i])) then lower(hostname[i]) else '-'
    ensures forall i :: 0 <= i < |hostname| ==>
      (IsAlphanumeric(Cleaned(hostname, lower)[i]) <==> IsAlphanumeric(lower(hostname[i])))
  {
  }

  predicate IsAsciiAlphanumeric(c: char) {
    'a' <= c <= 'z' || 'A' <= c <= 'Z' || '0' <= c <= '9'
  }

  /** A name of letters and digits becomes its lower case. */
  lemma KeepsAlphanumeric(h: string, hostname: string, lower: char -> char)
    requires Keeps(h, hostname, lower) && LowersAscii(lower) && |hostname| <= 63
    requires forall i :: 0 <= i < |hostname| ==> IsAsciiAlphanumeric(hostname[i])
    ensures |h| == |hostname| && forall i :: 0 <= i < |h| ==>
      h[i] == if 'A' <= hostname[i] <= 'Z' then (hostname[i] as int + 32) as char else hostname[i]
  {
    assert forall i :: 0 <= i < |hostname| ==> IsAlphanumeric(lower(hostname[i]));
  }

  /** `e` is the cleaned name between an "a" if it starts with a hyphen and a "0" if it ends with one. */
  ghost predicate Framed(e: string, c: string) {
    c != "" && (forall i :: 0 <= i < |c| ==> IsHostChar(c[i])) &&
    e == (if IsAlphanumeric(c[0]) then "" else "a") + c + (if IsAlphanumeric(c[|c| - 1]) then "" else "0")
  }

  lemma FramedLabel(e: string, c: string, h: string)
    requires Framed(e, c)
    requires if |e| <= 63 then h == e
             else h == if IsAlphanumeric(e[..63][62]) then e[..63] else e[..63][..62] + "0"
    ensures IsLabel(h) && Resembles(h, c)
    ensures IsLabel(c) ==> h == c
  {
  }

  lemma FramedStages(c: string, led: string, e: string)
    requires c != "" && forall i :: 0 <= i < |c| ==> IsHostChar(c[i])
    requires led == if IsAlphanumeric(c[0]) then c else "a" + c
    requires e == if IsAlphanumeric(led[|led| - 1]) then led else led + "0"
    ensures Framed(e, c)
  {
  }

  /** `sanitizeHostname`: an empty name stays empty, and every other one becomes a label. */
  method SanitizeHostname(hostname: string, lower: char -> char) returns (h: string)
    ensures hostname == "" <==> h == ""
    ensures hostname != "" ==> IsLabel(h) && Keeps(h, hostname, lower)
    ensures LowersAscii(lower) && IsLabel(hostname) ==> h == hostname
  {
    h := Cleaned(hostname, lower);
    ghost var c := h;
    CleanedLabel(hostname, lower);
    hide Mapped, LowersAscii, Cleaned, IsAlphanumeric, IsLabel, Resembles, IsHostChar, Keeps;
    if |h| > 0 && !IsAlphanumeric(h[0]) {
      h := "a" + h;
    }
    ghost var led := h;
    if |h| > 0 && !IsAlphanumeric(h[|h| - 1]) {
      h := h + "0";
    }
    ghost var e := h;
    if c != "" { FramedStages(c, led, e); }
    hide Framed;
    if |h| > 63 {
      h := h[..63];
      if !IsAlphanumeric(h[62]) {
        h := h[..62] + "0";
      }
    }
    if c != "" {
      FramedLabel(e, c, h);
      ResemblesKeeps(h, hostname, lower);
    }
  }

  /** Sanitizing again changes nothing. */
  method SanitizeTwice(hostname: string, lower: char -> char) returns (once: string, twice: string)
    ensures LowersAscii(lower) ==> twice == once
  {
    once := SanitizeHostname(hostname, lower);
    twice := SanitizeHostname(once, lower);
  }
}
