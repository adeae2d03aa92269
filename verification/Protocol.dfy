/** The dependents protocol as a step machine. Its state is what the API server stores: the objects
    that were applied, the `<cr>-dependents` ConfigMap and the custom resource. Every step is one
    API call of the operator or one move of the environment. The guards say what an operator must
    know before each call; the methods of the other modules are shown to respect them. */
module Protocol {
  import opened Identity
  import opened Text
  import opened Wrappers

  const FINALIZER_V1 := "agent.instana.io/finalizer"
  const FINALIZER_V3 := "v3.agent.instana.io/finalizer"

  // ---- Record keys -------------------------------------------------------------------------

  /** What a record belongs to: an operator version and a generation of the resource. */
  datatype Generation = Generation(version: string, number: nat)

  /** `getCurrentGenKey`: `version_generation`. */
  function GenKey(g: Generation): string {
    g.version + "_" + Itoa(g.number)
  }

  function Dirty(key: string): string { key + "-dirty" }

  /** Only the operator writes keys of this form. */
  predicate Owned(key: string) { '_' in key }

  lemma GenKeyOwned(g: Generation)
    ensures Owned(GenKey(g)) && Owned(Dirty(GenKey(g)))
  {
  }

  lemma GenKeyInjective(g: Generation, h: Generation)
    requires GenKey(g) == GenKey(h)
    ensures g == h
  {
    UnderscoreIsLast(g, h);
    UnderscoreIsLast(h, g);
    var k := GenKey(g);
    assert g.version == k[..|g.version|] && h.version == k[..|h.version|];
    assert Itoa(g.number) == k[|g.version| + 1..] && Itoa(h.number) == k[|h.version| + 1..];
    ItoaInjective(g.number, h.number);
  }

  lemma UnderscoreIsLast(g: Generation, h: Generation)
    requires GenKey(g) == GenKey(h)
    ensures |g.version| >= |h.version|
  {
    ItoaDigits(g.number);
    var k := GenKey(g);
    assert forall n :: |g.version| < n < |k| ==> k[n] == Itoa(g.number)[n - |g.version| - 1];
    assert k[|h.version|] == '_' && !IsDigit('_');
  }

  /** A generation key never collides with a dirty slot, of its own generation or of another. */
  lemma GenKeyNotDirty(g: Generation, key: string)
    ensures GenKey(g) != Dirty(key)
  {
    ItoaDigits(g.number);
    var k := GenKey(g);
    assert k[|k| - 1] == Itoa(g.number)[|Itoa(g.number)| - 1];
    assert Dirty(key)[|Dirty(key)| - 1] == 'y';
  }

  lemma DirtyInjective(a: string, b: string)
    requires Dirty(a) == Dirty(b)
    ensures a == b
  {
    assert a == Dirty(a)[..|Dirty(a)| - 6] == b;
  }

  // ---- State -------------------------------------------------------------------------------

  type Records = map<string, seq<Ident>>

  datatype ConfigMap = ConfigMap(rv: nat, data: Records)

  datatype CustomResource = CustomResource(finalizers: seq<string>, deleting: bool, generation: nat)

  /** `seen` is the resource as the current reconcile read it. The rest is history that the results
      depend on: `unrecorded` are the generations whose last update used up its attempts, `uncleaned`
      says that the last clean-up of everything did, and `tampered` that somebody else wrote a record of
      the operator. */
  datatype World = World(
    live: set<ObjectId>, cm: Option<ConfigMap>, cr: Option<CustomResource>, seen: Option<CustomResource>,
    unrecorded: set<Generation>, uncleaned: bool, tampered: bool)

  /** What the code relies on: the objects built are a function of operator version and generation,
      and every object keeps one API version. */
  datatype Setting = Setting(built: Generation -> seq<Ident>, versionOf: ObjectId -> string) {
    predicate Canonical(o: Ident) { o.version == versionOf(o.Id()) }

    predicate AllCanonical(objects: seq<Ident>) { forall o :: o in objects ==> Canonical(o) }

    ghost predicate Good() { forall g :: AllCanonical(built(g)) }

    predicate CanonicalRecords(data: Records) { forall k :: k in data ==> AllCanonical(data[k]) }

    /** An entry of a generation, dirty or not, lists only what that generation builds. */
    ghost predicate InScope(key: string, objects: seq<Ident>) {
      forall g :: key == GenKey(g) || key == Dirty(GenKey(g)) ==> forall o :: o in objects ==> o in built(g)
    }

    ghost predicate AllInScope(data: Records) { forall k :: k in data ==> InScope(k, data[k]) }
  }

  /** The lemma that lets "function of version and generation" become "function of the key". */
  lemma BuiltInScope(st: Setting, g: Generation)
    ensures st.InScope(GenKey(g), st.built(g))
  {
    forall h | GenKey(g) == GenKey(h) || GenKey(g) == Dirty(GenKey(h)) ensures g == h {
      GenKeyNotDirty(g, GenKey(h));
      GenKeyInjective(g, h);
    }
  }

  predicate HoldsV3(s: World) { s.cr.Some? && FINALIZER_V3 in s.cr.value.finalizers }

  ghost predicate Covers(data: Records, x: ObjectId) {
    exists k :: k in data && Owned(k) && x in Ids(data[k])
  }

  /** The object belongs to a generation whose update gave up. */
  ghost predicate Lost(st: Setting, unrecorded: set<Generation>, x: ObjectId) {
    exists g :: g in unrecorded && x in Ids(st.built(g))
  }

  function Stored(s: World): Records {
    if s.cm.Some? then s.cm.value.data else map[]
  }

  /** No orphan: every live object is listed in a record of the operator. */
  ghost predicate NoOrphan(st: Setting, s: World) {
    s.cr.Some? && !s.tampered ==> forall x :: x in s.live ==> Covers(Stored(s), x) || Lost(st, s.unrecorded, x)
  }

  /** Nothing outside `current` is live. */
  ghost predicate OnlyLeft(st: Setting, s: World, current: seq<Ident>) {
    s.tampered || forall x :: x in s.live ==> x in Ids(current) || Lost(st, s.unrecorded, x)
  }

  /** Deletion safety: a live object keeps the resource, and its finalizer, in place. */
  ghost predicate DeletionSafe(st: Setting, s: World) {
    HoldsV3(s) || s.uncleaned || OnlyLeft(st, s, [])
  }

  ghost predicate Inv(st: Setting, s: World) {
    && st.CanonicalRecords(Stored(s)) && (!s.tampered ==> st.AllInScope(Stored(s)))
    && NoOrphan(st, s) && DeletionSafe(st, s)
  }

  // ---- Steps -------------------------------------------------------------------------------

  /** The resource and the operator's own memory, as others leave them: finalizers other than V3 come
      and go, a deletion mark stays, and the resource disappears only without V3. */
  predicate RelyMeta(s: World, s': World) {
    && (s.cr.None? ==> s'.cr.None?)
    && (HoldsV3(s) <==> HoldsV3(s'))
    && (s.cr.Some? && s'.cr.Some? && s.cr.value.deleting ==> s'.cr.value.deleting)
    && s'.seen == s.seen && (s.tampered ==> s'.tampered)
  }

  /** The entries under the operator's keys are the same. */
  ghost predicate SameOwned(a: Records, b: Records) {
    forall k :: Owned(k) ==> (k in a <==> k in b) && (k in a ==> a[k] == b[k])
  }

  /** The ConfigMap, as others leave it: every change comes under a new resource version, it disappears only
      after the resource, and changing an entry of the operator counts as tampering. */
  ghost predicate RelyStore(s: World, s': World) {
    && (s.cm.None? ==> s'.cm.None?)
    && (s.cm.Some? && s'.cm.None? ==> s'.cr.None?)
    && (s.cm.Some? && s'.cm.Some? ==>
          && s.cm.value.rv <= s'.cm.value.rv
          && (s.cm.value.rv == s'.cm.value.rv ==> s.cm == s'.cm)
          && (!s'.tampered ==> SameOwned(s.cm.value.data, s'.cm.value.data)))
  }

  /** What everybody but the operator may do between two of its calls. Objects may disappear. */
  ghost predicate Rely(s: World, s': World) {
    && s'.live <= s.live && RelyMeta(s, s') && RelyStore(s, s')
    && s'.unrecorded == s.unrecorded && s'.uncleaned == s.uncleaned
  }

  lemma RelyMetaTransitive(a: World, b: World, c: World)
    requires RelyMeta(a, b) && RelyMeta(b, c)
    ensures RelyMeta(a, c)
  {
  }

  lemma RelyTransitive(a: World, b: World, c: World)
    requires Rely(a, b) && Rely(b, c)
    ensures Rely(a, c)
  {
  }

  lemma RelyFewer(a: World, b: World, c: World)
    requires Rely(a, b) && c == b.(live := c.live) && c.live <= b.live
    ensures Rely(a, c)
  {
  }

  /** What `UpdateDependentLifecycleInfo` makes of the stored records. */
  function Updated(data: Records, key: string, objects: seq<Ident>): Records {
    (if key in data then data[Dirty(key) := data[key]] else data)[key := objects]
  }

  datatype Intent =
    | Record(generation: Generation)
    | Trim(generation: Generation, current: seq<Ident>, removed: set<string>)

  /** May `data` replace `base`? An update writes exactly its own entry and the dirty copy. A
      clean-up drops only records of other keys whose objects outside the current set are gone;
      and the current set it spares is itself on record under the key it keeps. */
  ghost predicate Permitted(st: Setting, intent: Intent, base: Records, data: Records, s: World) {
    match intent
    case Record(g) => HoldsV3(s) && data == Updated(base, GenKey(g), st.built(g))
    case Trim(g, current, removed) =>
      && data == base - removed && removed <= base.Keys && GenKey(g) !in removed
      && (forall k, o :: k in removed && o in base[k] && o !in current ==> o.Id() !in s.live)
      && (current == [] || current == st.built(g))
      && (s.tampered || g in s.unrecorded || current == [] || (GenKey(g) in base && base[GenKey(g)] == current))
  }

  lemma PermittedStable(st: Setting, intent: Intent, base: Records, data: Records, s: World, s': World)
    requires Permitted(st, intent, base, data, s) && Rely(s, s')
    ensures Permitted(st, intent, base, data, s')
  {
  }

  lemma CoversStable(s: World, s': World, x: ObjectId)
    requires RelyStore(s, s') && s'.cr.Some? && !s'.tampered && Covers(Stored(s), x)
    ensures Covers(Stored(s'), x)
  {
  }

  /** What `retry` is wrapped around. */
  datatype Operation =
    | Recording(generation: Generation, dependents: seq<Ident>)
    | Cleaning(generation: Generation, dependents: seq<Ident>)

  const ATTEMPTS := 5

  /** `Refused` is an answer that reports a conflict, `Failed` the end of an attempt that will be repeated,
      and `GiveUp` the end of an operation that used up its attempts. */
  datatype Action =
    | Environment
    | ReadResource
    | ReadStore(found: Option<ConfigMap>)
    | Store(intent: Intent, read: Option<ConfigMap>)
    | ApplyObject(target: Ident)
    | DeleteObject(target: Ident, current: seq<Ident>)
    | SetFinalizers(finalizers: seq<string>)
    | Begin(op: Operation)
    | Refused
    | Failed
    | GiveUp(op: Operation)

  ghost predicate Step(st: Setting, a: Action, s: World, s': World) {
    match a
    case Environment =>
      && Rely(s, s') && st.CanonicalRecords(Stored(s'))
      && (s'.tampered <==> s.tampered || (s.cm.Some? && s'.cm.Some? && !SameOwned(Stored(s), Stored(s'))))
    case ReadResource => s.cr.Some? && s' == s.(seen := s.cr)
    case ReadStore(found) => s' == s && MayBeRead(s, found)
    case Store(intent, read) =>
      && s.cm == read && s'.cm.Some? && (read.Some? ==> read.value.rv < s'.cm.value.rv)
      && s' == s.(cm := s'.cm, unrecorded := StillUnrecorded(s, intent))
      && Permitted(st, intent, Stored(s), s'.cm.value.data, s)
    case ApplyObject(o) =>
      && HoldsV3(s)
      && s.seen.Some? && !s.seen.value.deleting && FINALIZER_V3 in s.seen.value.finalizers
      && MayComeAlive(st, s, o)
      && s' == s.(live := s.live + {o.Id()})
    case DeleteObject(o, current) =>
      && o.Id() !in Ids(current)
      && s' == s.(live := s.live - {o.Id()})
    case SetFinalizers(f) =>
      && s.cr.Some? && s' == s.(cr := WithFinalizers(s.cr.value, f))
      && (HoldsV3(s) && FINALIZER_V3 !in f ==> MayRelease(st, s))
    case Begin(op) => s' == Begun(s, op) && (op.Cleaning? ==> HoldsV3(s))
    case Refused => s' == s
    case Failed => s' == s
    case GiveUp(op) => s' == GivenUp(s, op)
  }

  /** A read of the ConfigMap returns the stored version or an older one; NotFound is accurate. */
  ghost predicate MayBeRead(s: World, found: Option<ConfigMap>) {
    if found.None? then s.cm.None? else s.cm.Some? && (s.cm == found || found.value.rv < s.cm.value.rv)
  }

  /** What an earlier read has found, as far as it can matter: the stored version or one that is gone. */
  ghost predicate ReadEarlier(s: World, found: Option<ConfigMap>) {
    if found.None? then s.cm.None? else s.cm.None? || s.cm == found || found.value.rv < s.cm.value.rv
  }

  lemma ReadEarlierStable(s: World, s': World, found: Option<ConfigMap>)
    requires ReadEarlier(s, found) && RelyStore(s, s')
    ensures ReadEarlier(s', found)
  {
  }

  /** Compare-and-swap: the resource version tells versions apart. */
  lemma SwapExact(s: World, s': World, found: Option<ConfigMap>)
    requires ReadEarlier(s, found) && Rely(s, s')
    requires if found.None? then s'.cm.None? else s'.cm.Some? && s'.cm.value.rv == found.value.rv
    ensures s.cm == s'.cm == found
  {
  }

  function StillUnrecorded(s: World, intent: Intent): set<Generation> {
    if intent.Record? then s.unrecorded - {intent.generation} else s.unrecorded
  }

  /** The object is on record, as far as records can be relied on. */
  ghost predicate MayComeAlive(st: Setting, s: World, o: Ident) {
    s.tampered || Covers(Stored(s), o.Id()) || Lost(st, s.unrecorded, o.Id())
  }

  ghost predicate MayRelease(st: Setting, s: World) {
    s.uncleaned || OnlyLeft(st, s, [])
  }

  /** A clean-up of everything starts afresh. */
  function Begun(s: World, op: Operation): World {
    if op.Cleaning? && op.dependents == [] then s.(uncleaned := false) else s
  }

  function GivenUp(s: World, op: Operation): World {
    if op.Recording? then s.(unrecorded := s.unrecorded + {op.generation})
    else if op.dependents == [] then s.(uncleaned := true) else s
  }

  /** The API server drops a marked resource with its last finalizer. */
  function WithFinalizers(cr: CustomResource, f: seq<string>): Option<CustomResource> {
    if cr.deleting && f == [] then None else Some(cr.(finalizers := f))
  }

  // ---- What went before --------------------------------------------------------------------

  /** The last read of the ConfigMap that no write has used yet, the operation under way, whether a conflict
      was answered in its current attempt, and how many attempts of it have failed. */
  datatype History = History(read: Option<Option<ConfigMap>>, op: Option<Operation>, refused: bool, failed: nat)

  function Noted(h: History, a: Action): History {
    match a
    case ReadStore(found) => h.(read := Some(found))
    case Store(_, _) => h.(read := None)
    case Begin(op) => History(None, Some(op), false, 0)
    case Refused => h.(refused := true)
    case Failed => h.(refused := false, failed := h.failed + 1)
    case GiveUp(_) => h.(op := None)
    case _ => h
  }

  /** A write replaces what its own read found; an attempt fails only by a conflict; and giving up takes
      all attempts of the operation that is given up. */
  predicate Allowed(h: History, a: Action) {
    match a
    case Store(_, read) => h.read == Some(read)
    case Failed => h.refused
    case GiveUp(op) => h.op == Some(op) && h.failed == ATTEMPTS
    case _ => true
  }

  // ---- The invariant is inductive ----------------------------------------------------------

  lemma UpdateKeepsCoverage(st: Setting, data: Records, g: Generation, x: ObjectId)
    requires st.AllInScope(data) && Covers(data, x)
    ensures Covers(Updated(data, GenKey(g), st.built(g)), x)
  {
    var key := GenKey(g);
    var data' := Updated(data, key, st.built(g));
    var k :| k in data && Owned(k) && x in Ids(data[k]);
    GenKeyOwned(g);
    if k == key {
      assert Dirty(key) != key && x in Ids(data'[Dirty(key)]);
    } else if k == Dirty(key) {
      var o :| o in data[k] && o.Id() == x;
      assert st.InScope(k, data[k]) && o in data'[key];
      assert x in Ids(data'[key]);
    } else {
      assert x in Ids(data'[k]);
    }
  }

  lemma UpdateInScope(st: Setting, data: Records, g: Generation)
    requires st.AllInScope(data)
    ensures st.AllInScope(Updated(data, GenKey(g), st.built(g)))
  {
    var key := GenKey(g);
    BuiltInScope(st, g);
    if key in data {
      forall h | Dirty(key) == GenKey(h) || Dirty(key) == Dirty(GenKey(h)) ensures g == h {
        GenKeyNotDirty(h, key);
        DirtyInjective(key, GenKey(h));
        GenKeyInjective(g, h);
      }
      assert st.InScope(Dirty(key), data[key]) by {
        assert st.InScope(key, data[key]);
      }
    }
  }

  /** What a generation builds is on record once its update succeeded. */
  lemma UpdateCoversBuilt(st: Setting, data: Records, g: Generation, x: ObjectId)
    requires x in Ids(st.built(g))
    ensures Covers(Updated(data, GenKey(g), st.built(g)), x)
  {
    GenKeyOwned(g);
    assert x in Ids(Updated(data, GenKey(g), st.built(g))[GenKey(g)]);
  }

  lemma TrimKeepsCoverage(st: Setting, g: Generation, current: seq<Ident>, removed: set<string>, s: World, x: ObjectId)
    requires Permitted(st, Trim(g, current, removed), Stored(s), Stored(s) - removed, s) && !s.tampered
    requires x in s.live && (Covers(Stored(s), x) || Lost(st, s.unrecorded, x))
    ensures Covers(Stored(s) - removed, x) || Lost(st, s.unrecorded, x)
  {
    var base := Stored(s);
    GenKeyOwned(g);
    if Covers(base, x) {
      var k :| k in base && Owned(k) && x in Ids(base[k]);
      if k in removed {
        var o: Ident :| o in base[k] && o.Id() == x;
        assert o in current && x in Ids(current);
      } else {
        assert k in base - removed && x in Ids((base - removed)[k]);
      }
    }
  }

  lemma StoreKeepsNoOrphan(st: Setting, intent: Intent, read: Option<ConfigMap>, s: World, s': World)
    requires Inv(st, s) && Step(st, Store(intent, read), s, s')
    ensures NoOrphan(st, s')
  {
    if s.cr.Some? && !s.tampered {
      forall x | x in s'.live ensures Covers(Stored(s'), x) || Lost(st, s'.unrecorded, x) {
        assert Covers(Stored(s), x) || Lost(st, s.unrecorded, x);
        match intent
        case Record(g) =>
          if Covers(Stored(s), x) {
            UpdateKeepsCoverage(st, Stored(s), g, x);
          } else if x in Ids(st.built(g)) {
            UpdateCoversBuilt(st, Stored(s), g, x);
          }
        case Trim(g, current, removed) => TrimKeepsCoverage(st, g, current, removed, s, x);
      }
    }
  }

  lemma RelyKeepsNoOrphan(st: Setting, s: World, s': World)
    requires NoOrphan(st, s) && Rely(s, s')
    ensures NoOrphan(st, s')
  {
  }

  lemma RelyKeepsScope(st: Setting, s: World, s': World)
    requires st.AllInScope(Stored(s)) && RelyStore(s, s') && !s'.tampered
    ensures st.AllInScope(Stored(s'))
  {
  }

  lemma StepKeepsInv(st: Setting, a: Action, s: World, s': World)
    requires st.Good() && Inv(st, s) && Step(st, a, s, s')
    ensures Inv(st, s')
  {
    match a
    case Environment =>
      RelyKeepsNoOrphan(st, s, s');
      if !s'.tampered { RelyKeepsScope(st, s, s'); }
    case Store(intent, read) =>
      StoreKeepsNoOrphan(st, intent, read, s, s');
      if intent.Record? && !s.tampered { UpdateInScope(st, Stored(s), intent.generation); }
    case _ =>
  }

  // ---- Runs --------------------------------------------------------------------------------

  datatype Entry = Entry(action: Action, after: World)

  function Before(origin: World, trace: seq<Entry>, i: nat): World
    requires i <= |trace|
  {
    if i == 0 then origin else trace[i - 1].after
  }

  function HistoryOf(trace: seq<Entry>): History {
    if trace == [] then History(None, None, false, 0)
    else Noted(HistoryOf(trace[..|trace| - 1]), trace[|trace| - 1].action)
  }

  ghost predicate IsRun(st: Setting, origin: World, trace: seq<Entry>) {
    trace == [] ||
    (var n := |trace| - 1;
     && IsRun(st, origin, trace[..n]) && Allowed(HistoryOf(trace[..n]), trace[n].action)
     && Step(st, trace[n].action, Before(origin, trace, n), trace[n].after))
  }

  lemma RunExtends(st: Setting, origin: World, trace: seq<Entry>, e: Entry)
    requires IsRun(st, origin, trace) && Allowed(HistoryOf(trace), e.action)
    requires Step(st, e.action, Before(origin, trace, |trace|), e.after)
    ensures IsRun(st, origin, trace + [e]) && HistoryOf(trace + [e]) == Noted(HistoryOf(trace), e.action)
  {
  }

  lemma {:induction false} RunSteps(st: Setting, origin: World, trace: seq<Entry>, i: nat)
    requires IsRun(st, origin, trace) && i < |trace|
    ensures Step(st, trace[i].action, Before(origin, trace, i), trace[i].after)
    ensures Allowed(HistoryOf(trace[..i]), trace[i].action)
  {
    if i < |trace| - 1 {
      RunSteps(st, origin, trace[..|trace| - 1], i);
      assert trace[..|trace| - 1][..i] == trace[..i];
    }
  }

  /** What the operator deleted from entry `from` on. */
  ghost function Deletions(trace: seq<Entry>, from: nat): set<ObjectId> {
    set n | from <= n < |trace| && trace[n].action.DeleteObject? :: trace[n].action.target.Id()
  }

  lemma DeletionsAdd(from: nat, mid: seq<Entry>, trace: seq<Entry>)
    requires from <= |mid| && mid <= trace
    ensures Deletions(trace, from) == Deletions(mid, from) + Deletions(trace, |mid|)
  {
  }

  /** What the operator applied from entry `from` on, in order. */
  ghost function Applies(trace: seq<Entry>, from: nat): seq<Ident> {
    if |trace| <= from then []
    else
      var n := |trace| - 1;
      Applies(trace[..n], from) + if trace[n].action.ApplyObject? then [trace[n].action.target] else []
  }

  lemma {:induction false} AppliesAdd(from: nat, mid: seq<Entry>, trace: seq<Entry>)
    requires from <= |mid| && mid <= trace
    ensures Applies(trace, from) == Applies(mid, from) + Applies(trace, |mid|)
    decreases |trace|
  {
    if |mid| == |trace| {
      assert mid == trace;
    } else {
      AppliesAdd(from, mid, trace[..|trace| - 1]);
    }
  }

  /** From entry `from` on no record was dropped. */
  ghost predicate DropsNone(trace: seq<Entry>, from: nat) {
    forall n :: from <= n < |trace| && trace[n].action.Store? ==> trace[n].action.intent.Record?
  }

  /** Safety over whole runs: cut a run anywhere, whatever failed and whoever interfered before. */
  lemma {:induction false} RunIsSafe(st: Setting, origin: World, trace: seq<Entry>, n: nat)
    requires st.Good() && Inv(st, origin) && IsRun(st, origin, trace) && n <= |trace|
    ensures Inv(st, Before(origin, trace, n))
  {
    if n > 0 {
      RunIsSafe(st, origin, trace, n - 1);
      RunSteps(st, origin, trace, n - 1);
      StepKeepsInv(st, trace[n - 1].action, Before(origin, trace, n - 1), trace[n - 1].after);
    }
  }

  /** Once the resource is gone no object is left but those of generations that were never recorded. */
  lemma {:induction false} GoneMeansClean(st: Setting, origin: World, trace: seq<Entry>, n: nat)
    requires st.Good() && Inv(st, origin) && IsRun(st, origin, trace) && n <= |trace|
    ensures var s := Before(origin, trace, n); s.cr.None? && !s.uncleaned ==> OnlyLeft(st, s, [])
  {
    RunIsSafe(st, origin, trace, n);
  }

  /** A deletion that cannot go on for want of the ConfigMap leaves nothing behind: in every run, a resource
      without records has no live object but those of generations that were never recorded. */
  lemma {:induction false} NoRecordsMeansClean(st: Setting, origin: World, trace: seq<Entry>, n: nat)
    requires st.Good() && Inv(st, origin) && IsRun(st, origin, trace) && n <= |trace|
    ensures var s := Before(origin, trace, n); s.cr.Some? && s.cm.None? ==> OnlyLeft(st, s, [])
  {
    RunIsSafe(st, origin, trace, n);
    var s := Before(origin, trace, n);
    assert forall x :: s.cm.None? ==> !Covers(Stored(s), x);
  }

  /** Write-ahead: in every run each apply names an object already on record, under a resource that
      holds V3 and was read unmarked; each delete spares the current set; each record that leaves
      the store has nothing live left outside the current set. */
  lemma {:induction false} WriteAhead(st: Setting, origin: World, trace: seq<Entry>, i: nat)
    requires st.Good() && Inv(st, origin) && IsRun(st, origin, trace) && i < |trace|
    ensures var s, e := Before(origin, trace, i), trace[i];
            && (e.action.ApplyObject? ==>
                  && HoldsV3(s) && s.seen.Some? && !s.seen.value.deleting
                  && MayComeAlive(st, s, e.action.target))
            && (e.action.DeleteObject? ==> s.live * Ids(e.action.current) <= e.after.live)
            && (e.action.Store? && e.action.intent.Trim? ==>
                  forall k, o | k in Stored(s) && k !in Stored(e.after) && o in Stored(s)[k] ::
                    o in e.action.intent.current || o.Id() !in e.after.live)
            && (e.after.live - s.live != {} ==> e.action.ApplyObject?)
  {
    RunIsSafe(st, origin, trace, i);
    RunSteps(st, origin, trace, i);
  }

  // ---- No lost update ----------------------------------------------------------------------

  /** Where the unused read comes from; no write has happened since. */
  lemma {:induction false} ReadHappened(trace: seq<Entry>) returns (j: nat)
    requires HistoryOf(trace).read.Some?
    ensures j < |trace| && trace[j].action == ReadStore(HistoryOf(trace).read.value)
    ensures forall m :: j < m < |trace| ==> !trace[m].action.Store?
  {
    var n := |trace| - 1;
    j := n;
    if !trace[n].action.ReadStore? {
      j := ReadHappened(trace[..n]);
    }
  }

  /** A version once replaced never comes back: while nothing is written, finding it means that it was there
      all the time. */
  lemma {:induction false} UnchangedSince(st: Setting, origin: World, trace: seq<Entry>, j: nat, i: nat)
    requires IsRun(st, origin, trace) && j < i <= |trace| && trace[j].action.ReadStore?
    requires forall m :: j < m < i ==> !trace[m].action.Store?
    requires Before(origin, trace, i).cm == trace[j].action.found
    ensures forall m :: j <= m <= i ==> Before(origin, trace, m).cm == trace[j].action.found
    decreases i
  {
    RunSteps(st, origin, trace, j);
    if j + 1 < i {
      NoReturn(st, origin, trace, j, i - 1);
      RunSteps(st, origin, trace, i - 1);
      UnchangedSince(st, origin, trace, j, i - 1);
    }
  }

  /** After a read the ConfigMap is what was found, or newer, or gone with the resource. */
  lemma {:induction false} NoReturn(st: Setting, origin: World, trace: seq<Entry>, j: nat, i: nat)
    requires IsRun(st, origin, trace) && j < i <= |trace| && trace[j].action.ReadStore?
    requires forall m :: j < m < i ==> !trace[m].action.Store?
    ensures ReadEarlier(Before(origin, trace, i), trace[j].action.found)
  {
    if i == j + 1 {
      RunSteps(st, origin, trace, j);
    } else {
      NoReturn(st, origin, trace, j, i - 1);
      RunSteps(st, origin, trace, i - 1);
    }
  }

  /** No lost update, whatever others write and to whichever keys: every write goes back to a read of the
      operator's own, the ConfigMap did not change from that read to the write, and the write drops or
      replaces no entry but those its intent names among the entries that were read. */
  lemma {:induction false} NoLostUpdate(st: Setting, origin: World, trace: seq<Entry>, i: nat) returns (j: nat)
    requires IsRun(st, origin, trace) && i < |trace| && trace[i].action.Store?
    ensures j < i && trace[j].action == ReadStore(trace[i].action.read)
    ensures forall m :: j <= m <= i ==> Before(origin, trace, m).cm == trace[j].action.found
    ensures var base, data := Stored(Before(origin, trace, j)), Stored(trace[i].after);
            match trace[i].action.intent
            case Record(g) =>
              var key := GenKey(g);
              && key in data && data[key] == st.built(g)
              && (key in base ==> Dirty(key) in data && data[Dirty(key)] == base[key])
              && (forall k :: k != key && (k != Dirty(key) || key !in base) ==>
                    (k in data <==> k in base) && (k in base ==> data[k] == base[k]))
            case Trim(g, _, removed) => data == base - removed && removed <= base.Keys && GenKey(g) !in removed
  {
    RunSteps(st, origin, trace, i);
    j := ReadHappened(trace[..i]);
    UnchangedSince(st, origin, trace, j, i);
    var intent := trace[i].action.intent;
    if intent.Record? { assert |Dirty(GenKey(intent.generation))| == |GenKey(intent.generation)| + 6; }
    hide GenKey, RelyStore;
  }

  // ---- Giving up takes five conflicts ------------------------------------------------------

  /** `at` are positions, in order, of conflicts answered after the operation began. */
  ghost predicate Conflicts(trace: seq<Entry>, op: Operation, at: seq<nat>) {
    && (forall i :: 0 <= i < |at| ==> at[i] < |trace| && trace[at[i]].action.Refused?)
    && (forall i, j :: 0 <= i < j < |at| ==> at[i] < at[j])
    && exists b: nat :: b < |trace| && trace[b].action == Begin(op) && forall i :: 0 <= i < |at| ==> b < at[i]
  }

  lemma ConflictsExtend(trace: seq<Entry>, e: Entry, op: Operation, at: seq<nat>)
    requires Conflicts(trace, op, at)
    ensures Conflicts(trace + [e], op, at)
    ensures e.action.Refused? ==> Conflicts(trace + [e], op, at + [|trace|])
  {
    var b: nat :| b < |trace| && trace[b].action == Begin(op) && forall i :: 0 <= i < |at| ==> b < at[i];
    assert (trace + [e])[b] == trace[b];
  }

  /** In every run the attempts counted as failed, and a pending refusal, stand for as many conflicts. */
  lemma {:induction false} FailedMeansRefused(st: Setting, origin: World, trace: seq<Entry>) returns (at: seq<nat>)
    requires IsRun(st, origin, trace) && HistoryOf(trace).op.Some?
    ensures var h := HistoryOf(trace);
            Conflicts(trace, h.op.value, at) && |at| == h.failed + if h.refused then 1 else 0
  {
    hide Step, Conflicts;
    var n := |trace| - 1;
    var prefix, e := trace[..n], trace[n];
    assert trace == prefix + [e];
    if e.action.Begin? {
      at := [];
      BeginConflicts(trace);
    } else {
      at := FailedMeansRefused(st, origin, prefix);
      ConflictsExtend(prefix, e, HistoryOf(prefix).op.value, at);
      if e.action.Refused? && !HistoryOf(prefix).refused {
        at := at + [n];
      }
    }
  }

  lemma BeginConflicts(trace: seq<Entry>)
    requires trace != [] && trace[|trace| - 1].action.Begin?
    ensures Conflicts(trace, trace[|trace| - 1].action.op, [])
  {
  }

  /** Entry `i` gives up the operation, and each of its attempts was answered with a conflict before. */
  ghost predicate GivesUpAt(trace: seq<Entry>, i: nat, op: Operation) {
    i < |trace| && trace[i].action == GiveUp(op) && exists at :: |at| == ATTEMPTS && Conflicts(trace[..i], op, at)
  }

  lemma {:induction false} GiveUpTakesConflicts(st: Setting, origin: World, trace: seq<Entry>, i: nat)
    requires IsRun(st, origin, trace) && i < |trace| && trace[i].action.GiveUp?
    ensures GivesUpAt(trace, i, trace[i].action.op)
  {
    RunSteps(st, origin, trace, i);
    PrefixIsRun(st, origin, trace, i);
    var at := FailedMeansRefused(st, origin, trace[..i]);
    assert at[..ATTEMPTS] <= at;
    assert Conflicts(trace[..i], trace[i].action.op, at[..ATTEMPTS]);
  }

  lemma {:induction false} PrefixIsRun(st: Setting, origin: World, trace: seq<Entry>, n: nat)
    requires IsRun(st, origin, trace) && n <= |trace|
    ensures IsRun(st, origin, trace[..n])
  {
    if n < |trace| {
      PrefixIsRun(st, origin, trace[..|trace| - 1], n);
      assert trace[..|trace| - 1][..n] == trace[..n];
    } else {
      assert trace[..n] == trace;
    }
  }

  /** Only giving up makes an exception, and a stored update ends it. */
  lemma StepFlags(st: Setting, a: Action, s: World, s': World)
    requires Step(st, a, s, s')
    ensures forall g :: g in s'.unrecorded ==>
      || (a.GiveUp? && a.op.Recording? && a.op.generation == g)
      || (g in s.unrecorded && (a.Store? ==> a.intent != Record(g)))
    ensures s'.uncleaned ==> s.uncleaned || (a.GiveUp? && a.op == Cleaning(a.op.generation, []))
    ensures s'.tampered ==> s.tampered || (a.Environment? && !SameOwned(Stored(s), Stored(s')))
  {
  }

  /** Every exception to the results above has its cause: a generation counts as unrecorded only after an
      update of it met a conflict in each of its five attempts, and as long as it is not recorded. */
  lemma {:induction false} UnrecordedHasCause(st: Setting, origin: World, trace: seq<Entry>, n: nat, g: Generation)
    requires IsRun(st, origin, trace) && n <= |trace|
    requires g in Before(origin, trace, n).unrecorded && g !in origin.unrecorded
    ensures Excused(trace, n, g)
  {
    hide IsRun, Step, GivesUpAt;
    var i := n - 1;
    RunSteps(st, origin, trace, i);
    StepFlags(st, trace[i].action, Before(origin, trace, i), trace[i].after);
    if trace[i].action.GiveUp? && trace[i].action.op.Recording? && trace[i].action.op.generation == g {
      GiveUpTakesConflicts(st, origin, trace, i);
    } else {
      UnrecordedHasCause(st, origin, trace, i, g);
    }
  }

  /** Everything counts as uncleaned only after a clean-up of it met a conflict in each of its attempts. */
  lemma {:induction false} UncleanedHasCause(st: Setting, origin: World, trace: seq<Entry>, n: nat)
    requires IsRun(st, origin, trace) && n <= |trace|
    requires Before(origin, trace, n).uncleaned && !origin.uncleaned
    ensures ExcusedCleaning(trace, n)
  {
    hide IsRun, Step, GivesUpAt;
    var i := n - 1;
    RunSteps(st, origin, trace, i);
    StepFlags(st, trace[i].action, Before(origin, trace, i), trace[i].after);
    if trace[i].action.GiveUp? && trace[i].action.op.Cleaning? && trace[i].action.op.dependents == [] {
      GiveUpTakesConflicts(st, origin, trace, i);
    } else {
      UncleanedHasCause(st, origin, trace, i);
    }
  }

  /** Records count as tampered with only after somebody else changed one of the operator's. */
  lemma {:induction false} TamperedHasCause(st: Setting, origin: World, trace: seq<Entry>, n: nat)
    requires IsRun(st, origin, trace) && n <= |trace|
    requires Before(origin, trace, n).tampered && !origin.tampered
    ensures ExcusedTampering(origin, trace, n)
  {
    hide IsRun, Step, SameOwned;
    var i := n - 1;
    RunSteps(st, origin, trace, i);
    StepFlags(st, trace[i].action, Before(origin, trace, i), trace[i].after);
    if Before(origin, trace, i).tampered {
      TamperedHasCause(st, origin, trace, i);
    }
  }

  /** Before entry `n` somebody else changed an entry of the operator. */
  ghost predicate ExcusedTampering(origin: World, trace: seq<Entry>, n: nat) {
    exists i: nat :: i < n <= |trace| && trace[i].action.Environment? &&
                     !SameOwned(Stored(Before(origin, trace, i)), Stored(trace[i].after))
  }

  /** Before entry `n` the generation's update was given up after a conflict in each attempt, and the generation
      has not been recorded since. */
  ghost predicate Excused(trace: seq<Entry>, n: nat, g: Generation) {
    exists i: nat :: i < n <= |trace| && trace[i].action.GiveUp? && trace[i].action.op.Recording? &&
                trace[i].action.op.generation == g && GivesUpAt(trace, i, trace[i].action.op) &&
                NotRecorded(trace, i, n, g)
  }

  /** Before entry `n` a clean-up of everything was given up after a conflict in each attempt. */
  ghost predicate ExcusedCleaning(trace: seq<Entry>, n: nat) {
    exists i: nat :: i < n <= |trace| && trace[i].action.GiveUp? && trace[i].action.op.Cleaning? &&
                trace[i].action.op.dependents == [] && GivesUpAt(trace, i, trace[i].action.op)
  }

  /** From entry `i` up to `n` no update of the generation was stored. */
  ghost predicate NotRecorded(trace: seq<Entry>, i: nat, n: nat, g: Generation) {
    i < n <= |trace| && forall m :: i <= m < n && trace[m].action.Store? ==> trace[m].action.intent != Record(g)
  }

  // ---- What the no-orphan result rests on --------------------------------------------------

  /** The dirty slot is overwritten. Whatever the built set, one update loses track of `x` exactly when
      `x` is on record only in a dirty slot that the update overwrites, and is not built again. */
  lemma UpdateLosesIff(data: Records, key: string, objects: seq<Ident>, x: ObjectId)
    requires Owned(key) && Covers(data, x)
    ensures !Covers(Updated(data, key, objects), x) <==>
            && key in data && x !in Ids(data[key]) && x !in Ids(objects)
            && forall k :: k in data && Owned(k) && x in Ids(data[k]) ==> k == Dirty(key)
  {
    var data' := Updated(data, key, objects);
    assert Owned(Dirty(key)) by {
      var n :| 0 <= n < |key| && key[n] == '_';
      assert Dirty(key)[n] == '_';
    }
    assert |Dirty(key)| == |key| + 6;
    if key in data {
      assert data'[Dirty(key)] == data[key] && data'[key] == objects;
    }
    if key !in data || x in Ids(data[key]) || x in Ids(objects) {
      var k0 :| k0 in data && Owned(k0) && x in Ids(data[k0]);
      assert key !in data ==> data'[k0] == data[k0];
      assert Covers(data', x);
    } else if k :| k in data && Owned(k) && x in Ids(data[k]) && k != Dirty(key) {
      assert data'[k] == data[k];
      assert Covers(data', x);
    }
  }

  /** A built set that changes under one key does lose an object: three updates with the sets {a},
      {b}, {c} leave `a` off the record although nothing removed it. */
  lemma ChangingSetOrphans(key: string, a: Ident, b: Ident, c: Ident)
    requires Owned(key) && a.Id() !in {b.Id(), c.Id()}
    ensures var data := Updated(Updated(Updated(map[], key, [a]), key, [b]), key, [c]);
            !Covers(data, a.Id())
  {
  }
}
