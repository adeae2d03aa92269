/** The dependents life cycle: recording what is about to be applied, and cleaning up what older
    records list. */
module Lifecycle {
  import opened Identity
  import opened Protocol
  import opened Cluster
  import opened Client
  import opened Wrappers

  // ---- Retry -------------------------------------------------------------------------------

  datatype Verdict = Verdict(done: bool, err: Errors)

  const FIRST_SLEEP := 100

  function Pow2(n: nat): (p: nat)
    ensures p >= 1
  {
    if n == 0 then 1 else 2 * Pow2(n - 1)
  }

  /** What `retry` makes of the verdicts of its runs: it stops at the first run that is done and returns
      that verdict's error. The loop variable shadows `err`, so using up all attempts returns no error,
      whatever the last run reported. */
  predicate Retried(attempts: nat, verdicts: seq<Verdict>, err: Errors) {
    && |verdicts| <= attempts
    && (forall i :: 0 <= i < |verdicts| - 1 ==> !verdicts[i].done)
    && if verdicts != [] && verdicts[|verdicts| - 1].done
       then err == verdicts[|verdicts| - 1].err
       else |verdicts| == attempts && err == []
  }

  /** All attempts were made and none was done. */
  predicate GaveUp(verdicts: seq<Verdict>) {
    |verdicts| == ATTEMPTS && !verdicts[ATTEMPTS - 1].done
  }

  /** `retry` around a body whose n-th run would give `fn(n)`, with the time it sleeps. It is meant to return
      the error of the last run. It does exactly if some run within its attempts would be done, or the
      very last one would have no error. */
  method Retry(attempts: nat, sleep: nat, fn: nat -> Verdict) returns (err: Errors, runs: nat, slept: nat)
    ensures Retried(attempts, seq(runs, (i: nat) => fn(i)), err)
    ensures attempts > 0 ==> runs > 0 && slept == sleep * (Pow2(runs - 1) - 1)
    ensures attempts > 0 ==>
      (err == fn(runs - 1).err <==> (exists i :: 0 <= i < attempts && fn(i).done) || fn(attempts - 1).err == [])
  {
    runs, slept := 0, 0;
    while runs < attempts
      invariant runs <= attempts
      invariant forall i :: 0 <= i < runs ==> !fn(i).done
      invariant slept == if 0 < runs < attempts then sleep * (Pow2(runs) - 1)
                         else if runs == 0 then 0 else sleep * (Pow2(runs - 1) - 1)
    {
      var v := fn(runs);
      if v.done {
        runs := runs + 1;
        assert forall n :: 0 <= n < runs ==> seq(runs, (i: nat) => fn(i))[n] == fn(n);
        return v.err, runs, slept;
      }
      if runs < attempts - 1 {
        assert slept == sleep * (Pow2(runs) - 1);
        slept := slept + sleep * Pow2(runs);
        assert slept == sleep * (Pow2(runs + 1) - 1) by {
          assert Pow2(runs + 1) == 2 * Pow2(runs);
          assert sleep * (Pow2(runs) - 1) + sleep * Pow2(runs) == sleep * (2 * Pow2(runs) - 1);
        }
      }
      runs := runs + 1;
    }
    assert forall n :: 0 <= n < runs ==> seq(runs, (i: nat) => fn(i))[n] == fn(n);
    err := [];
  }

  /** `isConflictError`. A multi-error counts by the first API status found inside it. */
  predicate IsConflictError(errs: Errors) {
    FirstStatus(errs) == Some(Conflict) ||
    (|errs| == 1 && errs[0].message in {"Operation cannot be fulfilled", "the object has been modified"})
  }

  function FirstStatus(errs: Errors): Option<Reason> {
    if errs == [] then None
    else if errs[0].status.Some? then errs[0].status
    else FirstStatus(errs[1..])
  }

  lemma {:induction false} StatusIsThere(errs: Errors)
    requires FirstStatus(errs).Some?
    ensures exists e :: e in errs && e.status == FirstStatus(errs)
  {
    if errs[0].status.None? { StatusIsThere(errs[1..]); }
  }

  /** The status that counts is the first one there is. */
  lemma {:induction false} FirstStatusIff(errs: Errors, r: Reason)
    ensures FirstStatus(errs) == Some(r) <==>
      exists i :: 0 <= i < |errs| && errs[i].status == Some(r) && forall j :: 0 <= j < i ==> errs[j].status.None?
  {
    if errs != [] && errs[0].status.None? {
      FirstStatusIff(errs[1..], r);
      if FirstStatus(errs) == Some(r) {
        var i :| 0 <= i < |errs[1..]| && errs[1..][i].status == Some(r)
                 && forall j :: 0 <= j < i ==> errs[1..][j].status.None?;
        assert errs[i + 1].status == Some(r);
        forall j | 0 <= j < i + 1 ensures errs[j].status.None? {
          if j > 0 { assert errs[1..][j - 1].status.None?; }
        }
      }
      if i :| 0 <= i < |errs| && errs[i].status == Some(r) && forall j :: 0 <= j < i ==> errs[j].status.None? {
        assert errs[1..][i - 1].status == Some(r);
      }
    }
  }

  /** Only a conflict passes for a conflict, and a list of nothing else does. */
  lemma ConflictErrors(errs: Errors)
    ensures IsConflictError(errs) ==> AnyClash(errs)
    ensures errs != [] && AllConflicts(errs) ==> IsConflictError(errs)
    ensures !IsConflictError([INVALID])
  {
    if FirstStatus(errs).Some? { StatusIsThere(errs); }
    if |errs| == 1 { assert errs[0] in errs; }
    if errs != [] { assert errs[0] in errs; }
  }

  // ---- What the manager knows --------------------------------------------------------------

  ghost predicate Recorded(s: World, key: string, objects: seq<Ident>) {
    s.cm.Some? && key in s.cm.value.data && s.cm.value.data[key] == objects
  }

  /** The current set is on record under the current key, or there is nothing to spare. */
  ghost predicate OnRecord(s: World, g: Generation, current: seq<Ident>) {
    s.tampered || g in s.unrecorded || current == [] || Recorded(s, GenKey(g), current)
  }

  lemma OnRecordStable(s: World, s': World, g: Generation, current: seq<Ident>)
    requires RelyMeta(s, s') && RelyStore(s, s') && s'.unrecorded == s.unrecorded
    requires s'.cr.Some? && OnRecord(s, g, current)
    ensures OnRecord(s', g, current)
  {
  }

  lemma CanonicalDiffSpares(st: Setting, older: seq<Ident>, current: seq<Ident>)
    requires st.AllCanonical(older) && st.AllCanonical(current)
    ensures Ids(Without(older, current)) !! Ids(current)
  {
    DiffSparesNewIff(older, current);
  }

  /** Nothing that `data` lists outside `current` is live. */
  ghost predicate Cleared(data: Records, keys: set<string>, current: seq<Ident>, live: set<ObjectId>) {
    forall k, o :: k in keys && k in data && o in data[k] && o !in current ==> o.Id() !in live
  }

  lemma ClearedLeavesCurrent(st: Setting, s: World, current: seq<Ident>)
    requires Inv(st, s) && s.cr.Some? && Cleared(Stored(s), Stored(s).Keys, current, s.live)
    ensures OnlyLeft(st, s, current)
  {
  }

  function Only(data: Records, key: string): Records {
    map k | k in data && k == key :: data[k]
  }

  // ---- How many deletes a clean-up asks for ------------------------------------------------

  ghost function Pick(data: Records): string
    requires data != map[]
  {
    var k :| k in data; k
  }

  ghost function Cost(data: Records, current: seq<Ident>): nat
    decreases |data|
  {
    if data == map[] then 0
    else
      var k := Pick(data);
      |Without(data[k], current)| + Cost(data - {k}, current)
  }

  /** Whichever record comes first. */
  lemma {:induction false} CostAny(data: Records, current: seq<Ident>, k: string)
    requires k in data
    ensures Cost(data, current) == |Without(data[k], current)| + Cost(data - {k}, current)
    decreases |data|
  {
    var k0 := Pick(data);
    if k != k0 {
      CostAny(data - {k0}, current, k);
      CostAny(data - {k}, current, k0);
      assert data - {k0} - {k} == data - {k} - {k0};
    }
  }

  // ---- What an operation leaves ------------------------------------------------------------

  /** What an operation starts from. */
  ghost predicate Ready(st: Setting, op: Operation, s: World) {
    && HoldsV3(s)
    && match op
       case Recording(g, objects) => objects == st.built(g)
       case Cleaning(g, current) => (current == [] || current == st.built(g)) && OnRecord(s, g, current)
  }

  /** What an attempt that failed leaves: an update has written nothing. */
  ghost predicate Kept(op: Operation, s: World, s': World) {
    match op
    case Recording(_, _) => Rely(s, s')
    case Cleaning(g, current) =>
      && RelyMeta(s, s') && s'.live <= s.live && s'.unrecorded == s.unrecorded && s'.uncleaned == s.uncleaned
      && OnRecord(s', g, current)
  }

  /** What a finished operation leaves. No error means that the dependents are on record, or that nothing
      outside the current set is live. */
  ghost predicate Ended(st: Setting, op: Operation, s: World, s': World, err: Errors) {
    match op
    case Recording(g, objects) =>
      && RelyMeta(s, s') && s'.live <= s.live && s'.uncleaned == s.uncleaned
      && s.unrecorded - {g} <= s'.unrecorded <= s.unrecorded
      && (err == [] ==> Recorded(s', GenKey(g), objects) && g !in s'.unrecorded)
    case Cleaning(g, current) =>
      Kept(op, s, s') && (err == [] ==> OnlyLeft(st, s', current))
  }

  /** What an undisturbed operation leaves. */
  ghost predicate Smoothly(op: Operation, s: World, s': World, err: Errors) {
    match op
    case Recording(g, objects) =>
      && err == [] && s'.cm.Some? && s' == s.(cm := s'.cm, unrecorded := s.unrecorded - {g})
      && Stored(s') == Updated(Stored(s), GenKey(g), objects)
    case Cleaning(g, current) =>
      if s.cm.None? then err != [] && s' == s
      else
        && err == [] && s'.cm.Some? && s' == s.(live := s'.live, cm := s'.cm)
        && s.live * Ids(current) <= s'.live && Stored(s') == Only(Stored(s), GenKey(g))
  }

  /** The API calls of one attempt when every delete is refused. */
  ghost function Weight(op: Operation, s: World): nat {
    2 + if op.Cleaning? then Cost(Stored(s), op.dependents) else 0
  }

  lemma KeptComposes(st: Setting, op: Operation, a: World, b: World, c: World, err: Errors)
    requires Kept(op, a, b)
    ensures Kept(op, b, c) ==> Kept(op, a, c)
    ensures Ended(st, op, b, c, err) ==> Ended(st, op, a, c, err)
  {
  }

  lemma KeptReady(st: Setting, op: Operation, s: World, s': World)
    requires Ready(st, op, s)
    ensures Kept(op, s, s)
    ensures Kept(op, s, s') ==> Ready(st, op, s')
  {
  }

  /** The same operation, as many failed attempts, and no conflict forgotten. */
  predicate SameTry(h: History, h': History) {
    h'.op == h.op && h'.failed == h.failed && (h.refused ==> h'.refused)
  }

  /** What one attempt leaves. It spares the current set; it is to be repeated only after a conflict, which
      takes an event; undisturbed it is done, and while all its writes are contended it is not. */
  ghost predicate Attempted(st: Setting, op: Operation, a: State, b: State, v: Verdict) {
    && Carries(a, b) && SameTry(a.history, b.history) && Deleted(a, b) !! Ids(op.dependents)
    && Applied(a, b) == [] && (op.Recording? ==> Idle(a, b))
    && (if v.done then Ended(st, op, a.world, b.world, v.err)
        else
          && Kept(op, a.world, b.world) && b.history.refused && IsConflictError(v.err)
          && |b.tape| < |a.tape|)
    && (AtPeace(a) ==> v.done && Smoothly(op, a.world, b.world, v.err))
    && (a.world.cm.Some? && Contention(a, Weight(op, a.world)) ==>
          !v.done && Stormed(a, b, Weight(op, a.world)))
  }

  // ---- The proof of an update --------------------------------------------------------------

  lemma MayRecord(st: Setting, op: Operation, a: State, m: State, known: bool, read: Option<ConfigMap>, data: Records)
    requires HasRead(a, m, known, read) && op.Recording? && Ready(st, op, a.world)
    requires data == Updated(DataOf(read), GenKey(op.generation), op.dependents)
    ensures Permitted(st, Record(op.generation), DataOf(read), data, m.world)
    ensures known ==> m.history.read == Some(read) && ReadEarlier(m.world, read)
  {
  }

  /** What a read followed by an apply leaves in common. */
  lemma ReadThenApplied(a: State, m: State, mid: World, b: State, known: bool, read: Option<ConfigMap>, data: Records,
                        intent: Intent, err: Option<ApiError>)
    requires HasRead(a, m, known, read) && HasApplied(m, mid, b, known, read, data, intent, err)
    ensures Carries(a, b) && SameTry(a.history, b.history) && Rely(a.world, mid)
    ensures Deleted(a, b) == {} && Applied(a, b) == [] && (intent.Record? ==> Idle(a, b))
    ensures err.Some? && Clashes(err.value) ==> b.world == mid && b.history.refused && |b.tape| < |a.tape|
    ensures AtPeace(a) ==> mid == a.world && err == Refusal(Calm, true, a.world.cm, a.world.cm)
    ensures Contention(a, 2) ==>
      && mid == a.world && err == Refusal(Contended, true, a.world.cm, a.world.cm)
      && (err.Some? ==> Stormed(a, b, 2))
  {
    KnownErrors();
    assert Refusal(Calm, true, a.world.cm, a.world.cm) == None;
    hide Rely, Deletions, Applies, DropsNone, Clashes, Refusal;
    CarriesTransitive(a, m, b);
    RelyTransitive(a.world, m.world, mid);
  }

  /** A successful apply has replaced the version that the read before it has found. */
  lemma WroteWhatWasRead(a: State, m: State, n: State, mid: World, b: State, known: bool, named: bool,
                         read: Option<ConfigMap>, data: Records, intent: Intent)
    requires HasRead(a, m, known, read) && Carries(m, n) && HasApplied(n, mid, b, named, read, data, intent, None)
    requires named ==> known
    ensures Wrote(a, b, intent, read) && Stored(b.world) == data
  {
  }

  lemma UpdateAttempted(st: Setting, op: Operation, a: State, m: State, mid: World, b: State, known: bool,
                        read: Option<ConfigMap>, data: Records, err: Option<ApiError>, v: Verdict)
    requires op.Recording? && HasRead(a, m, known, read)
    requires data == Updated(DataOf(read), GenKey(op.generation), op.dependents)
    requires HasApplied(m, mid, b, known, read, data, Record(op.generation), err)
    requires v == Verdict(err == None || !err.value.Is(Conflict), if err == None then [] else [err.value])
    ensures Attempted(st, op, a, b, v)
  {
    ReadThenApplied(a, m, mid, b, known, read, data, Record(op.generation), err);
    ConflictErrors(v.err);
    KnownErrors();
    assert b.world != mid ==> Recorded(b.world, GenKey(op.generation), op.dependents);
    assert known && Replaced(mid, b.world, data, Record(op.generation)) ==>
      Recorded(b.world, GenKey(op.generation), op.dependents);
    hide HasApplied, HasRead, Carries, Deletions, Applies, DropsNone, IsConflictError, Updated, GenKey, RelyStore;
  }

  // ---- The proof of a clean-up -------------------------------------------------------------

  /** The records that are still to be looked at. */
  function Remaining(data: Records, pending: set<string>): Records {
    map k | k in data && k in pending :: data[k]
  }

  /** Whatever order the records come in: the current set is spared and a conflict is noted. */
  ghost predicate Spares(a: State, b: State, current: seq<Ident>, errs: Errors) {
    && Carries(a, b) && Rely(a.world, b.world) && Deleted(a, b) !! Ids(current) && Applied(a, b) == []
    && Noticed(a.history, b.history) && (AnyClash(errs) ==> b.history.refused && a.tape != [])
    && (AtPeace(a) ==>
          && errs == [] && b.world == a.world.(live := b.world.live)
          && a.world.live * Ids(current) <= b.world.live)
  }

  /** With the records in `pending` still to come, those in `removed` can be dropped: their objects outside the
      current set are gone. Without errors that is true of all others but the current one. */
  ghost predicate Drops(data: Records, current: seq<Ident>, key: string, live: set<ObjectId>, pending: set<string>,
                        removed: set<string>, errs: Errors)
  {
    && pending <= data.Keys && removed <= data.Keys - pending - {key}
    && Cleared(data, removed, current, live)
    && (errs == [] ==>
          && Cleared(data, data.Keys - pending, current, live)
          && removed == data.Keys - pending - {key})
  }

  /** While every delete is refused, nothing but conflicts is reported. */
  ghost predicate Storms(a: State, b: State, data: Records, current: seq<Ident>, pending: set<string>, errs: Errors) {
    && Cost(Remaining(data, pending), current) <= Cost(data, current)
    && (Contention(a, Cost(data, current)) ==>
          && Stormed(a, b, Cost(data, current) - Cost(Remaining(data, pending), current))
          && AllConflicts(errs))
  }

  lemma SweepStarts(a: State, data: Records, current: seq<Ident>, key: string)
    ensures Spares(a, a, current, []) && Drops(data, current, key, a.world.live, data.Keys, {}, [])
    ensures Storms(a, a, data, current, data.Keys, [])
  {
    CarriesReflexive(a);
    assert Remaining(data, data.Keys) == data;
    assert a.tape[0..] == a.tape;
  }

  lemma SparesOn(a: State, b: State, c: State, current: seq<Ident>, objects: seq<Ident>, errs: Errors, more: Errors)
    requires Spares(a, b, current, errs) && HasDeleted(b, c, objects, more) && Ids(objects) !! Ids(current)
    ensures Spares(a, c, current, errs + more)
  {
    CarriesTransitive(a, b, c);
    hide Deletions, Applies, DropsNone, Rely, Clashes, Contention, Stormed;
  }

  lemma DropsOn(data: Records, current: seq<Ident>, key: string, live: set<ObjectId>, fewer: set<ObjectId>,
                pending: set<string>, removed: set<string>, errs: Errors, k: string, more: Errors)
    requires Drops(data, current, key, live, pending, removed, errs) && k in pending && fewer <= live
    requires more == [] ==> forall o :: o in data[k] && o !in current ==> o.Id() !in fewer
    ensures Drops(data, current, key, fewer, pending - {k}, if more == [] && k != key then removed + {k} else removed,
                  errs + more)
  {
  }

  lemma StormsOn(a: State, b: State, c: State, data: Records, current: seq<Ident>, pending: set<string>, errs: Errors,
                 k: string, more: Errors)
    requires Storms(a, b, data, current, pending, errs) && k in pending && pending <= data.Keys
    requires HasDeleted(b, c, Without(data[k], current), more)
    ensures Storms(a, c, data, current, pending - {k}, errs + more)
  {
    hide Deletions, Applies, DropsNone, Rely, Clashes, Carries, AnyClash, AllConflicts, Cost, Without;
    ClashOfSum(errs, more);
    CostAny(Remaining(data, pending), current, k);
    assert Remaining(data, pending) - {k} == Remaining(data, pending - {k});
    var all := Cost(data, current);
    var spent, n := all - Cost(Remaining(data, pending), current), |Without(data[k], current)|;
    if Contention(a, all) {
      assert a.tape[spent..][n..] == a.tape[spent + n..];
    }
  }

  /** What deleting the outdated objects of all records leaves, in whatever order they were looked at. No
      object of the current set is deleted; a record is dropped only when its other objects are gone,
      and the record of the current key never. */
  ghost predicate HasCleaned(a: State, b: State, data: Records, current: seq<Ident>, key: string, errs: Errors,
                             kept: Records)
  {
    && Spares(a, b, current, errs) && Storms(a, b, data, current, {}, errs)
    && Drops(data, current, key, b.world.live, {}, data.Keys - kept.Keys, errs)
    && kept.Keys <= data.Keys && kept == data - (data.Keys - kept.Keys)
    && (data == map[] ==> errs == [] && b == a)
  }

  lemma CleanedOnly(data: Records, key: string, kept: Records)
    requires kept.Keys <= data.Keys && kept == data - (data.Keys - kept.Keys)
    requires data.Keys - kept.Keys == data.Keys - {} - {key}
    ensures kept == Only(data, key)
  {
  }

  /** One attempt of a clean-up: read, delete, store what is kept. */
  ghost predicate CleanupRun(st: Setting, op: Operation, a: State, m: State, n: State, mid: World, b: State,
                             known: bool, read: Option<ConfigMap>, errs: Errors, kept: Records, err: Option<ApiError>)
  {
    var removed := DataOf(read).Keys - kept.Keys;
    && op.Cleaning? && Ready(st, op, a.world) && HasRead(a, m, known, read)
    && HasCleaned(m, n, DataOf(read), op.dependents, GenKey(op.generation), errs, kept) && Inv(st, n.world)
    && HasApplied(n, mid, b, read.Some?, read, kept, Trim(op.generation, op.dependents, removed), err)
  }

  /** Before the store: what was on record still is, and the store is permitted. */
  lemma MayTrim(st: Setting, op: Operation, a: State, m: State, n: State, known: bool, read: Option<ConfigMap>,
                errs: Errors, kept: Records)
    requires op.Cleaning? && Ready(st, op, a.world) && HasRead(a, m, known, read)
    requires HasCleaned(m, n, DataOf(read), op.dependents, GenKey(op.generation), errs, kept)
    ensures HoldsV3(n.world) && OnRecord(n.world, op.generation, op.dependents) && Rely(a.world, n.world)
    ensures read.Some? ==> n.history.read == Some(read) && ReadEarlier(n.world, read)
    ensures var removed := DataOf(read).Keys - kept.Keys;
      read.Some? && read == n.world.cm ==>
        Permitted(st, Trim(op.generation, op.dependents, removed), DataOf(read), kept, n.world)
  {
    hide Cost, Deletions, Applies, DropsNone, Carries, RelyStore, Storms, Clashes, GenKey, AnyClash;
    RelyTransitive(a.world, m.world, n.world);
    OnRecordStable(a.world, n.world, op.generation, op.dependents);
    if read.Some? {
      MayBeReadEarlier(m.world, read);
      ReadEarlierStable(m.world, n.world, read);
    }
  }

  lemma MayBeReadEarlier(s: World, found: Option<ConfigMap>)
    requires MayBeRead(s, found)
    ensures ReadEarlier(s, found)
  {
  }

  /** Whatever fails: the current set is spared and stays on record, and a conflict is noted. */
  lemma CleanupKeeps(st: Setting, op: Operation, a: State, m: State, n: State, mid: World, b: State, known: bool,
                     read: Option<ConfigMap>, errs: Errors, kept: Records, err: Option<ApiError>)
    requires CleanupRun(st, op, a, m, n, mid, b, known, read, errs, kept, err)
    ensures Carries(a, b) && SameTry(a.history, b.history)
    ensures Deleted(a, b) !! Ids(op.dependents) && Applied(a, b) == []
    ensures Kept(op, a.world, b.world)
    ensures AnyClash(errs) || (err.Some? && Clashes(err.value)) ==> b.history.refused
  {
    hide Cost, Deletions, Applies, DropsNone, Carries, RelyStore, Storms, Clashes, GenKey, Cleared, Refusal,
         Permitted, AnyClash;
    MayTrim(st, op, a, m, n, known, read, errs, kept);
    RelyTransitive(a.world, n.world, mid);
    OnRecordStable(n.world, mid, op.generation, op.dependents);
    CarriesTransitive(a, m, n);
    CarriesTransitive(a, n, b);
  }

  /** No error at all means that nothing outside the current set is left. */
  lemma CleanupClears(st: Setting, op: Operation, a: State, m: State, n: State, mid: World, b: State, known: bool,
                      read: Option<ConfigMap>, kept: Records)
    requires CleanupRun(st, op, a, m, n, mid, b, known, read, [], kept, None)
    ensures OnlyLeft(st, b.world, op.dependents)
  {
    hide Cost, Deletions, Applies, DropsNone, Carries, RelyStore, Storms, Clashes, GenKey, Refusal, Inv, AnyClash;
    MayTrim(st, op, a, m, n, known, read, [], kept);
    assert DataOf(read) == Stored(n.world) && DataOf(read).Keys - {} == Stored(n.world).Keys;
    ClearedLeavesCurrent(st, n.world, op.dependents);
  }

  /** Undisturbed: it fails without a ConfigMap, and otherwise leaves the current entry. */
  lemma CleanupSmooth(st: Setting, op: Operation, a: State, m: State, n: State, mid: World, b: State, known: bool,
                      read: Option<ConfigMap>, errs: Errors, kept: Records, err: Option<ApiError>)
    requires CleanupRun(st, op, a, m, n, mid, b, known, read, errs, kept, err) && AtPeace(a)
    ensures errs == [] && err == if a.world.cm.None? then Some(INVALID) else None
    ensures Smoothly(op, a.world, b.world, if err.Some? then [err.value] else [])
  {
    hide Cost, Deletions, Applies, DropsNone, Rely, Storms, Clashes, GenKey, Inv, AnyClash, INVALID, Cleared;
    CarriesKeeps(a, m);
    CarriesKeeps(m, n);
    if a.world.cm.Some? {
      CleanedOnly(DataOf(read), GenKey(op.generation), kept);
    }
  }

  /** Contended: nothing happens, and all that is reported are conflicts. */
  lemma CleanupStorms(st: Setting, op: Operation, a: State, m: State, n: State, mid: World, b: State, known: bool,
                      read: Option<ConfigMap>, errs: Errors, kept: Records, err: Option<ApiError>)
    requires CleanupRun(st, op, a, m, n, mid, b, known, read, errs, kept, err)
    requires a.world.cm.Some? && Contention(a, Weight(op, a.world))
    ensures Stormed(a, b, Weight(op, a.world)) && AllConflicts(errs) && err == Some(CONFLICT)
  {
    hide HasRead, HasApplied, Spares, Drops, Ready, Inv, GenKey, AllConflicts, CONFLICT;
    var all := Cost(Stored(a.world), op.dependents);
    ReadStorms(a, m, known, read, all + 1);
    assert Remaining(DataOf(read), {}) == map[];
    hide Cost;
    assert m.tape[all..] == a.tape[1 + all..];
    AppliedStorms(n, mid, b, read, kept, Trim(op.generation, op.dependents, DataOf(read).Keys - kept.Keys), err);
    assert n.tape[1..] == a.tape[2 + all..];
  }

  lemma ReadStorms(a: State, m: State, known: bool, read: Option<ConfigMap>, n: nat)
    requires HasRead(a, m, known, read) && Contention(a, n + 1)
    ensures Stormed(a, m, 1) && Contention(m, n) && read == a.world.cm
  {
  }

  lemma AppliedStorms(n: State, mid: World, b: State, read: Option<ConfigMap>, data: Records, intent: Intent,
                      err: Option<ApiError>)
    requires HasApplied(n, mid, b, read.Some?, read, data, intent, err) && Contention(n, 1)
    requires read.Some? && n.world.cm == read
    ensures err == Some(CONFLICT) && Stormed(n, b, 1)
  {
  }

  /** A conflict takes an event. */
  lemma CleanupTakesEvent(st: Setting, op: Operation, a: State, m: State, n: State, mid: World, b: State, known: bool,
                          read: Option<ConfigMap>, errs: Errors, kept: Records, err: Option<ApiError>)
    requires CleanupRun(st, op, a, m, n, mid, b, known, read, errs, kept, err)
    requires AnyClash(errs) || (err.Some? && Clashes(err.value))
    ensures |b.tape| < |a.tape|
  {
    KnownErrors();
    hide Cost, Deletions, Applies, DropsNone, Rely, Storms, Clashes, GenKey, Inv, AnyClash, INVALID, CRASHED, Drops;
    if AtPeace(a) {
      CleanupSmooth(st, op, a, m, n, mid, b, known, read, errs, kept, err);
      ClashOfSum([], []);
    }
  }

  lemma CleanupAttempted(st: Setting, op: Operation, a: State, m: State, n: State, mid: World, b: State, known: bool,
                         read: Option<ConfigMap>, errs: Errors, kept: Records, err: Option<ApiError>, v: Verdict)
    requires CleanupRun(st, op, a, m, n, mid, b, known, read, errs, kept, err) && op.Cleaning?
    requires v.err == errs + (if err.Some? then [err.value] else [])
    requires v.done == (v.err == [] || !IsConflictError(v.err))
    ensures Attempted(st, op, a, b, v)
  {
    hide CleanupRun, IsConflictError, Carries, Deletions, Applies, DropsNone, Kept, Smoothly, Contention, Stormed,
         AllConflicts, CONFLICT, INVALID, Clashes, OnlyLeft, Weight;
    CleanupKeeps(st, op, a, m, n, mid, b, known, read, errs, kept, err);
    if v.err == [] { CleanupClears(st, op, a, m, n, mid, b, known, read, kept); }
    if AtPeace(a) { CleanupSmooth(st, op, a, m, n, mid, b, known, read, errs, kept, err); }
    if a.world.cm.Some? && Contention(a, Weight(op, a.world)) {
      CleanupStorms(st, op, a, m, n, mid, b, known, read, errs, kept, err);
    }
    var tail := if err.Some? then [err.value] else [];
    assert errs == [] ==> v.err == tail;
    ClashOfSum(errs, tail);
    ConflictErrors(v.err);
    if IsConflictError(v.err) {
      ClashOfOne(err);
      CleanupTakesEvent(st, op, a, m, n, mid, b, known, read, errs, kept, err);
    }
  }

  lemma ClashOfOne(err: Option<ApiError>)
    ensures AnyClash(if err.Some? then [err.value] else []) <==> err.Some? && Clashes(err.value)
  {
  }

  // ---- The proof of a retry ----------------------------------------------------------------

  /** After `verdicts`, none of which was done. */
  ghost predicate Trying(st: Setting, op: Operation, a: State, b: State, verdicts: seq<Verdict>) {
    var i := |verdicts|;
    && Carries(a, b) && Kept(op, a.world, b.world) && Ready(st, op, b.world)
    && Deleted(a, b) !! Ids(op.dependents) && Applied(a, b) == []
    && (op.Recording? ==> Idle(a, b))
    && b.history.op == Some(op) && b.history.failed == i && |b.tape| + i <= |a.tape|
    && (forall v :: v in verdicts ==> !v.done && IsConflictError(v.err))
    && (AtPeace(a) ==> i == 0 && b.world == a.world)
    && a.clock + Slept(i) <= b.clock && TryStormed(op, a, b, i)
  }

  /** The time slept after `n` attempts that failed; there is no sleep after the last one. */
  function Slept(n: nat): nat {
    FIRST_SLEEP * (Pow2(if n < ATTEMPTS then n else ATTEMPTS - 1) - 1)
  }

  lemma SleptOn(n: nat)
    requires n < ATTEMPTS
    ensures Slept(n + 1) == Slept(n) + if n < ATTEMPTS - 1 then FIRST_SLEEP * Pow2(n) else 0
  {
  }

  /** While all writes are contended, `i` attempts changed nothing. */
  ghost predicate TryStormed(op: Operation, a: State, b: State, i: nat) {
    var weight := Weight(op, a.world);
    a.world.cm.Some? && Contention(a, ATTEMPTS * weight) && i <= ATTEMPTS ==> Stormed(a, b, i * weight)
  }

  lemma TryingStarts(st: Setting, op: Operation, a: State)
    requires Ready(st, op, a.world) && a.history.op == Some(op) && a.history.failed == 0
    ensures Trying(st, op, a, a, [])
  {
  }

  /** The failure is noted and some time passes. */
  ghost predicate Waited(b: State, c: State, pause: nat) {
    && b.clock + pause <= c.clock && OnlyInterfered(b, c)
    && c.world == b.world && c.tape == b.tape && c.crashed == b.crashed
    && c.history == b.history.(refused := false, failed := b.history.failed + 1)
  }

  lemma TryingOn(st: Setting, op: Operation, a: State, b: State, c: State, d: State, verdicts: seq<Verdict>,
                 v: Verdict)
    requires Trying(st, op, a, b, verdicts) && Attempted(st, op, b, c, v) && !v.done && |verdicts| < ATTEMPTS
    requires Waited(c, d, if |verdicts| < ATTEMPTS - 1 then FIRST_SLEEP * Pow2(|verdicts|) else 0)
    ensures Trying(st, op, a, d, verdicts + [v])
  {
    hide Slept, Pow2, Carries, Deletions, Applies, DropsNone, Kept, Ended, Ready, Smoothly, IsConflictError, Weight,
         TryStormed, Stormed, Contention, Rely, Attempted;
    AttemptFails(st, op, b, c, d, v);
    TryStormsOn(op, a, b, d, |verdicts|);
    SleptOn(|verdicts|);
    TryKeeps(st, op, a, b, c, d);
    CarriesKeeps(a, b);
    assert forall w :: w in verdicts + [v] <==> w in verdicts || w == v;
  }

  lemma AttemptFails(st: Setting, op: Operation, b: State, c: State, d: State, v: Verdict)
    requires Attempted(st, op, b, c, v) && !v.done && d.world == c.world && d.tape == c.tape && d.crashed == c.crashed
    ensures Carries(b, c) && Kept(op, b.world, c.world) && SameTry(b.history, c.history) && IsConflictError(v.err)
    ensures Deleted(b, c) !! Ids(op.dependents) && Applied(b, c) == [] && (op.Recording? ==> Idle(b, c))
    ensures |c.tape| < |b.tape| && b.clock <= c.clock && !AtPeace(b)
    ensures var weight := Weight(op, b.world);
      b.world.cm.Some? && Contention(b, weight) ==> Stormed(b, d, weight)
  {
  }

  lemma TryKeeps(st: Setting, op: Operation, a: State, b: State, c: State, d: State)
    requires Carries(a, b) && Kept(op, a.world, b.world) && Ready(st, op, b.world)
    requires Carries(b, c) && Kept(op, b.world, c.world) && OnlyInterfered(c, d) && d.world == c.world
    ensures Carries(a, d) && Kept(op, a.world, d.world) && Ready(st, op, d.world)
    ensures Deleted(a, d) == Deleted(a, b) + Deleted(b, c) && Applied(a, d) == Applied(a, b) + Applied(b, c)
    ensures Idle(a, b) && Idle(b, c) ==> Idle(a, d)
  {
    CarriesTransitive(a, b, c);
    CarriesTransitive(a, c, d);
    KeptComposes(st, op, a.world, b.world, c.world, []);
    KeptReady(st, op, b.world, c.world);
    hide Carries, Deletions, Applies, DropsNone, Kept, Ready, Rely;
  }

  /** There is contention enough for the next attempt. */
  lemma TryStormsOn(op: Operation, a: State, b: State, c: State, i: nat)
    requires TryStormed(op, a, b, i) && i < ATTEMPTS
    requires var weight := Weight(op, b.world);
      b.world.cm.Some? && Contention(b, weight) ==> Stormed(b, c, weight)
    ensures TryStormed(op, a, c, i + 1)
    ensures var weight := Weight(op, a.world);
      a.world.cm.Some? && Contention(a, ATTEMPTS * weight) ==> b.world == a.world && Contention(b, weight)
  {
    var weight := Weight(op, a.world);
    assert i * weight + weight == (i + 1) * weight;
    MulMonotone(i + 1, ATTEMPTS, weight);
    if Contention(a, ATTEMPTS * weight) && a.world.cm.Some? {
      assert a.tape[i * weight..][weight..] == a.tape[(i + 1) * weight..];
    }
  }

  /** What giving up leaves: whatever a failed attempt leaves, and the mark of it. */
  ghost predicate Abandoned(op: Operation, s: World, s': World) {
    match op
    case Recording(g, _) =>
      Kept(op, s, s'.(unrecorded := s.unrecorded)) && s'.unrecorded == s.unrecorded + {g}
    case Cleaning(_, current) =>
      Kept(op, s, s'.(uncleaned := s.uncleaned)) && s'.uncleaned == (current == [] || s.uncleaned)
  }

  /** What an operation leaves that is tried up to five times. Giving up reports no error; it takes a conflict,
      and an event, in each attempt. */
  ghost predicate HasRetried(st: Setting, op: Operation, a: State, b: State, err: Errors, verdicts: seq<Verdict>) {
    var s, weight := Begun(a.world, op), Weight(op, a.world);
    && Carries(a, b) && Retried(ATTEMPTS, verdicts, err)
    && verdicts != [] && a.clock + Slept(|verdicts| - 1) <= b.clock
    && Deleted(a, b) !! Ids(op.dependents) && Applied(a, b) == []
    && (op.Recording? ==> Idle(a, b))
    && (forall v :: v in verdicts && !v.done ==> IsConflictError(v.err))
    && (if GaveUp(verdicts) then Abandoned(op, s, b.world) && |b.tape| + ATTEMPTS <= |a.tape|
        else Ended(st, op, s, b.world, err))
    && (AtPeace(a) ==> !GaveUp(verdicts) && Smoothly(op, s, b.world, err))
    && (a.world.cm.Some? && Contention(a, ATTEMPTS * weight) ==>
          && GaveUp(verdicts) && b.world == GivenUp(s, op)
          && !b.crashed && b.tape == a.tape[ATTEMPTS * weight..])
  }

  lemma DeletedLive(a: State, b: State, objects: seq<Ident>, errs: Errors)
    requires HasDeleted(a, b, objects, errs)
    ensures b.world.live <= a.world.live
  {
  }

  lemma ReadyCanonical(st: Setting, op: Operation, s: World)
    requires Ready(st, op, s) && st.Good()
    ensures st.AllCanonical(op.dependents)
  {
  }

  lemma CleanedKept(a: State, b: State, data: Records, current: seq<Ident>, key: string, errs: Errors, kept: Records)
    requires HasCleaned(a, b, data, current, key, errs, kept)
    ensures Carries(a, b) && kept == data - (data.Keys - kept.Keys) && kept.Keys <= data.Keys
  {
  }

  lemma MayBegin(st: Setting, op: Operation, s: World)
    requires Ready(st, op, s)
    ensures Step(st, Begin(op), s, Begun(s, op)) && Ready(st, op, Begun(s, op))
  {
  }

  lemma TryingReady(st: Setting, op: Operation, a: State, b: State, verdicts: seq<Verdict>)
    requires Trying(st, op, a, b, verdicts)
    ensures Ready(st, op, b.world) && b.history.op == Some(op) && b.history.failed == |verdicts|
  {
  }

  lemma FailedRefused(st: Setting, op: Operation, b: State, c: State, v: Verdict)
    requires Attempted(st, op, b, c, v) && !v.done
    ensures c.history.refused
  {
  }

  lemma RetryDone(st: Setting, op: Operation, a: State, begun: State, b: State, c: State, verdicts: seq<Verdict>,
                  v: Verdict)
    requires begun == a.(world := Begun(a.world, op), trace := begun.trace, history := begun.history)
    requires a.trace <= begun.trace && Idle(a, begun) && |verdicts| < ATTEMPTS
    requires Trying(st, op, begun, b, verdicts) && Attempted(st, op, b, c, v) && v.done
    ensures HasRetried(st, op, a, c, v.err, verdicts + [v])
  {
    hide Slept, Pow2, Carries, Deletions, Applies, DropsNone, Kept, Ended, Ready, Smoothly, IsConflictError, Weight,
         TryStormed, Stormed, Contention, Rely, Attempted;
    AttemptDone(st, op, b, c, v);
    TryStormsOn(op, begun, b, c, |verdicts|);
    BeganCarries(a, begun, op);
    CarriesTransitive(begun, b, c);
    CarriesTransitive(a, begun, c);
    CarriesKeeps(begun, b);
    KeptComposes(st, op, begun.world, b.world, c.world, v.err);
    assert forall w :: w in verdicts + [v] <==> w in verdicts || w == v;
  }

  lemma AttemptDone(st: Setting, op: Operation, b: State, c: State, v: Verdict)
    requires Attempted(st, op, b, c, v) && v.done
    ensures Carries(b, c) && Ended(st, op, b.world, c.world, v.err) && b.clock <= c.clock
    ensures Deleted(b, c) !! Ids(op.dependents) && Applied(b, c) == [] && (op.Recording? ==> Idle(b, c))
    ensures AtPeace(b) ==> Smoothly(op, b.world, c.world, v.err)
    ensures b.world.cm.Some? ==> !Contention(b, Weight(op, b.world))
  {
  }

  lemma BeganCarries(a: State, b: State, op: Operation)
    requires b == a.(world := Begun(a.world, op), trace := b.trace, history := b.history) && a.trace <= b.trace
    ensures Carries(a, b) && Weight(op, b.world) == Weight(op, a.world)
    ensures forall n :: Contention(a, n) ==> Contention(b, n)
  {
  }

  lemma RetryGivenUp(st: Setting, op: Operation, a: State, begun: State, b: State, c: State, verdicts: seq<Verdict>)
    requires begun == a.(world := Begun(a.world, op), trace := begun.trace, history := begun.history)
    requires a.trace <= begun.trace && Idle(a, begun) && |verdicts| == ATTEMPTS
    requires Trying(st, op, begun, b, verdicts) && b.trace <= c.trace && Idle(b, c)
    requires c == b.(world := GivenUp(b.world, op), trace := c.trace, history := c.history)
    ensures HasRetried(st, op, a, c, [], verdicts)
  {
    BeganCarries(a, begun, op);
    GivenUpAbandons(op, begun.world, b.world);
    assert forall v :: v in verdicts ==> !v.done;
    assert Carries(a, c);
    TraceAdd(a, begun, b);
    TraceAdd(a, b, c);
    hide Carries, Deletions, Applies, DropsNone, Kept, Ended, Ready, Smoothly, IsConflictError, Weight, Abandoned,
         GivenUp;
  }

  lemma GivenUpAbandons(op: Operation, s: World, s': World)
    requires Kept(op, s, s')
    ensures Abandoned(op, s, GivenUp(s', op))
  {
  }

  // ---- The manager -------------------------------------------------------------------------

  class DependentLifecycleManager {
    const server: ApiServer
    const generation: Generation

    constructor (server: ApiServer, generation: Generation)
      ensures this.server == server && this.generation == generation
    {
      this.server := server;
      this.generation := generation;
    }

    function Key(): string { GenKey(generation) }

    /** `getOrInitializeLifecycleCm`: what was read, a fresh named ConfigMap if there is none, and one
        without a name after any other error. */
    method GetOrInitialize() returns (named: bool, read: Option<ConfigMap>)
      requires server.Valid()
      modifies server
      ensures server.Valid() && HasRead(old(server.state), server.state, named, read)
    {
      hide IsRun, Inv, HistoryOf, HasRead;
      var r := server.GetConfigMap();
      match r
      case Ok(cm) => named, read := true, Some(cm);
      case Err(e) => named, read := e.Is(NotFound), None;
    }

    /** One run of the closure inside `UpdateDependentLifecycleInfo`. Success replaces exactly the version that
        this very run has read. */
    method UpdateAttempt(objects: seq<Ident>) returns (v: Verdict, ghost read: Option<ConfigMap>)
      requires server.Valid() && Ready(server.setting, Recording(generation, objects), server.state.world)
      modifies server
      ensures server.Valid()
      ensures Attempted(server.setting, Recording(generation, objects), old(server.state), server.state, v)
      ensures v.err == [] ==>
        && Wrote(old(server.state), server.state, Record(generation), read)
        && Stored(server.state.world) == Updated(DataOf(read), Key(), objects)
    {
      hide IsRun, Inv, HistoryOf, Ready, Attempted, HasRead, HasApplied;
      var named, found := GetOrInitialize();
      read := found;
      var data := DataOf(found);
      ghost var op, mid := Recording(generation, objects), server.state;
      var key := Key();
      if key in data {
        data := data[Dirty(key) := data[key]];
      }
      data := data[key := objects];
      MayRecord(server.setting, op, old(server.state), mid, named, found, data);
      var e, after := server.ApplyConfigMap(named, found, data, Record(generation));
      v := Verdict(e == None || !e.value.Is(Conflict), if e == None then [] else [e.value]);
      UpdateAttempted(server.setting, op, old(server.state), mid, after, server.state, named, found, data, e, v);
      if e == None {
        CarriesReflexive(mid);
        WroteWhatWasRead(old(server.state), mid, mid, after, server.state, named, named, found, data,
                         Record(generation));
      }
    }

    /** Deletes what one record lists outside the current set. */
    method DeleteRecord(objects: seq<Ident>, current: seq<Ident>) returns (err: Errors)
      requires server.Valid() && server.setting.AllCanonical(current) && server.setting.AllCanonical(objects)
      modifies server
      ensures server.Valid() && HasDeleted(old(server.state), server.state, Without(objects, current), err)
      ensures Ids(Without(objects, current)) !! Ids(current)
      ensures err == [] ==> Absent(Without(objects, current), server.state.world)
    {
      hide IsRun, Inv, HistoryOf, HasDeleted;
      var deprecated := Diff(objects, current);
      CanonicalDiffSpares(server.setting, objects, current);
      var deleting, sweeps;
      err, deleting, sweeps := DeleteAllInTimeLimit(server, deprecated, 30000, 5000, current);
    }

    /** The loop over the records, in whatever order the map yields them. */
    method DeleteDeprecated(data: Records, current: seq<Ident>) returns (errs: Errors, kept: Records)
      requires server.Valid() && server.setting.AllCanonical(current) && server.setting.CanonicalRecords(data)
      modifies server
      ensures server.Valid() && HasCleaned(old(server.state), server.state, data, current, Key(), errs, kept)
    {
      hide IsRun, Inv, HistoryOf, Spares, Storms, Drops, HasDeleted;
      errs := [];
      var pending, removed := data.Keys, {};
      ghost var a := server.state;
      SweepStarts(a, data, current, Key());
      while pending != {}
        invariant server.Valid() && pending <= data.Keys && removed <= data.Keys
        invariant Spares(a, server.state, current, errs) && Storms(a, server.state, data, current, pending, errs)
        invariant Drops(data, current, Key(), server.state.world.live, pending, removed, errs)
        invariant data == map[] ==> errs == [] && server.state == a
      {
        var key :| key in pending;
        ghost var b := server.state;
        var deleteErr := DeleteRecord(data[key], current);
        DeletedLive(b, server.state, Without(data[key], current), deleteErr);
        SparesOn(a, b, server.state, current, Without(data[key], current), errs, deleteErr);
        StormsOn(a, b, server.state, data, current, pending, errs, key, deleteErr);
        DropsOn(data, current, Key(), b.world.live, server.state.world.live, pending, removed, errs, key, deleteErr);
        errs := errs + deleteErr;
        pending := pending - {key};
        if deleteErr == [] && key != Key() {
          removed := removed + {key};
        }
      }
      kept := data - removed;
      assert data.Keys - kept.Keys == removed;
    }

    /** One run of the closure inside `CleanupDependents`. When it writes, it replaces exactly the version that
        this very run has read, and drops nothing but entries of that version. */
    method CleanupAttempt(current: seq<Ident>)
      returns (v: Verdict, stored: bool, ghost read: Option<ConfigMap>, ghost removed: set<string>)
      requires server.Valid() && Ready(server.setting, Cleaning(generation, current), server.state.world)
      modifies server
      ensures server.Valid()
      ensures Attempted(server.setting, Cleaning(generation, current), old(server.state), server.state, v)
      ensures v.err == [] ==> stored
      ensures stored ==>
        && Wrote(old(server.state), server.state, Trim(generation, current, removed), read)
        && Stored(server.state.world) == DataOf(read) - removed && removed <= DataOf(read).Keys
    {
      ReadyCanonical(server.setting, Cleaning(generation, current), server.state.world);
      hide IsRun, Inv, HistoryOf, Ready, Attempted, HasRead, HasApplied, HasCleaned, Permitted, ReadEarlier;
      ghost var op, a := Cleaning(generation, current), server.state;
      var r := server.GetConfigMap();
      var found := WhatWasFound(r);
      ghost var known, m := r.Ok? || r.error.Is(NotFound), server.state;
      var errs, kept := DeleteDeprecated(DataOf(found), current);
      ghost var n := server.state;
      CleanedKept(m, n, DataOf(found), current, Key(), errs, kept);
      MayTrim(server.setting, op, a, m, n, known, found, errs, kept);
      var dropped := DataOf(found).Keys - kept.Keys;
      read, removed := found, dropped;
      var e, after := server.ApplyConfigMap(r.Ok?, found, kept, Trim(generation, current, dropped));
      var all := errs + (if e.Some? then [e.value] else []);
      v, stored := Verdict(all == [] || !IsConflictError(all), all), e == None;
      assert CleanupRun(server.setting, op, a, m, n, after, server.state, known, found, errs, kept, e) by {
        assert Inv(server.setting, n.world);
      }
      CleanupAttempted(server.setting, op, a, m, n, after, server.state, known, found, errs, kept, e, v);
      if e == None {
        WroteWhatWasRead(a, m, n, after, server.state, known, r.Ok?, found, kept, Trim(generation, current, removed));
      }
    }

    method Attempt(op: Operation) returns (v: Verdict)
      requires server.Valid() && Ready(server.setting, op, server.state.world) && op.generation == generation
      modifies server
      ensures server.Valid() && Attempted(server.setting, op, old(server.state), server.state, v)
    {
      hide IsRun, Inv, HistoryOf, Ready, Attempted;
      match op
      case Recording(_, objects) =>
        var w, _ := UpdateAttempt(objects);
        v := w;
      case Cleaning(_, current) =>
        var w, _, _, _ := CleanupAttempt(current);
        v := w;
    }

    /** `retry` around an operation. */
    method RetryOperation(op: Operation) returns (err: Errors, verdicts: seq<Verdict>)
      requires server.Valid() && Ready(server.setting, op, server.state.world) && op.generation == generation
      modifies server
      ensures server.Valid() && HasRetried(server.setting, op, old(server.state), server.state, err, verdicts)
    {
      hide IsRun, Inv, HistoryOf, Attempted, Trying, HasRetried, Ready;
      ghost var st, a := server.setting, server.state;
      MayBegin(st, op, a.world);
      server.Advance(Begin(op), Begun(server.state.world, op));
      ghost var begun := server.state;
      TryingStarts(st, op, begun);
      verdicts := [];
      for i := 0 to ATTEMPTS
        invariant server.Valid() && |verdicts| == i && Trying(st, op, begun, server.state, verdicts)
      {
        ghost var b := server.state;
        TryingReady(st, op, begun, b, verdicts);
        var v := Attempt(op);
        if v.done {
          RetryDone(st, op, a, begun, b, server.state, verdicts, v);
          return v.err, verdicts + [v];
        }
        ghost var c := server.state;
        FailedRefused(st, op, b, c, v);
        server.Advance(Failed, server.state.world);
        if i < ATTEMPTS - 1 {
          server.Sleep(FIRST_SLEEP * Pow2(i));
        }
        TryingOn(st, op, begun, b, c, server.state, verdicts, v);
        verdicts := verdicts + [v];
      }
      ghost var c := server.state;
      TryingReady(st, op, begun, c, verdicts);
      server.Advance(GiveUp(op), GivenUp(server.state.world, op));
      RetryGivenUp(st, op, a, begun, c, server.state, verdicts);
      err := [];
    }

    /** No error means that the dependents are on record, unless all attempts were refused: then nothing was
        written, no error is reported either, and the generation counts as unrecorded from here on. */
    method UpdateDependentLifecycleInfo(objects: seq<Ident>) returns (err: Errors, verdicts: seq<Verdict>)
      requires server.Valid() && Ready(server.setting, Recording(generation, objects), server.state.world)
      modifies server
      ensures server.Valid()
      ensures HasRetried(server.setting, Recording(generation, objects), old(server.state), server.state, err, verdicts)
      ensures err == [] ==>
        if GaveUp(verdicts) then generation in server.state.world.unrecorded
        else generation !in server.state.world.unrecorded && Recorded(server.state.world, Key(), objects)
    {
      err, verdicts := RetryOperation(Recording(generation, objects));
      hide IsRun, Inv, HistoryOf, Kept;
    }

    /** No error means that nothing outside the current set is left, unless all attempts were refused. */
    method CleanupDependents(current: seq<Ident>) returns (err: Errors, verdicts: seq<Verdict>)
      requires server.Valid() && Ready(server.setting, Cleaning(generation, current), server.state.world)
      modifies server
      ensures server.Valid()
      ensures HasRetried(server.setting, Cleaning(generation, current), old(server.state), server.state, err, verdicts)
      ensures err == [] ==> GaveUp(verdicts) || OnlyLeft(server.setting, server.state.world, current)
    {
      err, verdicts := RetryOperation(Cleaning(generation, current));
      hide IsRun, Inv, HistoryOf, Kept, OnlyLeft;
    }
  }

  /** That version was read and then, last of all, replaced. */
  ghost predicate Wrote(a: State, b: State, intent: Intent, read: Option<ConfigMap>) {
    && Latest(a, b, Store(intent, read))
    && exists j :: |a.trace| <= j < |b.trace| && b.trace[j].action == ReadStore(read)
  }
}
