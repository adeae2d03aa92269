/** Applying a set of dependents, and deleting all of them. */
module Operator {
  import opened Identity
  import opened Protocol
  import opened Cluster
  import opened Client
  import opened Lifecycle
  import opened Wrappers

  /** The resource was read without a deletion mark and with V3, and still holds V3. */
  predicate MayApply(s: World) {
    HoldsV3(s) && s.seen.Some? && !s.seen.value.deleting && FINALIZER_V3 in s.seen.value.finalizers
  }

  lemma MayApplyStable(s: World, s': World)
    requires RelyMeta(s, s')
    ensures MayApply(s) <==> MayApply(s')
  {
  }

  // ---- What the steps leave ----------------------------------------------------------------

  /** `n` calls of a dry run change nothing, and give no error exactly if every one of them does not. */
  ghost predicate HasDryRun(a: State, b: State, n: nat, errs: Errors) {
    && OnlyInterfered(a, b) && b.tape == After(a.tape, n)
    && (errs == [] <==> Passing(a, n)) && (errs == [] ==> b.crashed == a.crashed)
    && (AtPeace(a) ==> errs == [] && b.world == a.world)
    && (Contention(a, n) ==> errs == [] && Stormed(a, b, n))
  }

  lemma DryRunNone(a: State)
    ensures HasDryRun(a, a, 0, [])
  {
    CarriesReflexive(a);
    assert a.tape[0..] == a.tape;
    hide Carries, Deletions, Applies, DropsNone, Rely;
  }

  lemma DryRunMore(a: State, b: State, c: State, n: nat, errs: Errors, err: Option<ApiError>)
    requires HasDryRun(a, b, n, errs) && Called(b, c) && OnlyInterfered(b, c)
    requires (err == None <==> PassNext(b)) && (Undisturbed(b) ==> c.world == b.world && err == None)
    ensures HasDryRun(a, c, n + 1, if err.Some? then errs + [err.value] else errs)
  {
    CarriesTransitive(a, b, c);
    CarriesKeeps(a, b);
    PassesMore(a, b, c, n, errs, err);
    hide Carries, Deletions, Applies, DropsNone, Rely, After, PassFor, Passing, PassNext;
    assert Contention(a, n + 1) ==> Contention(a, n);
  }

  lemma PassesMore(a: State, b: State, c: State, n: nat, errs: Errors, err: Option<ApiError>)
    requires b.tape == After(a.tape, n) && (errs == [] <==> Passing(a, n)) && (errs == [] ==> b.crashed == a.crashed)
    requires (err == None <==> PassNext(b)) && c.tape == (if b.tape == [] then [] else b.tape[1..])
    requires PassNext(b) ==> !c.crashed
    ensures (if err.Some? then errs + [err.value] else errs) == [] <==> Passing(a, n + 1)
    ensures errs == [] && err == None ==> c.crashed == a.crashed
    ensures c.tape == After(a.tape, n + 1)
  {
    TapeAdd(a.tape, n, 1);
    TapeStep(b.tape);
  }

  lemma OnRecordMayComeAlive(st: Setting, s: World, g: Generation, objects: seq<Ident>, o: Ident)
    requires OnRecord(s, g, objects) && objects == st.built(g) && o in objects
    ensures MayComeAlive(st, s, o)
  {
  }

  lemma AppliedNone(g: Generation, a: State, objects: seq<Ident>)
    requires OnRecord(a.world, g, objects)
    ensures AppliedSoFar(g, a, a, objects, 0, [])
  {
    CarriesReflexive(a);
    assert a.world.(live := a.world.live * a.world.live) == a.world;
    assert a.world.(live := a.world.live + Ids(objects[..0])) == a.world;
    hide Carries, Deletions, Applies, DropsNone, Rely, OnRecord;
  }

  /** After the first `n` objects: one call was made for each, in order. There is no error exactly if every call
      came through, and then exactly these objects were applied. Only given ones come to life, nothing is
      deleted or dropped, and their record stays. */
  ghost predicate AppliedSoFar(g: Generation, a: State, b: State, objects: seq<Ident>, n: nat, errs: Errors) {
    && n <= |objects| && Carries(a, b) && AppliedCalls(a, b, objects, n, errs)
    && AppliedWorld(g, a.world, b.world, objects)
    && (AtPeace(a) ==>
          errs == [] && AtPeace(b) && b.world == a.world.(live := a.world.live + Ids(objects[..n])))
  }

  ghost predicate AppliedCalls(a: State, b: State, objects: seq<Ident>, n: nat, errs: Errors)
    requires n <= |objects|
  {
    && Deleted(a, b) == {} && DropsNone(b.trace, |a.trace|)
    && b.tape == After(a.tape, n) && (errs == [] <==> Passing(a, n)) && (errs == [] ==> b.crashed == a.crashed)
    && (errs == [] ==> Applied(a, b) == objects[..n]) && (forall o :: o in Applied(a, b) ==> o in objects)
  }

  ghost predicate AppliedWorld(g: Generation, s: World, s': World, objects: seq<Ident>) {
    && Rely(s, s'.(live := s'.live * s.live)) && s'.live <= s.live + Ids(objects) && OnRecord(s', g, objects)
  }

  lemma AppliedMore(g: Generation, a: State, b: State, c: State, objects: seq<Ident>, n: nat, errs: Errors,
                    err: Option<ApiError>)
    requires AppliedSoFar(g, a, b, objects, n, errs) && n < |objects| && HoldsV3(c.world)
    requires HasBrought(b, c, objects[n], err)
    ensures AppliedSoFar(g, a, c, objects, n + 1, if err.Some? then errs + [err.value] else errs)
  {
    CarriesTransitive(a, b, c);
    AppliedMoreCalls(a, b, c, objects, n, errs, err);
    AppliedMoreWorld(g, a.world, b.world, c.world, objects, objects[n]);
    assert Ids(objects[..n + 1]) == Ids(objects[..n]) + {objects[n].Id()};
    CarriesKeeps(b, c);
    hide Deletions, Applies, DropsNone, Rely, Carries, AppliedCalls, AppliedWorld, PassNext, CONTENTION;
  }

  lemma AppliedMoreCalls(a: State, b: State, c: State, objects: seq<Ident>, n: nat, errs: Errors,
                         err: Option<ApiError>)
    requires n < |objects| && AppliedCalls(a, b, objects, n, errs) && Carries(a, b) && HasBrought(b, c, objects[n], err)
    ensures AppliedCalls(a, c, objects, n + 1, if err.Some? then errs + [err.value] else errs)
  {
    CarriesTransitive(a, b, c);
    PassesMore(a, b, c, n, errs, err);
    assert objects[n] in objects;
    assert objects[..n + 1] == objects[..n] + [objects[n]];
    hide Deletions, Applies, DropsNone, Rely, Carries, After, PassFor, Passing, PassNext, Undisturbed;
  }

  lemma AppliedMoreWorld(g: Generation, s: World, t: World, u: World, objects: seq<Ident>, o: Ident)
    requires AppliedWorld(g, s, t, objects) && Rely(t, u.(live := u.live * t.live)) && u.live <= t.live + {o.Id()}
    requires o in objects && HoldsV3(u)
    ensures AppliedWorld(g, s, u, objects)
  {
    OnRecordStable(t, u.(live := u.live * t.live), g, objects);
    LiveApart(s, t, u);
    assert o.Id() in Ids(objects);
    hide RelyStore, GenKey;
  }

  /** Others' moves and the operator's own applies, one after the other. */
  lemma LiveApart(a: World, b: World, c: World)
    requires Rely(a, b.(live := b.live * a.live)) && Rely(b, c.(live := c.live * b.live))
    ensures Rely(a, c.(live := c.live * a.live))
  {
  }

  // ---- The proof of ApplyAll ---------------------------------------------------------------

  /** Enough contention for the dry run and for every attempt of the update, and for nothing else. */
  ghost predicate Contends(a: State, objects: seq<Ident>) {
    a.world.cm.Some? && |a.tape| == |objects| + 2 * ATTEMPTS && Contention(a, |a.tape|)
  }

  /** What holds from the start of `ApplyAll` on. */
  ghost predicate Underway(g: Generation, a: State, b: State, recording: seq<Verdict>) {
    && Carries(a, b) && Deleted(a, b) == {} && DropsNone(b.trace, |a.trace|) && RelyMeta(a.world, b.world)
    && b.world.unrecorded <= a.world.unrecorded + (if GaveUp(recording) then {g} else {})
    && b.world.uncleaned == a.world.uncleaned
    && (GaveUp(recording) ==> |b.tape| + ATTEMPTS <= |a.tape|)
  }

  /** After recording. */
  ghost predicate HasRecorded(g: Generation, objects: seq<Ident>, a: State, b: State, err: Errors,
                              recording: seq<Verdict>)
  {
    && Underway(g, a, b, recording) && Idle(a, b) && (err == [] ==> OnRecord(b.world, g, objects))
    && (AtPeace(a) ==> err == [] && Smoothly(Recording(g, objects), a.world, b.world, []))
    && (Contends(a, objects) ==>
          && err == [] && GaveUp(recording) && AtPeace(b)
          && b.world == a.world.(unrecorded := a.world.unrecorded + {g}))
  }

  lemma RecordedAfterDryRun(st: Setting, g: Generation, objects: seq<Ident>, a: State, d: State, b: State, err: Errors,
                            recording: seq<Verdict>)
    requires HasDryRun(a, d, |objects|, [])
    requires HasRetried(st, Recording(g, objects), d, b, err, recording)
    ensures HasRecorded(g, objects, a, b, err, recording)
  {
    var op := Recording(g, objects);
    CarriesTransitive(a, d, b);
    CarriesKeeps(a, d);
    CarriesKeeps(d, b);
    RetriedMeta(st, op, d, b, err, recording);
    RelyMetaTransitive(a.world, d.world, b.world);
    hide Carries, Deletions, Applies, DropsNone, RelyMeta, RelyStore, Smoothly, GenKey, Ended, Abandoned,
         IsConflictError;
    if Contends(a, objects) {
      assert a.tape[|objects|..] == d.tape && Weight(op, d.world) == 2;
      assert Contention(d, 10);
      assert d.tape[10..] == [];
    }
  }

  lemma RetriedMeta(st: Setting, op: Operation, d: State, b: State, err: Errors, recording: seq<Verdict>)
    requires HasRetried(st, op, d, b, err, recording) && op.Recording?
    ensures RelyMeta(d.world, b.world) && b.world.uncleaned == d.world.uncleaned
    ensures b.world.unrecorded <= d.world.unrecorded + (if GaveUp(recording) then {op.generation} else {})
    ensures err == [] ==> OnRecord(b.world, op.generation, op.dependents)
  {
  }

  /** After applying. */
  ghost predicate HasBroughtUp(g: Generation, objects: seq<Ident>, a: State, b: State, errs: Errors,
                             recording: seq<Verdict>)
  {
    && Underway(g, a, b, recording) && OnRecord(b.world, g, objects) && (errs == [] ==> Applied(a, b) == objects)
    && (AtPeace(a) ==>
          && errs == [] && b.world.cm.Some? && Stored(b.world) == Updated(Stored(a.world), GenKey(g), objects)
          && b.world == a.world.(live := a.world.live + Ids(objects), cm := b.world.cm,
                                 unrecorded := a.world.unrecorded - {g}))
    && (Contends(a, objects) ==>
          && errs == [] && GaveUp(recording) && AtPeace(b)
          && b.world == a.world.(live := a.world.live + Ids(objects), unrecorded := a.world.unrecorded + {g}))
  }

  lemma AppliedAfterRecording(g: Generation, objects: seq<Ident>, a: State, r: State, b: State, errs: Errors,
                              recording: seq<Verdict>)
    requires HasRecorded(g, objects, a, r, [], recording) && AppliedSoFar(g, r, b, objects, |objects|, errs)
    ensures HasBroughtUp(g, objects, a, b, errs, recording)
  {
    CarriesTransitive(a, r, b);
    CarriesKeeps(a, r);
    CarriesKeeps(r, b);
    assert objects[..|objects|] == objects;
    hide Carries, Deletions, Applies, DropsNone, RelyStore, GenKey, After, Passing;
  }

  /** From the start of `ApplyAll` to its end: every object of the set is live and on record, and nothing else is. */
  ghost predicate Converged(st: Setting, g: Generation, objects: seq<Ident>, s: World, s': World) {
    && s' == s.(live := s'.live, cm := s'.cm, unrecorded := s.unrecorded - {g},
                uncleaned := s.uncleaned && objects != [])
    && s'.cm.Some? && Stored(s') == map[GenKey(g) := objects]
    && Ids(objects) <= s'.live && OnlyLeft(st, s', objects)
  }

  /** How the stages of `ApplyAll` went: the errors of dry run, recording and applying, and the verdicts of the two
      operations that are retried. A stage that was not reached has none. */
  datatype Stages = Stages(dry: Errors, recorded: Errors, applying: Errors, recording: seq<Verdict>,
                           cleaning: seq<Verdict>)

  /** Each stage is the last one if it fails. Before recording nothing is changed, before applying nothing is
      applied, and before the clean-up nothing is deleted and no record dropped; the clean-up is reached only
      after exactly the given objects were applied, in order and each with success. */
  ghost predicate InStages(a: State, b: State, objects: seq<Ident>, err: Errors, st: Stages) {
    && (st.dry == [] <==> Passing(a, |objects|))
    && (if st.dry != [] then err == st.dry && Idle(a, b) && Rely(a.world, b.world)
        else if st.recorded != [] then err == st.recorded && Idle(a, b)
        else if st.applying != [] then
          err == st.applying && Deleted(a, b) == {} && DropsNone(b.trace, |a.trace|)
        else Applied(a, b) == objects)
  }

  /** What `ApplyAll` leaves. Whatever fails or interferes, it deletes none of the given objects, a generation
      becomes unrecorded only if its update gave up, and success means that all of them were applied and
      nothing else is left unless the clean-up gave up. Undisturbed it converges. And if the update
      meets a conflict in each attempt, it succeeds all the same: the objects are live, and of all
      records only an old one of the same generation is left. */
  ghost predicate HasAppliedAll(st: Setting, g: Generation, objects: seq<Ident>, a: State, b: State, err: Errors,
                                stages: Stages)
  {
    && Carries(a, b) && Deleted(a, b) !! Ids(objects) && RelyMeta(a.world, b.world)
    && InStages(a, b, objects, err, stages)
    && b.world.unrecorded <= a.world.unrecorded + (if GaveUp(stages.recording) then {g} else {})
    && (b.world.uncleaned ==> a.world.uncleaned || GaveUp(stages.cleaning))
    && (GaveUp(stages.recording) || GaveUp(stages.cleaning) ==> |b.tape| + ATTEMPTS <= |a.tape|)
    && (err == [] ==> Applied(a, b) == objects && (GaveUp(stages.cleaning) || OnlyLeft(st, b.world, objects)))
    && (AtPeace(a) ==> err == [] && Converged(st, g, objects, a.world, b.world))
    && (Contends(a, objects) ==>
          && err == [] && GaveUp(stages.recording) && Ids(objects) <= b.world.live
          && Stored(b.world) == Only(Stored(a.world), GenKey(g))
          && b.world == a.world.(live := b.world.live, cm := b.world.cm, uncleaned := b.world.uncleaned,
                                 unrecorded := a.world.unrecorded + {g}))
  }

  /** The returns before the clean-up. */
  lemma StoppedEarly(st: Setting, g: Generation, objects: seq<Ident>, a: State, b: State, err: Errors, stages: Stages)
    requires Underway(g, a, b, stages.recording) && err != [] && !AtPeace(a) && !Contends(a, objects)
    requires InStages(a, b, objects, err, stages) && stages.cleaning == []
    ensures HasAppliedAll(st, g, objects, a, b, err, stages)
  {
    hide Carries, Deletions, Applies, DropsNone, RelyStore, InStages;
  }

  lemma AppliedAll(st: Setting, g: Generation, objects: seq<Ident>, a: State, p: State, b: State, err: Errors,
                   stages: Stages)
    requires HasBroughtUp(g, objects, a, p, [], stages.recording) && Passing(a, |objects|)
    requires stages.dry == stages.recorded == stages.applying == []
    requires HasRetried(st, Cleaning(g, objects), p, b, err, stages.cleaning)
    ensures HasAppliedAll(st, g, objects, a, b, err, stages)
  {
    hide Carries, Deletions, Applies, DropsNone, RelyStore, GenKey, OnRecord, IsConflictError, Weight, Passing,
         HasRetried, Contends, Updated, OnlyLeft;
    RetriedCleaning(st, g, objects, p, b, err, stages.cleaning);
    CarriesTransitive(a, p, b);
    CarriesKeeps(a, p);
    CarriesKeeps(p, b);
    UpdatedOnly(Stored(a.world), GenKey(g), objects);
    if Contends(a, objects) { ContendsStored(a, objects); }
  }

  lemma ContendsStored(a: State, objects: seq<Ident>)
    requires Contends(a, objects)
    ensures a.world.cm.Some? && !AtPeace(a)
  {
  }

  lemma UpdatedOnly(data: Records, key: string, objects: seq<Ident>)
    ensures Only(Updated(data, key, objects), key) == map[key := objects]
  {
    assert |Dirty(key)| == |key| + 6;
  }

  /** What a clean-up for the current set leaves, in short. */
  lemma RetriedCleaning(st: Setting, g: Generation, objects: seq<Ident>, p: State, b: State, err: Errors,
                        cleaning: seq<Verdict>)
    requires HasRetried(st, Cleaning(g, objects), p, b, err, cleaning)
    ensures Carries(p, b) && Deleted(p, b) !! Ids(objects) && Applied(p, b) == [] && RelyMeta(p.world, b.world)
    ensures b.world.unrecorded == p.world.unrecorded
    ensures b.world.uncleaned ==> p.world.uncleaned || GaveUp(cleaning)
    ensures GaveUp(cleaning) ==> |b.tape| + ATTEMPTS <= |p.tape|
    ensures err == [] ==> GaveUp(cleaning) || OnlyLeft(st, b.world, objects)
    ensures AtPeace(p) && p.world.cm.Some? ==>
      && err == [] && OnlyLeft(st, b.world, objects) && b.world.cm.Some?
      && b.world == p.world.(live := b.world.live, cm := b.world.cm, uncleaned := p.world.uncleaned && objects != [])
      && p.world.live * Ids(objects) <= b.world.live && Stored(b.world) == Only(Stored(p.world), GenKey(g))
  {
    hide Carries, Deletions, Applies, DropsNone, RelyStore, GenKey, OnRecord, IsConflictError, Weight;
  }

  class OperatorUtils {
    const server: ApiServer
    const lifecycle: DependentLifecycleManager

    constructor (server: ApiServer, generation: Generation)
      ensures this.server == server && lifecycle.server == server && lifecycle.generation == generation
    {
      this.server := server;
      this.lifecycle := new DependentLifecycleManager(server, generation);
    }

    /** `applyAll` with the dry-run option. */
    method DryRunAll(objects: seq<Ident>) returns (errs: Errors)
      requires server.Valid()
      modifies server
      ensures server.Valid() && HasDryRun(old(server.state), server.state, |objects|, errs)
    {
      hide IsRun, Inv, HistoryOf, HasDryRun, Called, OnlyInterfered;
      DryRunNone(server.state);
      errs := [];
      for n := 0 to |objects|
        invariant server.Valid() && HasDryRun(old(server.state), server.state, n, errs)
      {
        ghost var mid := server.state;
        var err := server.Probe();
        DryRunMore(old(server.state), mid, server.state, n, errs, err);
        if err.Some? { errs := errs + [err.value]; }
      }
    }

    /** `applyAll`: goes on after an error. Every object is on record before it is applied. */
    method ApplyObjects(objects: seq<Ident>) returns (errs: Errors)
      requires server.Valid() && MayApply(server.state.world) && objects == server.setting.built(lifecycle.generation)
      requires OnRecord(server.state.world, lifecycle.generation, objects)
      modifies server
      ensures server.Valid()
      ensures AppliedSoFar(lifecycle.generation, old(server.state), server.state, objects, |objects|, errs)
    {
      hide IsRun, Inv, HistoryOf, Deletions, Applies, DropsNone, Rely, OnRecord, MayComeAlive, Called;
      errs := [];
      ghost var g := lifecycle.generation;
      AppliedNone(g, server.state, objects);
      for n := 0 to |objects|
        invariant server.Valid() && MayApply(server.state.world)
        invariant AppliedSoFar(g, old(server.state), server.state, objects, n, errs)
      {
        ghost var mid := server.state;
        OnRecordMayComeAlive(server.setting, mid.world, g, objects, objects[n]);
        var err := server.ApplyObject(objects[n]);
        MayApplyKept(mid.world, server.state.world);
        AppliedMore(g, old(server.state), mid, server.state, objects, n, errs, err);
        if err.Some? { errs := errs + [err.value]; }
      }
    }

    /** Dry run, record, apply, clean up. */
    method ApplyAll(objects: seq<Ident>) returns (err: Errors, stages: Stages)
      requires lifecycle.server == server && server.Valid() && MayApply(server.state.world)
      requires objects == server.setting.built(lifecycle.generation)
      modifies server
      ensures server.Valid()
      ensures HasAppliedAll(server.setting, lifecycle.generation, objects, old(server.state), server.state, err, stages)
    {
      hide IsRun, Inv, HistoryOf, Ready, HasRetried, HasAppliedAll, HasRecorded, HasBroughtUp, Contends, OnRecord,
           Underway, InStages;
      ghost var st, g, a := server.setting, lifecycle.generation, server.state;
      err := DryRunAll(objects);
      stages := Stages(err, [], [], [], []);
      ghost var d := server.state;
      if err != [] {
        DryRunUnderway(g, a, d, objects, err);
        StoppedEarly(st, g, objects, a, d, err, stages);
        return;
      }

      MayApplyStable(a.world, d.world);
      assert Ready(st, Recording(g, objects), d.world) by { ReadyToRecord(st, g, objects, d.world); }
      var recording;
      err, recording := lifecycle.UpdateDependentLifecycleInfo(objects);
      stages := stages.(recorded := err, recording := recording);
      ghost var r := server.state;
      RecordedAfterDryRun(st, g, objects, a, d, r, err, recording);
      RecordedFacts(g, objects, a, r, err, stages);
      if err != [] {
        StoppedEarly(st, g, objects, a, r, err, stages);
        return;
      }

      MayApplyStable(a.world, r.world);
      err := ApplyObjects(objects);
      stages := stages.(applying := err);
      ghost var p := server.state;
      AppliedAfterRecording(g, objects, a, r, p, err, recording);
      AppliedFacts(g, objects, a, p, err, stages);
      if err != [] {
        StoppedEarly(st, g, objects, a, p, err, stages);
        return;
      }

      MayApplyStable(a.world, p.world);
      ReadyToClean(st, g, objects, p.world);
      var cleaning;
      err, cleaning := lifecycle.CleanupDependents(objects);
      stages := stages.(cleaning := cleaning);
      AppliedAll(st, g, objects, a, p, server.state, err, stages);
    }

    /** Cleans up with an empty current set. No error means that nothing is left, unless a retry gave up. */
    method DeleteAll() returns (err: Errors, verdicts: seq<Verdict>)
      requires lifecycle.server == server && server.Valid() && HoldsV3(server.state.world)
      modifies server
      ensures server.Valid()
      ensures HasDeletedAll(server.setting, old(server.state), server.state, err, verdicts)
    {
      hide IsRun, Inv, HistoryOf, Ready, HasRetried, HasDeletedAll;
      ReadyToClean(server.setting, lifecycle.generation, [], server.state.world);
      err, verdicts := lifecycle.CleanupDependents([]);
      DeletedAll(server.setting, lifecycle.generation, old(server.state), server.state, err, verdicts);
    }
  }

  lemma MayApplyKept(s: World, s': World)
    requires Rely(s, s'.(live := s'.live * s.live)) && MayApply(s)
    ensures MayApply(s')
  {
  }

  lemma DryRunUnderway(g: Generation, a: State, d: State, objects: seq<Ident>, dry: Errors)
    requires HasDryRun(a, d, |objects|, dry) && dry != []
    ensures Underway(g, a, d, []) && !AtPeace(a) && !Contends(a, objects)
    ensures InStages(a, d, objects, dry, Stages(dry, [], [], [], []))
  {
    hide Deletions, Applies, RelyStore;
  }

  lemma ReadyToRecord(st: Setting, g: Generation, objects: seq<Ident>, s: World)
    requires HoldsV3(s) && objects == st.built(g)
    ensures Ready(st, Recording(g, objects), s)
  {
  }

  lemma ReadyToClean(st: Setting, g: Generation, current: seq<Ident>, s: World)
    requires HoldsV3(s) && (current == [] || (current == st.built(g) && OnRecord(s, g, current)))
    ensures Ready(st, Cleaning(g, current), s)
  {
  }

  lemma RecordedFacts(g: Generation, objects: seq<Ident>, a: State, b: State, err: Errors, stages: Stages)
    requires HasRecorded(g, objects, a, b, err, stages.recording) && Passing(a, |objects|)
    requires stages.dry == [] && stages.recorded == err
    ensures Underway(g, a, b, stages.recording) && RelyMeta(a.world, b.world)
    ensures if err == [] then OnRecord(b.world, g, objects)
            else !AtPeace(a) && !Contends(a, objects) && InStages(a, b, objects, err, stages)
  {
    hide Carries, Deletions, Applies, DropsNone, RelyStore;
  }

  lemma AppliedFacts(g: Generation, objects: seq<Ident>, a: State, b: State, errs: Errors, stages: Stages)
    requires HasBroughtUp(g, objects, a, b, errs, stages.recording) && Passing(a, |objects|)
    requires stages.dry == stages.recorded == [] && stages.applying == errs
    ensures Underway(g, a, b, stages.recording) && RelyMeta(a.world, b.world) && OnRecord(b.world, g, objects)
    ensures errs != [] ==> !AtPeace(a) && !Contends(a, objects) && InStages(a, b, objects, errs, stages)
  {
    hide Carries, Deletions, Applies, DropsNone, RelyStore;
  }

  // ---- The proof of DeleteAll --------------------------------------------------------------

  /** What `DeleteAll` leaves: success means that nothing is left, unless all attempts were refused, which is
      exactly when everything counts as uncleaned. Undisturbed it succeeds exactly if there is a ConfigMap.
      And if every attempt is contended it succeeds with nothing deleted. */
  ghost predicate HasDeletedAll(st: Setting, a: State, b: State, err: Errors, verdicts: seq<Verdict>) {
    && Carries(a, b) && Retried(ATTEMPTS, verdicts, err) && RelyMeta(a.world, b.world)
    && b.world.unrecorded == a.world.unrecorded && (b.world.uncleaned <==> GaveUp(verdicts))
    && (GaveUp(verdicts) ==> |b.tape| + ATTEMPTS <= |a.tape|)
    && (err == [] ==> MayRelease(st, b.world))
    && (AtPeace(a) && a.world.cm.None? ==> err != [] && b.world == a.world.(uncleaned := false))
    && (AtPeace(a) && a.world.cm.Some? ==>
          && err == [] && OnlyLeft(st, b.world, []) && b.world.cm.Some?
          && b.world == a.world.(live := b.world.live, cm := b.world.cm, uncleaned := false))
    && (ContendsAll(a) ==>
          && err == [] && !b.crashed && b.tape == a.tape[FullWeight(a.world)..]
          && b.world == a.world.(uncleaned := true))
  }

  /** The calls that five attempts of a clean-up make when every delete is refused. */
  ghost function FullWeight(s: World): nat {
    ATTEMPTS * (2 + Cost(Stored(s), []))
  }

  ghost predicate ContendsAll(a: State) {
    a.world.cm.Some? && Contention(a, FullWeight(a.world))
  }

  lemma DeletedAll(st: Setting, g: Generation, a: State, b: State, err: Errors, verdicts: seq<Verdict>)
    requires HasRetried(st, Cleaning(g, []), a, b, err, verdicts)
    ensures HasDeletedAll(st, a, b, err, verdicts)
  {
    hide Carries, Deletions, Applies, DropsNone, RelyStore, GenKey, OnRecord, IsConflictError, Cost;
  }

  // ---- Consequences ------------------------------------------------------------------------

  /** Applying the same set again changes nothing but the resource version of the record. */
  method ApplyTwice(utils: OperatorUtils, objects: seq<Ident>) returns (ghost once: World)
    requires utils.lifecycle.server == utils.server && utils.server.Valid() && MayApply(utils.server.state.world)
    requires objects == utils.server.setting.built(utils.lifecycle.generation) && AtPeace(utils.server.state)
    modifies utils.server
    ensures utils.server.Valid() && Stored(once) == map[utils.lifecycle.Key() := objects]
    ensures var was := old(utils.server.state).world;
      !was.tampered && was.unrecorded <= {utils.lifecycle.generation} ==>
      once.live == Ids(objects) && utils.server.state.world == once.(cm := utils.server.state.world.cm)
    ensures Stored(utils.server.state.world) == Stored(once)
  {
    hide IsRun, Inv, HistoryOf;
    var server := utils.server;
    ghost var a := server.state;
    var _, _ := utils.ApplyAll(objects);
    ghost var b := server.state;
    once := b.world;
    MayApplyStable(a.world, b.world);
    var _, _ := utils.ApplyAll(objects);
    assert a.world.unrecorded <= {utils.lifecycle.generation} ==> once.unrecorded == {};
    assert forall x :: !Lost(server.setting, {}, x);
    hide Lost;
  }

  /** Why the no-orphan result excludes generations whose update gave up: the objects of the new generation are
      live, no error is reported, and the clean-up dropped the older record, the only one there was. */
  method SilentGiveUp(version: string, o: Ident) returns (server: ApiServer, err: Errors)
    ensures fresh(server) && server.Valid() && err == []
    ensures server.state.world.cr.Some? && o.Id() in server.state.world.live
    ensures !Covers(Stored(server.state.world), o.Id()) && !server.state.world.tampered
  {
    var older, current := Generation(version, 1), Generation(version, 2);
    var setting := Setting(g => [o], x => o.version);
    var cr := CustomResource([FINALIZER_V3], false, 2);
    var cm := ConfigMap(1, map[GenKey(older) := [o]]);
    var start := World({o.Id()}, Some(cm), Some(cr), Some(cr), {}, false, false);
    OneRecordIsSafe(setting, older, start);
    server := new ApiServer(setting, start, seq(1 + 2 * ATTEMPTS, _ => CONTENTION));
    hide IsRun, Inv, HistoryOf, Converged;
    var utils := new OperatorUtils(server, current);
    assert Contends(server.state, [o]);
    var stages;
    err, stages := utils.ApplyAll([o]);
    if GenKey(older) == GenKey(current) { GenKeyInjective(older, current); }
    assert Stored(server.state.world) == map[];
  }

  /** A state with V3 in place and one record of everything that is live. */
  lemma OneRecordIsSafe(st: Setting, g: Generation, s: World)
    requires st.Good() && HoldsV3(s) && s.cm.Some? && s.cm.value.data == map[GenKey(g) := st.built(g)]
    requires s.live <= Ids(st.built(g))
    ensures Inv(st, s)
  {
    GenKeyOwned(g);
    BuiltInScope(st, g);
    assert forall x :: x in s.live ==> x in Ids(Stored(s)[GenKey(g)]);
  }
}
