/** The reconcile of the agent resource: its step order, its finalizers, and runs of it. */
module Controller {
  import opened Identity
  import opened Protocol
  import opened Cluster
  import opened Client
  import opened Lifecycle
  import opened Operator
  import opened Wrappers

  /** `reconcileReturn`: continue, or a result for the work queue. */
  datatype ReconcileReturn = Continue | Success(requeue: bool) | Failure(errs: Errors) {
    predicate SuppliesReconcileResult() { !Continue? }
  }

  /** The reconcile read `agent`, and V3 is in place exactly if it saw it there. */
  ghost predicate Sees(s: World, agent: CustomResource) {
    s.seen == Some(agent) && (HoldsV3(s) <==> FINALIZER_V3 in agent.finalizers)
  }

  // ---- What the steps leave ----------------------------------------------------------------

  /** What a reconcile by an operator of that version does to the exceptions: the generation it saw becomes
      unrecorded only if its update gave up, and everything uncleaned only if the clean-up did. */
  ghost predicate Excepts(version: string, a: State, b: State, recording: seq<Verdict>, cleaning: seq<Verdict>) {
    && Carries(a, b)
    && b.world.unrecorded <= a.world.unrecorded +
         (if GaveUp(recording) && b.world.seen.Some? then {Generation(version, b.world.seen.value.generation)} else {})
    && (b.world.uncleaned ==> a.world.uncleaned || GaveUp(cleaning))
  }

  /** The last step was a patch of the finalizers. */
  ghost predicate Patched(a: State, b: State) {
    |a.trace| < |b.trace| && b.trace[|b.trace| - 1].action.SetFinalizers?
  }

  /** Success is reported for nothing but what was done: without a requeue, the resource is gone, or it is under
      deletion with nothing left to do, or exactly the objects of its generation were applied; with a
      requeue, a finalizer was patched. So every error that stops the work ends in a failure. */
  ghost predicate Reported(st: Setting, version: string, a: State, b: State, res: ReconcileReturn) {
    && (res == Success(true) ==> Patched(a, b))
    && (res == Success(false) ==>
          || b.world.cr.None?
          || (b.world.seen.Some? &&
              var cr := b.world.seen.value;
              if cr.deleting then FINALIZER_V1 !in cr.finalizers && FINALIZER_V3 !in cr.finalizers
              else Applied(a, b) == st.built(Generation(version, cr.generation))))
  }

  /** What a deletion leaves while every delete and every store is refused: it goes on as if all were done. */
  ghost predicate Leaks(a: State, b: State, agent: CustomResource, res: ReconcileReturn) {
    a.world.cr == Some(agent) && ContendsAll(a) && |a.tape| == FullWeight(a.world) ==>
      && res == Success(true)
      && b.world == a.world.(uncleaned := true, cr := WithFinalizers(agent, Removed(agent.finalizers, FINALIZER_V3)))
  }

  /** What an undisturbed reconcile does, by what the resource holds. */
  ghost predicate CalmOutcome(st: Setting, s: World, s': World, version: string, res: ReconcileReturn) {
    if s.cr.None? then res == Success(false) && s' == s
    else
      var cr := s.cr.value;
      var f, g := cr.finalizers, Generation(version, cr.generation);
      && s'.seen == s.cr && s'.tampered == s.tampered
      && if FINALIZER_V1 in f then
           res == Success(true) && s' == s.(seen := s.cr, cr := WithFinalizers(cr, Removed(f, FINALIZER_V1)))
         else if cr.deleting && FINALIZER_V3 !in f then
           res == Success(false) && s' == s.(seen := s.cr)
         else if cr.deleting && s.cm.None? then
           res.Failure? && s' == s.(seen := s.cr, uncleaned := false)
         else if cr.deleting then
           && res == Success(true) && s'.cr == WithFinalizers(cr, Removed(f, FINALIZER_V3))
           && s'.unrecorded == s.unrecorded && !s'.uncleaned && OnlyLeft(st, s', [])
         else if FINALIZER_V3 !in f then
           res == Success(true) && s' == s.(seen := s.cr, cr := Some(cr.(finalizers := f + [FINALIZER_V3])))
         else
           res == Success(false) && Converged(st, g, st.built(g), s.(seen := s.cr), s')
  }

  class InstanaAgentReconciler {
    const server: ApiServer

    constructor (server: ApiServer)
      ensures this.server == server
    {
      this.server := server;
    }

    method GetAgent() returns (agent: Option<CustomResource>, res: ReconcileReturn)
      requires server.Valid()
      modifies server
      ensures server.Valid() && Called(old(server.state), server.state)
      ensures SameExceptions(old(server.state).world, server.state.world)
      ensures Idle(old(server.state), server.state) && (res.Continue? <==> agent.Some?)
      ensures agent.None? ==> res.Failure? || (res == Success(false) && server.state.world.cr.None?)
      ensures agent.Some? ==> Sees(server.state.world, agent.value)
      ensures Undisturbed(old(server.state)) ==>
        var was := old(server.state).world;
        && agent == was.cr && server.state.world == was.(seen := if agent.Some? then agent else was.seen)
        && (agent.None? ==> res == Success(false))
    {
      hide IsRun, Inv, HistoryOf, Called;
      var r := server.GetResource();
      match r
      case Ok(cr) => return Some(cr), Continue;
      case Err(e) => return None, if e.Is(NotFound) then Success(false) else Failure([e]);
    }

    method UpdateAgent(finalizers: seq<string>) returns (res: ReconcileReturn)
      requires server.Valid()
      requires HoldsV3(server.state.world) && FINALIZER_V3 !in finalizers ==>
        MayRelease(server.setting, server.state.world)
      modifies server
      ensures server.Valid() && Called(old(server.state), server.state) && res.SuppliesReconcileResult()
      ensures SameExceptions(old(server.state).world, server.state.world)
      ensures res == Success(true) ==> Patched(old(server.state), server.state)
      ensures res == Success(false) ==> server.state.world.cr.None?
      ensures Undisturbed(old(server.state)) && old(server.state).world.cr.Some? ==>
        var was := old(server.state).world;
        res == Success(true) && server.state.world == was.(cr := WithFinalizers(was.cr.value, finalizers))
    {
      hide IsRun, Inv, HistoryOf, Called;
      var err := server.PatchFinalizers(finalizers);
      match err
      case None => res := Success(true);
      case Some(e) => res := if e.Is(NotFound) then Success(false) else Failure([e]);
    }

    method CleanupHelmChart(agent: CustomResource) returns (res: ReconcileReturn)
      requires server.Valid() && Sees(server.state.world, agent)
      modifies server
      ensures server.Valid() && Carries(old(server.state), server.state)
      ensures SameExceptions(old(server.state).world, server.state.world)
      ensures res.Continue? <==> FINALIZER_V1 !in agent.finalizers
      ensures res.Continue? ==> server.state == old(server.state)
      ensures res == Success(true) ==> Patched(old(server.state), server.state)
      ensures res == Success(false) ==> server.state.world.cr.None?
      ensures AtPeace(old(server.state)) && old(server.state).world.cr == Some(agent) && !res.Continue? ==>
        && res == Success(true)
        && server.state.world == old(server.state).world.(
             cr := WithFinalizers(agent, Removed(agent.finalizers, FINALIZER_V1)))
    {
      hide IsRun, Inv, HistoryOf, Deletions, Applies, DropsNone;
      CarriesReflexive(server.state);
      if FINALIZER_V1 !in agent.finalizers { return Continue; }
      var err := server.Probe();
      if err.Some? { return Failure([err.value]); }
      ghost var mid := server.state;
      res := UpdateAgent(Removed(agent.finalizers, FINALIZER_V1));
      CarriesTransitive(old(server.state), mid, server.state);
    }

    method CleanupDependents(agent: CustomResource, utils: OperatorUtils)
      returns (res: ReconcileReturn, verdicts: seq<Verdict>)
      requires server.Valid() && Sees(server.state.world, agent)
      requires utils.server == server && utils.lifecycle.server == server
      modifies server
      ensures server.Valid() && Carries(old(server.state), server.state)
      ensures server.state.world.unrecorded == old(server.state).world.unrecorded
      ensures server.state.world.uncleaned ==> old(server.state).world.uncleaned || GaveUp(verdicts)
      ensures res.Continue? <==> FINALIZER_V3 !in agent.finalizers
      ensures res.Continue? ==> server.state == old(server.state)
      ensures !res.Continue? ==> Leaks(old(server.state), server.state, agent, res)
      ensures res == Success(true) ==> Patched(old(server.state), server.state)
      ensures res == Success(false) ==> server.state.world.cr.None?
      ensures AtPeace(old(server.state)) && old(server.state).world.cr == Some(agent) && !res.Continue? ==>
        var s, s' := old(server.state).world, server.state.world;
        if s.cm.None? then res.Failure? && s' == s.(uncleaned := false)
        else
          && res == Success(true) && OnlyLeft(server.setting, s', [])
          && s' == s.(live := s'.live, cm := s'.cm, uncleaned := false,
                      cr := WithFinalizers(agent, Removed(agent.finalizers, FINALIZER_V3)))
    {
      hide IsRun, Inv, HistoryOf, Deletions, Applies, DropsNone, Lost, FullWeight, Retried;
      CarriesReflexive(server.state);
      verdicts := [];
      if FINALIZER_V3 !in agent.finalizers { return Continue, []; }
      var err;
      err, verdicts := utils.DeleteAll();
      if err != [] { return Failure(err), verdicts; }
      ghost var mid := server.state;
      res := UpdateAgent(Removed(agent.finalizers, FINALIZER_V3));
      CarriesTransitive(old(server.state), mid, server.state);
    }

    method HandleDeletion(agent: CustomResource, utils: OperatorUtils)
      returns (res: ReconcileReturn, verdicts: seq<Verdict>)
      requires server.Valid() && Sees(server.state.world, agent)
      requires utils.server == server && utils.lifecycle.server == server
      modifies server
      ensures server.Valid() && Carries(old(server.state), server.state)
      ensures server.state.world.unrecorded == old(server.state).world.unrecorded
      ensures server.state.world.uncleaned ==> old(server.state).world.uncleaned || GaveUp(verdicts)
      ensures res.Continue? <==> !agent.deleting
      ensures res.Continue? ==> server.state == old(server.state)
      ensures agent.deleting && FINALIZER_V1 !in agent.finalizers && FINALIZER_V3 in agent.finalizers ==>
        Leaks(old(server.state), server.state, agent, res)
      ensures res == Success(true) ==> Patched(old(server.state), server.state)
      ensures res == Success(false) ==>
        || server.state.world.cr.None?
        || (FINALIZER_V1 !in agent.finalizers && FINALIZER_V3 !in agent.finalizers
            && server.state == old(server.state))
      ensures AtPeace(old(server.state)) && agent.deleting && old(server.state).world.cr == Some(agent) ==>
        CalmOutcome(server.setting, old(server.state).world, server.state.world,
                    utils.lifecycle.generation.version, res)
    {
      hide IsRun, Inv, HistoryOf, Deletions, Applies, DropsNone, Leaks, Converged;
      CarriesReflexive(server.state);
      verdicts := [];
      if !agent.deleting { return Continue, []; }
      res := CleanupHelmChart(agent);
      if res.SuppliesReconcileResult() { return; }
      res, verdicts := CleanupDependents(agent, utils);
      if res.SuppliesReconcileResult() { return; }
      res := Success(false);
    }

    method AddOrUpdateFinalizers(agent: CustomResource) returns (res: ReconcileReturn)
      requires server.Valid() && Sees(server.state.world, agent)
      modifies server
      ensures server.Valid() && Carries(old(server.state), server.state)
      ensures SameExceptions(old(server.state).world, server.state.world)
      ensures res.Continue? <==> FINALIZER_V1 !in agent.finalizers && FINALIZER_V3 in agent.finalizers
      ensures res.Continue? ==> server.state == old(server.state)
      ensures res == Success(true) ==> Patched(old(server.state), server.state)
      ensures res == Success(false) ==> server.state.world.cr.None?
      ensures AtPeace(old(server.state)) && old(server.state).world.cr == Some(agent) && !res.Continue? ==>
        && res == Success(true)
        && server.state.world == old(server.state).world.(cr := WithFinalizers(agent,
             if FINALIZER_V1 in agent.finalizers then Removed(agent.finalizers, FINALIZER_V1)
             else agent.finalizers + [FINALIZER_V3]))
    {
      hide IsRun, Inv, HistoryOf, Deletions, Applies, DropsNone;
      res := CleanupHelmChart(agent);
      if res.SuppliesReconcileResult() { return; }
      if FINALIZER_V3 in agent.finalizers { return Continue; }
      res := UpdateAgent(agent.finalizers + [FINALIZER_V3]);
    }

    /** One reconcile by an operator of the given version. Whatever happens, the steps taken are a run of the
        protocol, the exceptions to its results are those that `Excepts` names, and success is reported only for
        what `Reported` says was done; undisturbed, the outcome is determined. A deletion of which every write is
        refused removes V3 and leaves everything else. */
    method Reconcile(version: string)
      returns (res: ReconcileReturn, recording: seq<Verdict>, cleaning: seq<Verdict>)
      requires server.Valid()
      modifies server
      ensures server.Valid() && res.SuppliesReconcileResult()
      ensures Excepts(version, old(server.state), server.state, recording, cleaning)
      ensures Reported(server.setting, version, old(server.state), server.state, res)
      ensures AtPeace(old(server.state)) ==>
        CalmOutcome(server.setting, old(server.state).world, server.state.world, version, res)
      ensures var s := old(server.state).world;
        && s.cr.Some? && s.cr.value.deleting && s.cm.Some?
        && FINALIZER_V1 !in s.cr.value.finalizers && FINALIZER_V3 in s.cr.value.finalizers
        && |old(server.state).tape| == 1 + FullWeight(s) && Contention(old(server.state), 1 + FullWeight(s)) ==>
          && res == Success(true)
          && server.state.world == s.(seen := s.cr, uncleaned := true,
                                      cr := WithFinalizers(s.cr.value, Removed(s.cr.value.finalizers, FINALIZER_V3)))
    {
      hide IsRun, Inv, HistoryOf, Deletions, Applies, DropsNone, Lost, FullWeight, Converged, Reported, Excepts, Idle,
           Carries;
      recording, cleaning := [], [];
      ghost var st, a := server.setting, server.state;
      var agent;
      agent, res := GetAgent();
      ghost var b := server.state;
      if res.SuppliesReconcileResult() {
        EndedEarly(st, version, a, b, res, [], []);
        return;
      }

      SeenWeight(a.world, b.world);
      var utils := new OperatorUtils(server, Generation(version, agent.value.generation));
      res, cleaning := HandleDeletion(agent.value, utils);
      if res.SuppliesReconcileResult() {
        EndedEarly(st, version, b, server.state, res, [], cleaning);
        AfterRead(st, version, a, b, server.state, res, [], cleaning);
        return;
      }

      res := AddOrUpdateFinalizers(agent.value);
      if res.SuppliesReconcileResult() {
        EndedEarly(st, version, b, server.state, res, [], cleaning);
        AfterRead(st, version, a, b, server.state, res, [], cleaning);
        return;
      }

      res, recording, cleaning := ApplyResources(agent.value, utils);
      AfterRead(st, version, a, b, server.state, res, recording, cleaning);
    }

    /** The reads before, which may end the reconcile, and `applyResources`. */
    method ApplyResources(agent: CustomResource, utils: OperatorUtils)
      returns (res: ReconcileReturn, recording: seq<Verdict>, cleaning: seq<Verdict>)
      requires server.Valid() && MayApply(server.state.world) && server.state.world.seen == Some(agent)
      requires utils.server == server && utils.lifecycle.server == server
      requires utils.lifecycle.generation.number == agent.generation
      modifies server
      ensures server.Valid() && (res == Success(false) || res.Failure?)
      ensures Excepts(utils.lifecycle.generation.version, old(server.state), server.state, recording, cleaning)
      ensures Reported(server.setting, utils.lifecycle.generation.version, old(server.state), server.state, res)
      ensures AtPeace(old(server.state)) ==>
        var g := utils.lifecycle.generation;
        && res == Success(false) && server.state.world.seen == Some(agent)
        && server.state.world.tampered == old(server.state).world.tampered
        && Converged(server.setting, g, server.setting.built(g), old(server.state).world, server.state.world)
    {
      hide IsRun, Inv, HistoryOf, Deletions, Applies, DropsNone, Lost, HasAppliedAll, Converged, Reported, Excepts;
      ghost var st, version, a := server.setting, utils.lifecycle.generation.version, server.state;
      var err := server.Probe();
      ghost var c := server.state;
      if err.Some? {
        EndedEarly(st, version, a, c, Failure([err.value]), [], []);
        return Failure([err.value]), [], [];
      }
      MayApplyStable(a.world, c.world);
      var errs, stages;
      errs, stages := utils.ApplyAll(server.setting.built(utils.lifecycle.generation));
      ReconcileApplies(st, version, agent, a, c, server.state, errs, stages);
      recording, cleaning := stages.recording, stages.cleaning;
      res := if errs != [] then Failure(errs) else Success(false);
    }

    /** Reconciles until no immediate requeue is asked for: at most two, one per finalizer out of place. */
    method Settle(version: string) returns (res: ReconcileReturn, requeues: nat)
      requires server.Valid() && AtPeace(server.state)
      modifies server
      ensures server.Valid() && Carries(old(server.state), server.state)
      ensures requeues <= Pending(old(server.state).world) <= 2
      ensures Settled(server.setting, old(server.state).world, server.state.world, version, res)
    {
      hide IsRun, Inv, HistoryOf, Deletions, Applies, DropsNone, OnTheWay, Settled, CalmOutcome;
      requeues, res := 0, Success(true);
      ghost var a := server.state;
      CarriesReflexive(a);
      OnTheWayAtStart(server.setting, a.world);
      while res == Success(true)
        invariant server.Valid() && Carries(a, server.state) && AtPeace(server.state)
        invariant res == Success(true) ==>
          && OnTheWay(server.setting, a.world, server.state.world)
          && requeues + Pending(server.state.world) == Pending(a.world)
        invariant res != Success(true) ==>
          requeues <= Pending(a.world) && Settled(server.setting, a.world, server.state.world, version, res)
        decreases res == Success(true), Pending(server.state.world)
      {
        ghost var b := server.state;
        var recording, cleaning;
        res, recording, cleaning := Reconcile(version);
        CarriesTransitive(a, b, server.state);
        CalmOutcomeProgress(server.setting, a.world, b.world, server.state.world, version, res);
        if res == Success(true) { requeues := requeues + 1; }
      }
    }

    /** Any number of reconciles, by operators of any versions; the process restarts after a crash. Every state
        on the way is safe, so a crash after any call is too; and every exception on the way has its cause. */
    method Operate(versions: seq<string>)
      requires server.Valid()
      modifies server
      ensures server.Valid() && Grows(old(server.state), server.state)
      ensures SafeThroughout(server.setting, server.origin, server.state.trace)
    {
      ghost var a := server.state;
      CarriesReflexive(a);
      for n := 0 to |versions|
        invariant server.Valid() && Grows(a, server.state)
      {
        hide IsRun, Inv, HistoryOf;
        server.state := server.state.(crashed := false);
        ghost var b := server.state;
        var _, _, _ := Reconcile(versions[n]);
        GrowsTransitive(a, b, server.state);
      }
      AlwaysSafe(server.setting, server.origin, server.state.trace);
    }
  }

  lemma GrowsTransitive(a: State, b: State, c: State)
    requires Grows(a, b) && Carries(b, c)
    ensures Grows(a, c)
  {
  }

  /** Every state satisfies the invariant, and whatever it is excused from is due to five conflicts or to
      somebody else's tampering. */
  ghost predicate SafeThroughout(st: Setting, origin: World, trace: seq<Entry>) {
    forall n :: 0 <= n <= |trace| ==>
      var s := Before(origin, trace, n);
      && Inv(st, s) && (forall g :: g in s.unrecorded && g !in origin.unrecorded ==> Excused(trace, n, g))
      && (s.uncleaned && !origin.uncleaned ==> ExcusedCleaning(trace, n))
      && (s.tampered && !origin.tampered ==> ExcusedTampering(origin, trace, n))
  }

  lemma AlwaysSafe(st: Setting, origin: World, trace: seq<Entry>)
    requires st.Good() && Inv(st, origin) && IsRun(st, origin, trace)
    ensures SafeThroughout(st, origin, trace)
  {
    hide IsRun, Inv, Excused, ExcusedCleaning, ExcusedTampering;
    forall n | 0 <= n <= |trace|
      ensures var s := Before(origin, trace, n);
        && Inv(st, s) && (forall g :: g in s.unrecorded && g !in origin.unrecorded ==> Excused(trace, n, g))
        && (s.uncleaned && !origin.uncleaned ==> ExcusedCleaning(trace, n))
        && (s.tampered && !origin.tampered ==> ExcusedTampering(origin, trace, n))
    {
      var s := Before(origin, trace, n);
      RunIsSafe(st, origin, trace, n);
      forall g | g in s.unrecorded && g !in origin.unrecorded ensures Excused(trace, n, g) {
        UnrecordedHasCause(st, origin, trace, n, g);
      }
      if s.uncleaned && !origin.uncleaned { UncleanedHasCause(st, origin, trace, n); }
      if s.tampered && !origin.tampered { TamperedHasCause(st, origin, trace, n); }
    }
  }

  lemma ReconcileApplies(st: Setting, version: string, cr: CustomResource, a: State, c: State, d: State, err: Errors,
                         stages: Stages)
    requires var g := Generation(version, cr.generation); HasAppliedAll(st, g, st.built(g), c, d, err, stages)
    requires OnlyInterfered(a, c) && a.world.seen == Some(cr) && !cr.deleting
    ensures Excepts(version, a, d, stages.recording, stages.cleaning) && d.world.seen == Some(cr)
    ensures Reported(st, version, a, d, if err == [] then Success(false) else Failure(err))
    ensures AtPeace(a) && c.world == a.world ==>
      var g := Generation(version, cr.generation);
      err == [] && d.world.tampered == a.world.tampered && Converged(st, g, st.built(g), a.world, d.world)
  {
    CarriesTransitive(a, c, d);
    CarriesKeeps(a, c);
    hide Carries, Deletions, Applies, DropsNone, OnlyLeft, Contends, RelyStore, InStages;
  }

  /** What ends a reconcile before anything is applied. */
  lemma EndedEarly(st: Setting, version: string, a: State, b: State, res: ReconcileReturn, recording: seq<Verdict>,
                   cleaning: seq<Verdict>)
    requires Carries(a, b) && b.world.unrecorded <= a.world.unrecorded
    requires b.world.uncleaned ==> a.world.uncleaned || GaveUp(cleaning)
    requires res == Success(true) ==> Patched(a, b)
    requires res == Success(false) ==>
      || b.world.cr.None?
      || (b.world.seen.Some? && b.world.seen.value.deleting && FINALIZER_V1 !in b.world.seen.value.finalizers
          && FINALIZER_V3 !in b.world.seen.value.finalizers)
    ensures Excepts(version, a, b, recording, cleaning) && Reported(st, version, a, b, res)
  {
  }

  /** The read of the resource does nothing by itself. */
  lemma AfterRead(st: Setting, version: string, a: State, b: State, d: State, res: ReconcileReturn,
                  recording: seq<Verdict>, cleaning: seq<Verdict>)
    requires Carries(a, b) && Idle(a, b) && SameExceptions(a.world, b.world)
    requires Excepts(version, b, d, recording, cleaning) && Reported(st, version, b, d, res)
    ensures Excepts(version, a, d, recording, cleaning) && Reported(st, version, a, d, res)
  {
    CarriesTransitive(a, b, d);
    hide Deletions, Applies, DropsNone;
  }

  lemma SeenWeight(s: World, s': World)
    ensures s'.cm == s.cm ==> FullWeight(s') == FullWeight(s)
  {
  }

  // ---- Finalizer progress ------------------------------------------------------------------

  lemma {:induction false} RemovedAbsent(f: seq<string>, name: string)
    requires name !in f
    ensures Removed(f, name) == f
  {
    if f != [] {
      RemovedAbsent(f[1..], name);
      assert f == [f[0]] + f[1..];
    }
  }

  lemma {:induction false} RemovedCommutes(f: seq<string>, a: string, b: string)
    ensures Removed(Removed(f, a), b) == Removed(Removed(f, b), a)
  {
    if f != [] {
      RemovedCommutes(f[1..], a, b);
      assert ([f[0]] + Removed(f[1..], a))[1..] == Removed(f[1..], a);
      assert ([f[0]] + Removed(f[1..], b))[1..] == Removed(f[1..], b);
    }
  }

  /** Finalizers a reconcile still has to move. */
  function Pending(s: World): nat {
    if s.cr.None? then 0
    else
      var f := s.cr.value.finalizers;
      (if FINALIZER_V1 in f then 1 else 0) + (if (FINALIZER_V3 in f) == s.cr.value.deleting then 1 else 0)
  }

  /** The finalizers of a resource in use, and of one that is finalized. All others stay. */
  function InUse(f: seq<string>): seq<string> {
    var g := Removed(f, FINALIZER_V1);
    if FINALIZER_V3 in g then g else g + [FINALIZER_V3]
  }

  function Finished(f: seq<string>): seq<string> {
    Removed(Removed(f, FINALIZER_V1), FINALIZER_V3)
  }

  /** Between two requeues: what has moved so far since `s0`. */
  ghost predicate OnTheWay(st: Setting, s0: World, s: World) {
    if s0.cr.None? then s == s0
    else
      var cr := s0.cr.value;
      if !cr.deleting then
        && s.cr.Some? && s == s0.(seen := s.seen, cr := Some(cr.(finalizers := s.cr.value.finalizers)))
        && InUse(s.cr.value.finalizers) == InUse(cr.finalizers)
      else
        var g := if s.cr.Some? then s.cr.value.finalizers else [];
        && s.unrecorded == s0.unrecorded && s.tampered == s0.tampered && Finished(g) == Finished(cr.finalizers)
        && (s.cr.Some? ==> s.cr.value == cr.(finalizers := g))
        && if FINALIZER_V3 in g then
             && s.live == s0.live && s.cm == s0.cm && FINALIZER_V3 in cr.finalizers
             && Removed(g, FINALIZER_V1) == Removed(cr.finalizers, FINALIZER_V1)
           else
             FINALIZER_V3 in cr.finalizers ==>
               && FINALIZER_V1 !in g && s0.cm.Some? && OnlyLeft(st, s, [])
               && s.cr == WithFinalizers(cr, Finished(cr.finalizers))
  }

  /** Where undisturbed reconciling ends. */
  ghost predicate Settled(st: Setting, s0: World, s: World, version: string, res: ReconcileReturn) {
    if s0.cr.None? then res == Success(false) && s == s0
    else
      var cr := s0.cr.value;
      var g := Generation(version, cr.generation);
      && s.tampered == s0.tampered
      && if !cr.deleting then
           && res == Success(false) && s.cr == Some(cr.(finalizers := InUse(cr.finalizers)))
           && Stored(s) == map[GenKey(g) := st.built(g)] && s.unrecorded == s0.unrecorded - {g}
           && Ids(st.built(g)) <= s.live && OnlyLeft(st, s, st.built(g))
         else if FINALIZER_V3 in cr.finalizers && s0.cm.None? then
           && res.Failure? && s.live == s0.live && s.unrecorded == s0.unrecorded
           && s.cr == Some(cr.(finalizers := Removed(cr.finalizers, FINALIZER_V1)))
         else
           && res == Success(false) && s.unrecorded == s0.unrecorded
           && (if s.cr.Some? then s.cr.value == cr.(finalizers := Finished(cr.finalizers))
               else Finished(cr.finalizers) == [])
           && (FINALIZER_V3 in cr.finalizers ==>
                 OnlyLeft(st, s, []) && s.cr == WithFinalizers(cr, Finished(cr.finalizers)))
  }

  lemma OnTheWayAtStart(st: Setting, s: World)
    ensures OnTheWay(st, s, s)
  {
  }

  lemma RemovedFacts(f: seq<string>)
    ensures var g := Removed(f, FINALIZER_V1);
      && Removed(g, FINALIZER_V1) == g && Removed(g, FINALIZER_V3) == Removed(Removed(f, FINALIZER_V3), FINALIZER_V1)
      && Removed(Removed(f, FINALIZER_V3), FINALIZER_V3) == Removed(f, FINALIZER_V3)
      && (FINALIZER_V1 !in f ==> g == f && Removed(f + [FINALIZER_V3], FINALIZER_V1) == f + [FINALIZER_V3])
      && (FINALIZER_V3 !in f ==> Removed(f, FINALIZER_V3) == f)
      && (FINALIZER_V3 in g <==> FINALIZER_V3 in f)
      && Removed(Removed(g, FINALIZER_V3), FINALIZER_V3) == Removed(g, FINALIZER_V3)
  {
    var g := Removed(f, FINALIZER_V1);
    RemovedCommutes(f, FINALIZER_V1, FINALIZER_V3);
    RemovedAbsent(g, FINALIZER_V1);
    RemovedAbsent(Removed(f, FINALIZER_V3), FINALIZER_V3);
    RemovedAbsent(Removed(g, FINALIZER_V3), FINALIZER_V3);
    if FINALIZER_V1 !in f {
      RemovedAbsent(f, FINALIZER_V1);
      RemovedAbsent(f + [FINALIZER_V3], FINALIZER_V1);
    }
    if FINALIZER_V3 !in f { RemovedAbsent(f, FINALIZER_V3); }
  }

  /** Each requeue moves exactly one finalizer; without a requeue the resource has settled. */
  lemma CalmOutcomeProgress(st: Setting, s0: World, s: World, s': World, version: string, res: ReconcileReturn)
    requires OnTheWay(st, s0, s) && CalmOutcome(st, s, s', version, res)
    ensures res == Success(true) ==> OnTheWay(st, s0, s') && Pending(s') + 1 == Pending(s)
    ensures res != Success(true) ==> Settled(st, s0, s', version, res)
  {
    if s0.cr.Some? && s0.cr.value.deleting {
      if s.cr.Some? && FINALIZER_V1 in s.cr.value.finalizers {
        DeletionDropsV1(st, s0, s, s', version, res);
      } else {
        DeletionEnds(st, s0, s, s', version, res);
      }
    } else {
      if s0.cr.Some? { RemovedFacts(s.cr.value.finalizers); }
      hide OnlyLeft, GenKey, Removed;
    }
  }

  lemma DeletionDropsV1(st: Setting, s0: World, s: World, s': World, version: string, res: ReconcileReturn)
    requires OnTheWay(st, s0, s) && CalmOutcome(st, s, s', version, res)
    requires s0.cr.Some? && s0.cr.value.deleting && s.cr.Some? && FINALIZER_V1 in s.cr.value.finalizers
    ensures res == Success(true) && OnTheWay(st, s0, s') && Pending(s') + 1 == Pending(s)
  {
    RemovedFacts(s.cr.value.finalizers);
    RemovedFacts([]);
    assert FINALIZER_V1 != FINALIZER_V3;
    hide OnlyLeft, GenKey, Removed, Converged, FINALIZER_V1, FINALIZER_V3;
  }

  lemma DeletionEnds(st: Setting, s0: World, s: World, s': World, version: string, res: ReconcileReturn)
    requires OnTheWay(st, s0, s) && CalmOutcome(st, s, s', version, res)
    requires s0.cr.Some? && s0.cr.value.deleting && (s.cr.Some? ==> FINALIZER_V1 !in s.cr.value.finalizers)
    ensures res == Success(true) ==> OnTheWay(st, s0, s') && Pending(s') + 1 == Pending(s)
    ensures res != Success(true) ==> Settled(st, s0, s', version, res)
  {
    if s.cr.Some? { RemovedFacts(s.cr.value.finalizers); }
    RemovedFacts([]);
    assert FINALIZER_V1 != FINALIZER_V3;
    hide OnlyLeft, GenKey, Removed, Converged, FINALIZER_V1, FINALIZER_V3;
  }

  // ---- Consequences ------------------------------------------------------------------------

  /** Recovery: after any number of reconciles, whatever failed, crashed or interfered during them, at most two
      requeues of undisturbed reconciling bring everything in order. A resource in use has the objects of its
      generation, and one under deletion has none and is released. Nothing else is left, but for objects of
      another generation whose own update gave up, or after tampering. */
  method Recover(reconciler: InstanaAgentReconciler, versions: seq<string>, version: string)
    returns (disturbed: World, res: ReconcileReturn, requeues: nat)
    requires reconciler.server.Valid()
    modifies reconciler.server
    ensures reconciler.server.Valid() && Inv(reconciler.server.setting, disturbed)
    ensures reconciler.server.state.tape == [] && disturbed.cr.Some? ==>
      var st, cr, s := reconciler.server.setting, disturbed.cr.value, reconciler.server.state.world;
      var g := Generation(version, cr.generation);
      && requeues <= Pending(disturbed) <= 2
      && (!cr.deleting ==>
            && res == Success(false) && s.cr == Some(cr.(finalizers := InUse(cr.finalizers)))
            && Ids(st.built(g)) <= s.live && OnlyLeft(st, s, st.built(g)) && s.unrecorded == disturbed.unrecorded - {g}
            && (disturbed.unrecorded <= {g} && !disturbed.tampered ==> s.live == Ids(st.built(g)))
            && Stored(s) == map[GenKey(g) := st.built(g)])
      && (cr.deleting && FINALIZER_V3 in cr.finalizers ==>
            && OnlyLeft(st, s, []) && s.unrecorded == disturbed.unrecorded
            && (disturbed.unrecorded == {} && !disturbed.tampered ==> s.live == {})
            && (res.Failure? <==> disturbed.cm.None?)
            && (!res.Failure? ==> s.cr == WithFinalizers(cr, Finished(cr.finalizers))))
  {
    var server := reconciler.server;
    reconciler.Operate(versions);
    server.state := server.state.(crashed := false);
    disturbed, res, requeues := server.state.world, Success(false), 0;
    NoRecordsMeansClean(server.setting, server.origin, server.state.trace, |server.state.trace|);
    if server.state.tape == [] {
      hide IsRun, Inv, HistoryOf, Carries;
      res, requeues := reconciler.Settle(version);
      NothingLost(server.setting, server.state.world);
    }
  }

  lemma NothingLost(st: Setting, s: World)
    ensures !s.tampered && s.unrecorded == {} ==> forall c :: OnlyLeft(st, s, c) ==> s.live <= Ids(c)
  {
  }

  /** Why deletion safety excludes a clean-up that gave up: five times every delete and every store is refused,
      the reconcile reports success, V3 goes and with it the resource, and the object is still live. */
  method SilentLeak(version: string, o: Ident) returns (server: ApiServer, res: ReconcileReturn)
    ensures fresh(server) && server.Valid() && res == Success(true)
    ensures server.state.world.cr.None? && server.state.world.live == {o.Id()}
    ensures !server.state.world.tampered && server.state.world.unrecorded == {}
  {
    var g := Generation(version, 1);
    var setting := Setting(g => [o], x => o.version);
    var cr := CustomResource([FINALIZER_V3], true, 1);
    var cm := ConfigMap(1, map[GenKey(g) := [o]]);
    var start := World({o.Id()}, Some(cm), Some(cr), None, {}, false, false);
    assert o in [o];
    OneRecordIsSafe(setting, g, start);
    OneDelete(GenKey(g), o);
    server := new ApiServer(setting, start, seq(1 + ATTEMPTS * 3, _ => CONTENTION));
    hide IsRun, Inv, HistoryOf, CalmOutcome, Cost;
    var reconciler := new InstanaAgentReconciler(server);
    assert FINALIZER_V1 != FINALIZER_V3;
    assert Removed([FINALIZER_V3], FINALIZER_V3) == [];
    var recording, cleaning;
    res, recording, cleaning := reconciler.Reconcile(version);
  }

  lemma OneDelete(key: string, o: Ident)
    ensures Cost(map[key := [o]], []) == 1
  {
    CostAny(map[key := [o]], [], key);
    assert map[key := [o]] - {key} == map[];
    assert Without([o], []) == [o];
  }
}
