/** The API server the operator talks to. Every call first lets the environment move and may then fail,
    before or after taking effect, as an arbitrary tape of events decides; an exhausted tape means that
    nothing interferes and every call succeeds. Every change of the stored state is a step of the
    protocol, kept in a trace. */
module Cluster {
  import opened Identity
  import opened Protocol
  import opened Wrappers

  datatype Reason = NotFound | Conflict | Invalid | OtherReason

  /** An error of the client library: an API status, or a plain error such as an expired context. */
  datatype ApiError = ApiError(status: Option<Reason>, message: string) {
    predicate Is(r: Reason) { status == Some(r) }
  }

  /** The operator may take this error for a conflict. */
  predicate Clashes(e: ApiError) {
    e.Is(Conflict) || e.message in {"Operation cannot be fulfilled", "the object has been modified"}
  }

  const NOT_FOUND := ApiError(Some(NotFound), "not found")
  const CONFLICT := ApiError(Some(Conflict), "conflict")
  const INVALID := ApiError(Some(Invalid), "resource name may not be empty")
  const CRASHED := ApiError(None, "process is gone")

  lemma KnownErrors()
    ensures Clashes(CONFLICT) && !Clashes(NOT_FOUND) && !Clashes(INVALID) && !Clashes(CRASHED)
  {
  }

  datatype Result<+T> = Ok(value: T) | Err(error: ApiError)

  /** `Contended` refuses a delete, and a write that carries a resource version, with a conflict; no other
      call notices it. `FailsLate` loses the answer of a call that took effect. After `Crash` the calls of
      the running reconcile do nothing any more. */
  datatype Outcome = Calm | Contended | Fails(error: ApiError) | FailsLate(error: ApiError) | Crash

  /** A move of the environment. */
  datatype Move = Move(vanish: set<ObjectId>, foreign: Option<Records>, mark: bool, edits: nat,
                       finalizers: Option<seq<string>>, collect: bool)

  /** `stale` is an older ConfigMap a cache may still serve; `lingers` leaves a deleted object
      terminating; `delay` is time that passes. */
  datatype Event = Event(move: Move, outcome: Outcome, stale: Option<ConfigMap>, lingers: bool, delay: nat)

  /** All that happens is that time passes and objects vanish. */
  predicate Benign(ev: Event) {
    ev.outcome == Calm && ev.move == STILL.(vanish := ev.move.vanish)
  }

  const STILL := Move({}, None, false, 0, None, false)
  const QUIET := Event(STILL, Calm, None, false, 0)
  const CONTENTION := QUIET.(outcome := Contended)

  /** `controllerutil.RemoveFinalizer` drops every occurrence. */
  function Removed(f: seq<string>, name: string): (r: seq<string>)
    ensures forall x :: x in r <==> x in f && x != name
  {
    if f == [] then []
    else
      var rest := Removed(f[1..], name);
      assert f == [f[0]] + f[1..];
      if f[0] == name then rest else [f[0]] + rest
  }

  /** What is left keeps its order and its repetitions. */
  lemma {:induction false} RemovedSnoc(f: seq<string>, x: string, name: string)
    ensures Removed(f + [x], name) == Removed(f, name) + if x == name then [] else [x]
  {
    if f == [] {
      assert [] + [x] == [x];
    } else {
      RemovedSnoc(f[1..], x, name);
      assert (f + [x])[1..] == f[1..] + [x];
    }
  }

  function Disturbed(st: Setting, s: World, m: Move): World {
    s.(live := s.live - m.vanish, cm := DisturbedStore(st, s, m), cr := DisturbedResource(s, m),
       tampered := s.tampered || Tampers(st, s, m))
  }

  function DisturbedResource(s: World, m: Move): Option<CustomResource> {
    if s.cr.None? then None
    else if !m.mark && m.finalizers.None? then Some(s.cr.value.(generation := s.cr.value.generation + m.edits))
    else
      var cr := s.cr.value;
      var others := Removed(if m.finalizers.Some? then m.finalizers.value else cr.finalizers, FINALIZER_V3);
      var f := if m.finalizers.None? then cr.finalizers
               else if HoldsV3(s) then others + [FINALIZER_V3] else others;
      WithFinalizers(cr.(deleting := cr.deleting || m.mark, generation := cr.generation + m.edits), f)
  }

  /** Others may write whatever they like under any key, except that every object keeps its API version. */
  function AsWritten(st: Setting, f: Records): Records {
    map k | k in f && st.AllCanonical(f[k]) :: f[k]
  }

  function DisturbedStore(st: Setting, s: World, m: Move): Option<ConfigMap> {
    if s.cm.None? then None
    else if m.collect && s.cr.None? then None
    else if m.foreign.None? then s.cm
    else Some(ConfigMap(s.cm.value.rv + 1, AsWritten(st, m.foreign.value)))
  }

  predicate Tampers(st: Setting, s: World, m: Move) {
    DisturbedStore(st, s, m).Some? &&
    var a, b := Stored(s), DisturbedStore(st, s, m).value.data;
    || (exists k :: k in a && Owned(k) && (k !in b || b[k] != a[k]))
    || (exists k :: k in b && Owned(k) && k !in a)
  }

  lemma DisturbedIsStep(st: Setting, s: World, m: Move)
    requires st.CanonicalRecords(Stored(s))
    ensures Step(st, Environment, s, Disturbed(st, s, m)) && Rely(s, Disturbed(st, s, m))
    ensures m == STILL.(vanish := m.vanish) ==> Disturbed(st, s, m) == s.(live := s.live - m.vanish)
  {
    var s' := Disturbed(st, s, m);
    assert RelyMeta(s, s');
    if s.cm.Some? && s'.cm.Some? {
      assert Tampers(st, s, m) <==> !SameOwned(Stored(s), Stored(s'));
    }
  }

  // ---- The server's state ------------------------------------------------------------------

  datatype State = State(
    world: World, tape: seq<Event>, clock: nat, crashed: bool, trace: seq<Entry>, history: History)

  ghost predicate Sound(st: Setting, origin: World, s: State) {
    && st.Good() && Inv(st, origin) && IsRun(st, origin, s.trace) && s.history == HistoryOf(s.trace)
    && s.world == Before(origin, s.trace, |s.trace|) && Inv(st, s.world)
  }

  /** Nothing will interfere or fail from here on. */
  predicate AtPeace(s: State) { s.tape == [] && !s.crashed }

  /** The next call will be contended at most. */
  predicate Undisturbed(s: State) { !s.crashed && (s.tape == [] || s.tape[0] == CONTENTION) }

  /** The next call will meet nothing but delays and vanishing objects. */
  predicate BenignNext(s: State) { !s.crashed && (s.tape == [] || Benign(s.tape[0])) }

  /** The next call will be answered without an error, unless it asks for a version or a delete. */
  predicate PassNext(s: State) { !s.crashed && (s.tape == [] || Passes(s.tape[0])) }

  predicate Passes(ev: Event) { ev.outcome == Calm || ev.outcome == Contended }

  function Delay(tape: seq<Event>): nat {
    if tape == [] then 0 else tape[0].delay
  }

  function Vanishing(tape: seq<Event>): set<ObjectId> {
    if tape == [] then {} else tape[0].move.vanish
  }

  /** The next `n` calls will be contended, and nothing else will happen. */
  predicate Contention(s: State, n: nat) {
    !s.crashed && n <= |s.tape| && forall i :: 0 <= i < n ==> s.tape[i] == CONTENTION
  }

  /** The trace only grows; and an exception to the protocol's results takes an event for each attempt that
      failed. */
  ghost predicate Grows(a: State, b: State) {
    && a.trace <= b.trace && a.clock <= b.clock && |b.tape| <= |a.tape|
    && (|a.tape| < |b.tape| + ATTEMPTS ==>
          b.world.unrecorded <= a.world.unrecorded && (b.world.uncleaned ==> a.world.uncleaned))
  }

  /** What everything a reconcile does keeps. */
  ghost predicate Carries(a: State, b: State) {
    Grows(a, b) && (a.crashed ==> b.crashed) && (AtPeace(a) ==> AtPeace(b))
  }

  /** One event less. */
  function Rest(tape: seq<Event>): seq<Event> {
    if tape == [] then [] else tape[1..]
  }

  /** What every single call keeps. */
  ghost predicate Called(a: State, b: State) {
    && Carries(a, b) && b.tape == Rest(a.tape) && b.clock == a.clock + Delay(a.tape)
    && (BenignNext(a) || PassNext(a) ==> !b.crashed)
    && (Undisturbed(a) ==> !b.crashed && b.clock == a.clock)
  }

  /** What the operator deleted meanwhile. */
  ghost function Deleted(a: State, b: State): set<ObjectId> {
    Deletions(b.trace, |a.trace|)
  }

  /** What the operator applied meanwhile, in order. */
  ghost function Applied(a: State, b: State): seq<Ident> {
    Applies(b.trace, |a.trace|)
  }

  /** The operator applied nothing, deleted nothing and dropped no record. */
  ghost predicate Idle(a: State, b: State) {
    Deleted(a, b) == {} && Applied(a, b) == [] && DropsNone(b.trace, |a.trace|)
  }

  /** All that changed is the environment's doing. */
  ghost predicate OnlyInterfered(a: State, b: State) {
    Carries(a, b) && Rely(a.world, b.world) && Idle(a, b)
  }

  lemma CarriesReflexive(a: State)
    ensures OnlyInterfered(a, a) && Noticed(a.history, a.history)
  {
  }

  lemma CarriesTransitive(a: State, b: State, c: State)
    requires Carries(a, b) && Carries(b, c)
    ensures Carries(a, c) && Deleted(a, c) == Deleted(a, b) + Deleted(b, c)
    ensures Applied(a, c) == Applied(a, b) + Applied(b, c)
    ensures DropsNone(b.trace, |a.trace|) && DropsNone(c.trace, |b.trace|) ==> DropsNone(c.trace, |a.trace|)
    ensures Idle(a, b) && Idle(b, c) ==> Idle(a, c)
    ensures OnlyInterfered(a, b) && OnlyInterfered(b, c) ==> OnlyInterfered(a, c)
    ensures Rely(a.world, b.world) && Rely(b.world, c.world) ==> Rely(a.world, c.world)
  {
    TraceAdd(a, b, c);
    hide Deletions, Applies, DropsNone;
  }

  /** What the operator did adds up. */
  lemma TraceAdd(a: State, b: State, c: State)
    requires a.trace <= b.trace <= c.trace
    ensures Deleted(a, c) == Deleted(a, b) + Deleted(b, c)
    ensures Applied(a, c) == Applied(a, b) + Applied(b, c)
    ensures DropsNone(b.trace, |a.trace|) && DropsNone(c.trace, |b.trace|) ==> DropsNone(c.trace, |a.trace|)
    ensures Idle(a, b) && Idle(b, c) ==> Idle(a, c)
  {
    DeletionsAdd(|a.trace|, b.trace, c.trace);
    AppliesAdd(|a.trace|, b.trace, c.trace);
    hide Deletions, Applies;
  }

  lemma TraceStep(trace: seq<Entry>, e: Entry)
    ensures Deletions(trace + [e], |trace|) == if e.action.DeleteObject? then {e.action.target.Id()} else {}
    ensures Applies(trace + [e], |trace|) == if e.action.ApplyObject? then [e.action.target] else []
    ensures DropsNone(trace + [e], |trace|) <==> !(e.action.Store? && e.action.intent.Trim?)
  {
    assert (trace + [e])[..|trace|] == trace && (trace + [e])[|trace|] == e;
  }

  /** The exceptions to the protocol's results are the same. */
  predicate SameExceptions(s: World, s': World) {
    s'.unrecorded == s.unrecorded && s'.uncleaned == s.uncleaned
  }

  /** Nothing was noted but a conflict, if at all. */
  predicate Noticed(h: History, h': History) {
    h' == h.(refused := h'.refused) && (h.refused ==> h'.refused)
  }

  // ---- What the calls leave ----------------------------------------------------------------

  /** How the event at the head of the tape decides about a call. */
  ghost predicate Meets(a: State, b: State, ev: Event) {
    && (b.crashed <==> ev.outcome.Crash?) && (PassNext(a) <==> Passes(ev))
    && (Undisturbed(a) ==> b.world == a.world && ev == if a.tape == [] then QUIET else CONTENTION)
    && (BenignNext(a) ==>
          ev.outcome == Calm && b.world == a.world.(live := a.world.live - Vanishing(a.tape)))
  }

  lemma NothingHappens(a: State, ev: Event)
    requires a.tape == [] && ev == if a.crashed then QUIET.(outcome := Crash) else QUIET
    ensures Called(a, a) && OnlyInterfered(a, a) && Meets(a, a, ev)
  {
    CarriesReflexive(a);
    assert a.world.(live := a.world.live - {}) == a.world;
  }

  lemma EventHappens(a: State, m: State, b: State, ev: Event)
    requires a.tape != [] && a.trace <= m.trace && Idle(a, m) && Rely(a.world, m.world)
    requires m == a.(world := m.world, trace := m.trace)
    requires a.tape[0].move == STILL.(vanish := a.tape[0].move.vanish) ==>
      m.world == a.world.(live := a.world.live - a.tape[0].move.vanish)
    requires ev == if a.crashed then a.tape[0].(outcome := Crash) else a.tape[0]
    requires b == m.(tape := Rest(a.tape), clock := a.clock + ev.delay, crashed := ev.outcome.Crash?)
    ensures Called(a, b) && OnlyInterfered(a, b) && Meets(a, b, ev)
  {
    assert a.world.(live := a.world.live - {}) == a.world;
    hide Deletions, Applies, DropsNone, RelyStore, RelyMeta;
  }

  /** What a read of the ConfigMap has found. */
  function WhatWasFound(r: Result<ConfigMap>): Option<ConfigMap> {
    if r.Ok? then Some(r.value) else None
  }

  function DataOf(read: Option<ConfigMap>): Records {
    if read.Some? then read.value.data else map[]
  }

  /** The trace has grown and now ends with that action. */
  ghost predicate Latest(a: State, b: State, action: Action) {
    |a.trace| < |b.trace| && b.trace[|b.trace| - 1].action == action
  }

  /** A read of the ConfigMap: the answer is known if there is one or if there is none. */
  ghost predicate HasRead(a: State, b: State, known: bool, read: Option<ConfigMap>) {
    && Called(a, b) && OnlyInterfered(a, b)
    && (if known then
          && MayBeRead(b.world, read) && b.history == a.history.(read := Some(read))
          && Latest(a, b, ReadStore(read))
        else read == None && b.history == a.history)
    && (Undisturbed(a) ==> b.world == a.world && known && read == b.world.cm)
  }

  lemma ReadNothing(a: State, m: State)
    requires Called(a, m) && OnlyInterfered(a, m) && m.history == a.history && !Undisturbed(a)
    ensures HasRead(a, m, false, None)
  {
  }

  lemma ReadSomething(a: State, m: State, b: State, read: Option<ConfigMap>)
    requires Called(a, m) && OnlyInterfered(a, m) && m.history == a.history && !m.crashed
    requires m.trace <= b.trace && Idle(m, b) && Latest(m, b, ReadStore(read)) && MayBeRead(m.world, read)
    requires b == m.(trace := b.trace, history := m.history.(read := Some(read)))
    requires Undisturbed(a) ==> m.world == a.world && read == a.world.cm
    ensures HasRead(a, b, true, read)
  {
    TraceAdd(a, m, b);
    hide Deletions, Applies, DropsNone, Rely;
  }

  /** Why the apply of the ConfigMap is refused, if it is. A lost answer is never a conflict. */
  function Refusal(outcome: Outcome, named: bool, read: Option<ConfigMap>, cm: Option<ConfigMap>)
    : (r: Option<ApiError>)
    ensures r.None? ==> named && read.Some? == cm.Some? && (cm.Some? ==> cm.value.rv == read.value.rv)
    ensures r.None? && outcome.FailsLate? ==> !Clashes(outcome.error)
  {
    if outcome.Fails? || (outcome.FailsLate? && Clashes(outcome.error)) then Some(outcome.error)
    else if !named then Some(INVALID)
    else if read.Some? != cm.Some? || (cm.Some? && cm.value.rv != read.value.rv) then Some(CONFLICT)
    else if outcome.Contended? && read.Some? then Some(CONFLICT)
    else None
  }

  /** `data` took the place of `mid`'s ConfigMap. */
  ghost predicate Replaced(mid: World, s: World, data: Records, intent: Intent) {
    && s.cm.Some? && s.cm.value.data == data
    && s == mid.(cm := s.cm, unrecorded := StillUnrecorded(mid, intent))
  }

  /** An apply of the ConfigMap; `mid` is what others left just before. It changes nothing, or replaces exactly
      the version that was read. */
  ghost predicate HasApplied(a: State, mid: World, b: State, named: bool, read: Option<ConfigMap>, data: Records,
                             intent: Intent, err: Option<ApiError>)
  {
    && Called(a, b) && Rely(a.world, mid)
    && Deleted(a, b) == {} && Applied(a, b) == [] && (intent.Record? ==> Idle(a, b))
    && (b.world == mid || (named && a.world.cm == mid.cm == read && Replaced(mid, b.world, data, intent)))
    && (err == None ==>
          && named && a.world.cm == mid.cm == read && Replaced(mid, b.world, data, intent)
          && Latest(a, b, Store(intent, read)))
    && (err.Some? && Clashes(err.value) ==> b.world == mid && b.history.refused)
    && b.history == a.history.(read := b.history.read, refused := b.history.refused)
    && (a.history.refused ==> b.history.refused)
    && (b.crashed ==> err == Some(CRASHED))
    && (Undisturbed(a) ==>
          && mid == a.world && err == Refusal(if a.tape == [] then Calm else Contended, named, read, mid.cm)
          && (err.Some? ==> b.world == mid))
  }

  /** The server's part of an apply of the ConfigMap. */
  ghost predicate Concludes(m: State, b: State, outcome: Outcome, named: bool, read: Option<ConfigMap>, data: Records,
                            intent: Intent, err: Option<ApiError>)
  {
    && m.trace <= b.trace && Deleted(m, b) == {} && Applied(m, b) == [] && (intent.Record? ==> Idle(m, b))
    && b == m.(world := b.world, trace := b.trace, history := b.history)
    && b.history == m.history.(read := b.history.read, refused := b.history.refused)
    && (m.history.refused ==> b.history.refused)
    && var refusal := Refusal(outcome, named, read, m.world.cm);
       if refusal.Some? then
         b.world == m.world && err == refusal && (Clashes(refusal.value) ==> b.history.refused)
       else
         && Replaced(m.world, b.world, data, intent) && Latest(m, b, Store(intent, read))
         && err == if outcome.FailsLate? then Some(outcome.error) else None
  }

  lemma ConcludesApply(a: State, m: State, b: State, outcome: Outcome, named: bool, read: Option<ConfigMap>,
                       data: Records, intent: Intent, err: Option<ApiError>)
    requires Called(a, m) && OnlyInterfered(a, m) && m.history == a.history && !m.crashed
    requires Undisturbed(a) ==> m.world == a.world && outcome == if a.tape == [] then Calm else Contended
    requires Refusal(outcome, named, read, m.world.cm) == None ==> a.world.cm == m.world.cm == read
    requires Concludes(m, b, outcome, named, read, data, intent, err)
    ensures HasApplied(a, m.world, b, named, read, data, intent, err)
  {
    TraceAdd(a, m, b);
    KnownErrors();
    hide Deletions, Applies, DropsNone, Rely, Clashes, CRASHED, CONTENTION, Rest;
  }

  /** A delete: an object that lingers stays, and a conflict is noted and takes an event. */
  ghost predicate HasRemoved(a: State, b: State, o: Ident, err: Option<ApiError>) {
    && Called(a, b) && Rely(a.world, b.world) && Deleted(a, b) <= {o.Id()} && Applied(a, b) == []
    && Noticed(a.history, b.history)
    && (err.Some? && Clashes(err.value) ==> b.history.refused && a.tape != [])
    && (AtPeace(a) ==> b.world == a.world.(live := a.world.live - {o.Id()}))
    && (BenignNext(a) ==>
          && b.world.live <= a.world.live - Vanishing(a.tape) && b.world == a.world.(live := b.world.live)
          && (err == None || err.value.Is(NotFound)))
    && (Contention(a, 1) ==> err == Some(CONFLICT) && b.world == a.world)
  }

  /** The server's part of a delete. */
  ghost predicate Removes(m: State, b: State, ev: Event, o: Ident, err: Option<ApiError>) {
    && m.trace <= b.trace && Deleted(m, b) <= {o.Id()} && Applied(m, b) == []
    && b == m.(world := b.world, trace := b.trace, history := b.history) && Noticed(m.history, b.history)
    && (err.Some? && Clashes(err.value) ==> b.history.refused && ev.outcome != Calm)
    && b.world == m.world.(live := if ev.outcome.Fails? || ev.outcome.Contended? || ev.lingers then m.world.live
                                   else m.world.live - {o.Id()})
    && (ev.outcome == Calm ==> err == None || err.value.Is(NotFound))
    && (ev.outcome == Contended ==> err == Some(CONFLICT))
  }

  lemma CrashRemoves(a: State, m: State, o: Ident)
    requires Called(a, m) && OnlyInterfered(a, m) && m.history == a.history && m.crashed
    ensures HasRemoved(a, m, o, Some(CRASHED))
  {
    KnownErrors();
    hide Deletions, Applies, DropsNone, Rely, Clashes, CRASHED;
  }

  lemma RemovesCall(a: State, m: State, b: State, ev: Event, o: Ident, err: Option<ApiError>)
    requires Called(a, m) && OnlyInterfered(a, m) && m.history == a.history && !m.crashed
    requires Undisturbed(a) ==> m.world == a.world && ev == if a.tape == [] then QUIET else CONTENTION
    requires BenignNext(a) ==>
      ev.outcome == Calm && m.world == a.world.(live := a.world.live - Vanishing(a.tape))
    requires a.tape == [] ==> ev.outcome == Calm && !ev.lingers
    requires Removes(m, b, ev, o, err)
    ensures HasRemoved(a, b, o, err)
  {
    TraceAdd(a, m, b);
    RelyFewer(a.world, m.world, b.world);
    hide Deletions, Applies, DropsNone, Rely, Clashes, CONFLICT;
  }

  /** An apply of a dependent: at most the given object comes to life, and it does if the answer says so. */
  ghost predicate HasBrought(a: State, b: State, o: Ident, err: Option<ApiError>) {
    && Called(a, b) && Rely(a.world, b.world.(live := b.world.live * a.world.live))
    && b.world.live <= a.world.live + {o.Id()} && b.history == a.history
    && Deleted(a, b) == {} && DropsNone(b.trace, |a.trace|)
    && (Applied(a, b) == [o] || (Applied(a, b) == [] && err.Some?)) && (err == None <==> PassNext(a))
    && (Undisturbed(a) ==> err == None && b.world == a.world.(live := a.world.live + {o.Id()}))
  }

  lemma BroughtNothing(a: State, m: State, o: Ident, err: ApiError)
    requires Called(a, m) && OnlyInterfered(a, m) && m.history == a.history && !Undisturbed(a) && !PassNext(a)
    ensures HasBrought(a, m, o, Some(err))
  {
    hide Deletions, Applies, DropsNone, RelyStore, RelyMeta;
    assert m.world.live * a.world.live == m.world.live;
    assert m.world.(live := m.world.live * a.world.live) == m.world;
  }

  lemma BroughtOne(a: State, m: State, b: State, o: Ident, err: Option<ApiError>)
    requires Called(a, m) && OnlyInterfered(a, m) && m.history == a.history
    requires (err == None <==> PassNext(a)) && (Undisturbed(a) ==> m.world == a.world && err == None)
    requires m.trace <= b.trace && Deleted(m, b) == {} && Applied(m, b) == [o] && DropsNone(b.trace, |m.trace|)
    requires b == m.(world := m.world.(live := m.world.live + {o.Id()}), trace := b.trace)
    ensures HasBrought(a, b, o, err)
  {
    TraceAdd(a, m, b);
    hide Deletions, Applies, DropsNone, RelyStore;
  }

  class ApiServer {
    const setting: Setting
    ghost const origin: World
    var state: State

    ghost predicate Valid()
      reads this
    {
      Sound(setting, origin, state)
    }

    constructor (setting: Setting, start: World, tape: seq<Event>)
      requires setting.Good() && Inv(setting, start)
      ensures Valid() && this.setting == setting && origin == start
      ensures state == State(start, tape, 0, false, [], HistoryOf([]))
    {
      this.setting := setting;
      this.origin := start;
      this.state := State(start, tape, 0, false, [], HistoryOf([]));
    }

    method Advance(action: Action, next: World)
      requires Valid() && Step(setting, action, state.world, next) && Allowed(state.history, action)
      modifies this
      ensures Valid() && old(state).trace <= state.trace && Latest(old(state), state, action)
      ensures state == old(state).(world := next, trace := state.trace, history := Noted(old(state).history, action))
      ensures Deleted(old(state), state) == if action.DeleteObject? then {action.target.Id()} else {}
      ensures Applied(old(state), state) == if action.ApplyObject? then [action.target] else []
      ensures DropsNone(state.trace, |old(state).trace|) <==> !(action.Store? && action.intent.Trim?)
    {
      hide IsRun, Inv, HistoryOf, Step, Allowed, Noted, Deletions, Applies, DropsNone;
      StepKeepsInv(setting, action, state.world, next);
      RunExtends(setting, origin, state.trace, Entry(action, next));
      TraceStep(state.trace, Entry(action, next));
      state := state.(world := next, trace := state.trace + [Entry(action, next)],
                      history := Noted(state.history, action));
    }

    /** What comes before the call takes effect. */
    method Begin() returns (ev: Event)
      requires Valid()
      modifies this
      ensures Valid() && Called(old(state), state) && OnlyInterfered(old(state), state)
      ensures state.history == old(state).history && setting.CanonicalRecords(Stored(state.world))
      ensures Meets(old(state), state, ev)
    {
      assert setting.CanonicalRecords(Stored(state.world));
      hide IsRun, Inv, HistoryOf, Rely, Disturbed, Called, OnlyInterfered, Meets, Idle, Deletions, Applies, DropsNone;
      ev := QUIET;
      ghost var a := state;
      if state.tape == [] {
        if state.crashed { ev := QUIET.(outcome := Crash); }
        NothingHappens(a, ev);
      } else {
        ev := state.tape[0];
        DisturbedIsStep(setting, state.world, ev.move);
        Advance(Environment, Disturbed(setting, state.world, ev.move));
        ghost var m := state;
        if state.crashed { ev := ev.(outcome := Crash); }
        state := state.(tape := Rest(state.tape), clock := state.clock + ev.delay, crashed := ev.outcome.Crash?);
        EventHappens(a, m, state, ev);
      }
    }

    /** The answer to a call that had no effect; a conflict is noted. */
    method Answer(e: ApiError) returns (err: Option<ApiError>)
      requires Valid()
      modifies this
      ensures Valid() && old(state).trace <= state.trace && Idle(old(state), state) && err == Some(e)
      ensures var h := old(state).history;
        state == old(state).(trace := state.trace, history := h.(refused := h.refused || Clashes(e)))
    {
      hide IsRun, Inv, HistoryOf, Clashes;
      if Clashes(e) {
        Advance(Refused, state.world);
      }
      err := Some(e);
    }

    /** A call without effect that may fail: a dry run, a discovery read, the Helm uninstall. */
    method Probe() returns (err: Option<ApiError>)
      requires Valid()
      modifies this
      ensures Valid() && Called(old(state), state) && OnlyInterfered(old(state), state)
      ensures state.history == old(state).history
      ensures err == None <==> PassNext(old(state))
      ensures Undisturbed(old(state)) ==> state.world == old(state).world && err == None
    {
      hide IsRun, Inv, HistoryOf, OnlyInterfered, Carries;
      var ev := Begin();
      match ev.outcome
      case Fails(e) => err := Some(e);
      case FailsLate(e) => err := Some(e);
      case Crash => err := Some(CRASHED);
      case _ => err := None;
    }

    method Sleep(duration: nat)
      requires Valid()
      modifies this
      ensures Valid() && state == old(state).(clock := old(state).clock + duration)
    {
      state := state.(clock := state.clock + duration);
    }

    /** A read error never pretends that the object is missing. */
    static function Honest(e: ApiError): ApiError {
      if e.Is(NotFound) then e.(status := Some(OtherReason)) else e
    }

    /** Reads the lifecycle ConfigMap, possibly from a stale cache. */
    method GetConfigMap() returns (r: Result<ConfigMap>)
      requires Valid()
      modifies this
      ensures Valid() && HasRead(old(state), state, r.Ok? || r.error.Is(NotFound), WhatWasFound(r))
      ensures r.Ok? ==> setting.CanonicalRecords(r.value.data)
    {
      hide IsRun, Inv, HistoryOf, Rely, HasRead;
      var ev := Begin();
      ghost var m := state;
      if ev.outcome.Fails? || ev.outcome.FailsLate? || ev.outcome.Crash? {
        r := Err(if ev.outcome.Crash? then CRASHED else Honest(ev.outcome.error));
        ReadNothing(old(state), m);
        return;
      }
      var world := state.world;
      if world.cm.None? {
        r := Err(NOT_FOUND);
      } else if ev.stale.Some? && ev.stale.value.rv < world.cm.value.rv
                && setting.CanonicalRecords(ev.stale.value.data) {
        r := Ok(ev.stale.value);
      } else {
        r := Ok(world.cm.value);
      }
      Advance(ReadStore(WhatWasFound(r)), world);
      assert Idle(m, state);
      hide Called, OnlyInterfered, Idle;
      ReadSomething(old(state), m, state, WhatWasFound(r));
    }

    /** Server-side apply of the lifecycle ConfigMap: compare-and-swap when it carries a resource
        version, creation when it does not, refusal when it has no name. */
    method ApplyConfigMap(named: bool, read: Option<ConfigMap>, data: Records, intent: Intent)
      returns (err: Option<ApiError>, ghost mid: World)
      requires Valid()
      requires named ==>
        && state.history.read == Some(read) && ReadEarlier(state.world, read)
        && (read == state.world.cm ==> Permitted(setting, intent, DataOf(read), data, state.world))
      modifies this
      ensures Valid() && HasApplied(old(state), mid, state, named, read, data, intent, err)
    {
      KnownErrors();
      hide IsRun, Inv, HistoryOf, Permitted, Rely, ReadEarlier, Clashes, Refusal, Concludes;
      var ev := Begin();
      mid := state.world;
      ghost var m := state;
      if ev.outcome.Crash? { return Some(CRASHED), mid; }
      if Refusal(ev.outcome, named, read, mid.cm) == None {
        SwapExact(old(state).world, mid, read);
        PermittedStable(setting, intent, DataOf(read), data, old(state).world, mid);
      }
      err := Conclude(ev.outcome, named, read, data, intent);
      hide HasApplied, Called, OnlyInterfered;
      ConcludesApply(old(state), m, state, ev.outcome, named, read, data, intent, err);
    }

    /** The server's part of the apply. */
    method Conclude(outcome: Outcome, named: bool, read: Option<ConfigMap>, data: Records, intent: Intent)
      returns (err: Option<ApiError>)
      requires Valid()
      requires Refusal(outcome, named, read, state.world.cm) == None ==>
        && state.world.cm == read && state.history.read == Some(read)
        && Permitted(setting, intent, DataOf(read), data, state.world)
      modifies this
      ensures Valid() && Concludes(old(state), state, outcome, named, read, data, intent, err)
    {
      hide IsRun, Inv, HistoryOf, Permitted, Refusal, Clashes;
      var world := state.world;
      var refusal := Refusal(outcome, named, read, world.cm);
      if refusal.Some? {
        err := Answer(refusal.value);
      } else {
        var next := world.(cm := Some(ConfigMap(if read.Some? then read.value.rv + 1 else 1, data)),
                           unrecorded := StillUnrecorded(world, intent));
        Advance(Store(intent, read), next);
        err := if outcome.FailsLate? then Some(outcome.error) else None;
      }
    }

    /** Server-side apply of a dependent. */
    method ApplyObject(o: Ident) returns (err: Option<ApiError>)
      requires Valid()
      requires HoldsV3(state.world) && state.world.seen.Some? && !state.world.seen.value.deleting
               && FINALIZER_V3 in state.world.seen.value.finalizers
      requires MayComeAlive(setting, state.world, o)
      modifies this
      ensures Valid() && HasBrought(old(state), state, o, err)
    {
      hide IsRun, Inv, HistoryOf, HasBrought, DropsNone, Deletions, Applies;
      var ev := Begin();
      ghost var was, m := old(state).world, state;
      if ev.outcome.Fails? || ev.outcome.Crash? {
        var e := if ev.outcome.Fails? then ev.outcome.error else CRASHED;
        BroughtNothing(old(state), m, o, e);
        return Some(e);
      }
      err := if ev.outcome.FailsLate? then Some(ev.outcome.error) else None;
      if !m.world.tampered && Covers(Stored(was), o.Id()) { CoversStable(was, m.world, o.Id()); }
      Advance(Action.ApplyObject(o), state.world.(live := state.world.live + {o.Id()}));
      BroughtOne(old(state), m, state, o, err);
    }

    method Delete(o: Ident, current: seq<Ident>) returns (err: Option<ApiError>)
      requires Valid() && o.Id() !in Ids(current)
      modifies this
      ensures Valid() && HasRemoved(old(state), state, o, err)
    {
      hide IsRun, Inv, HistoryOf, Clashes, Rely, Removes, HasRemoved;
      var ev := Begin();
      ghost var m := state;
      if ev.outcome.Crash? {
        CrashRemoves(old(state), m, o);
        return Some(CRASHED);
      }
      err := Remove(ev, o, current);
      hide Called, OnlyInterfered;
      RemovesCall(old(state), m, state, ev, o, err);
    }

    /** The server's part of the delete. */
    method Remove(ev: Event, o: Ident, current: seq<Ident>) returns (err: Option<ApiError>)
      requires Valid() && o.Id() !in Ids(current) && !ev.outcome.Crash?
      modifies this
      ensures Valid() && Removes(old(state), state, ev, o, err)
    {
      KnownErrors();
      hide IsRun, Inv, HistoryOf, Deletions, Applies, DropsNone, Clashes;
      if ev.outcome.Fails? || ev.outcome.Contended? || o.Id() !in state.world.live {
        assert o.Id() !in state.world.live ==> state.world.live - {o.Id()} == state.world.live;
        err := Answer(if ev.outcome.Fails? then ev.outcome.error
                      else if ev.outcome.Contended? then CONFLICT else NOT_FOUND);
      } else {
        ghost var m := state;
        CarriesReflexive(m);
        if !ev.lingers {
          Advance(DeleteObject(o, current), state.world.(live := state.world.live - {o.Id()}));
        }
        ghost var n := state;
        err := None;
        if ev.outcome.FailsLate? { err := Answer(ev.outcome.error); }
        TraceAdd(m, n, state);
      }
    }

    /** `GetAsResult` of one dependent. */
    method GetObject(o: Ident) returns (r: Result<Ident>)
      requires Valid()
      modifies this
      ensures Valid() && Called(old(state), state) && OnlyInterfered(old(state), state)
      ensures state.history == old(state).history
      ensures r.Err? && r.error.Is(NotFound) ==> o.Id() !in state.world.live
      ensures Undisturbed(old(state)) ==>
        state.world == old(state).world && r == if o.Id() in state.world.live then Ok(o) else Err(NOT_FOUND)
      ensures BenignNext(old(state)) ==>
        && state.world == old(state).world.(live := old(state).world.live - Vanishing(old(state).tape))
        && r == if o.Id() in state.world.live then Ok(o) else Err(NOT_FOUND)
    {
      hide IsRun, Inv, HistoryOf, OnlyInterfered, Carries;
      var ev := Begin();
      match ev.outcome
      case Fails(e) => r := Err(Honest(e));
      case FailsLate(e) => r := Err(Honest(e));
      case Crash => r := Err(CRASHED);
      case _ => r := if o.Id() in state.world.live then Ok(o) else Err(NOT_FOUND);
    }

    /** The read of the custom resource at the start of a reconcile. */
    method GetResource() returns (r: Result<CustomResource>)
      requires Valid()
      modifies this
      ensures Valid() && Called(old(state), state) && SameExceptions(old(state).world, state.world)
      ensures Idle(old(state), state)
      ensures r.Ok? ==> state.world.cr == state.world.seen == Some(r.value)
      ensures r.Err? && r.error.Is(NotFound) ==> state.world.cr.None?
      ensures Undisturbed(old(state)) ==>
        var was := old(state).world;
        && state.world == was.(seen := if was.cr.Some? then was.cr else was.seen)
        && r == if was.cr.Some? then Ok(was.cr.value) else Err(NOT_FOUND)
    {
      hide Rest, IsRun, Inv, HistoryOf, Deletions, Applies, DropsNone;
      var ev := Begin();
      ghost var m := state;
      match ev.outcome
      case Fails(e) => r := Err(Honest(e));
      case FailsLate(e) => r := Err(Honest(e));
      case Crash => r := Err(CRASHED);
      case _ =>
        if state.world.cr.None? { return Err(NOT_FOUND); }
        r := Ok(state.world.cr.value);
        Advance(ReadResource, state.world.(seen := state.world.cr));
        TraceAdd(old(state), m, state);
    }

    /** The merge patch of the custom resource: the list of finalizers is replaced as a whole. */
    method PatchFinalizers(f: seq<string>) returns (err: Option<ApiError>)
      requires Valid()
      requires HoldsV3(state.world) && FINALIZER_V3 !in f ==> MayRelease(setting, state.world)
      modifies this
      ensures Valid() && Called(old(state), state) && SameExceptions(old(state).world, state.world)
      ensures err == None ==> Latest(old(state), state, SetFinalizers(f))
      ensures Idle(old(state), state) && (err.Some? && err.value.Is(NotFound) ==> state.world.cr.None?)
      ensures Undisturbed(old(state)) ==>
        var was := old(state).world;
        && state.world == was.(cr := if was.cr.Some? then WithFinalizers(was.cr.value, f) else None)
        && err == if was.cr.Some? then None else Some(NOT_FOUND)
    {
      hide Rest, IsRun, Inv, HistoryOf, Deletions, Applies, DropsNone;
      var ev := Begin();
      ghost var m := state;
      if ev.outcome.Fails? { return Some(Honest(ev.outcome.error)); }
      if ev.outcome.Crash? { return Some(CRASHED); }
      err := if ev.outcome.FailsLate? then Some(Honest(ev.outcome.error)) else None;
      if state.world.cr.None? { return Some(NOT_FOUND); }
      Advance(SetFinalizers(f), state.world.(cr := WithFinalizers(state.world.cr.value, f)));
      TraceAdd(old(state), m, state);
    }
  }
}
