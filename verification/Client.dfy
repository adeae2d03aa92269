/** Deleting objects and waiting until they are gone. */
module Client {
  import opened Identity
  import opened Protocol
  import opened Cluster
  import opened Wrappers

  const DEADLINE_EXCEEDED := ApiError(None, "context deadline exceeded")

  /** The error list a multi-error holds; no error at all is `[]`. */
  type Errors = seq<ApiError>

  function WasRetrieved(o: Ident): Result<bool> { Ok(true) }

  function IfNotFound(e: ApiError): Result<bool> {
    if e.Is(NotFound) then Ok(false) else Err(e)
  }

  predicate DoNotExist(res: Result<bool>) { res.Ok? && !res.value }

  // ---- Tapes -------------------------------------------------------------------------------

  /** The tape after `n` more calls. */
  function After(tape: seq<Event>, n: nat): seq<Event> {
    if n == 0 || tape == [] then tape else After(tape[1..], n - 1)
  }

  /** The time that passes during `n` calls. */
  function Delays(tape: seq<Event>, n: nat): nat {
    if n == 0 || tape == [] then 0 else tape[0].delay + Delays(tape[1..], n - 1)
  }

  /** The objects that vanish during `n` calls. */
  function Vanished(tape: seq<Event>, n: nat): set<ObjectId> {
    if n == 0 || tape == [] then {} else tape[0].move.vanish + Vanished(tape[1..], n - 1)
  }

  /** During `n` calls nothing happens but that time passes and objects vanish. */
  predicate BenignFor(tape: seq<Event>, n: nat) {
    n == 0 || tape == [] || (Benign(tape[0]) && BenignFor(tape[1..], n - 1))
  }

  /** Nothing goes wrong with `n` calls that are neither deletes nor ask for a version. */
  predicate PassFor(tape: seq<Event>, n: nat) {
    n == 0 || tape == [] || (Passes(tape[0]) && PassFor(tape[1..], n - 1))
  }

  predicate Passing(s: State, n: nat) { n == 0 || (!s.crashed && PassFor(s.tape, n)) }

  lemma {:induction false} TapeAdd(tape: seq<Event>, n: nat, m: nat)
    ensures After(tape, n + m) == After(After(tape, n), m)
    ensures Delays(tape, n + m) == Delays(tape, n) + Delays(After(tape, n), m)
    ensures Vanished(tape, n + m) == Vanished(tape, n) + Vanished(After(tape, n), m)
    ensures BenignFor(tape, n + m) <==> BenignFor(tape, n) && BenignFor(After(tape, n), m)
    ensures PassFor(tape, n + m) <==> PassFor(tape, n) && PassFor(After(tape, n), m)
  {
    if n > 0 && tape != [] { TapeAdd(tape[1..], n - 1, m); }
  }

  lemma TapeStep(tape: seq<Event>)
    ensures After(tape, 1) == Rest(tape) && Delays(tape, 1) == Delay(tape) && Vanished(tape, 1) == Vanishing(tape)
    ensures BenignFor(tape, 1) <==> tape == [] || Benign(tape[0])
    ensures PassFor(tape, 1) <==> tape == [] || Passes(tape[0])
  {
    if tape != [] {
      assert After(tape[1..], 0) == tape[1..] && Delays(tape[1..], 0) == 0 && Vanished(tape[1..], 0) == {};
    }
  }

  /** `n` calls were made, and time passed only by their delays. */
  ghost predicate Spent(a: State, b: State, n: nat) {
    b.tape == After(a.tape, n) && b.clock == a.clock + Delays(a.tape, n)
  }

  /** If these calls were benign, then all that happened is that objects vanished. */
  ghost predicate Faded(a: State, b: State, n: nat) {
    !a.crashed && BenignFor(a.tape, n) ==>
      !b.crashed && b.world == a.world.(live := a.world.live - Vanished(a.tape, n))
  }

  lemma SpentMore(a: State, b: State, c: State, n: nat)
    requires Spent(a, b, n) && c.tape == Rest(b.tape) && c.clock == b.clock + Delay(b.tape)
    ensures Spent(a, c, n + 1)
    ensures Faded(a, b, n) && !a.crashed && BenignFor(a.tape, n + 1) ==>
      BenignNext(b) && b.world.live - Vanishing(b.tape) == a.world.live - Vanished(a.tape, n + 1)
    ensures !a.crashed && BenignFor(a.tape, n + 1) ==> BenignFor(a.tape, n)
  {
    TapeAdd(a.tape, n, 1);
    TapeStep(b.tape);
    hide Benign;
  }

  // ---- Sweeps ------------------------------------------------------------------------------

  method Exists(server: ApiServer, o: Ident) returns (r: Result<bool>)
    requires server.Valid()
    modifies server
    ensures server.Valid() && Called(old(server.state), server.state) && OnlyInterfered(old(server.state), server.state)
    ensures server.state.history == old(server.state).history
    ensures DoNotExist(r) ==> o.Id() !in server.state.world.live
    ensures BenignNext(old(server.state)) ==>
      var was := old(server.state);
      && server.state.world == was.world.(live := was.world.live - Vanishing(was.tape))
      && r == Ok(o.Id() in server.state.world.live)
  {
    hide IsRun, Inv, HistoryOf, OnlyInterfered, Called;
    var got := server.GetObject(o);
    match got
    case Ok(obj) => r := WasRetrieved(obj);
    case Err(e) => r := IfNotFound(e);
  }

  /** What one sweep leaves. A result that reports absence stays true: only the operator creates these objects. */
  ghost predicate HasSwept(a: State, b: State, objects: seq<Ident>, res: seq<Result<bool>>) {
    && OnlyInterfered(a, b) && b.history == a.history && Spent(a, b, |objects|) && Faded(a, b, |objects|)
    && |res| == |objects|
    && (forall n :: 0 <= n < |res| && DoNotExist(res[n]) ==> objects[n].Id() !in b.world.live)
    && (!a.crashed && BenignFor(a.tape, |objects|) ==>
          forall n :: 0 <= n < |res| ==> res[n] == Ok(objects[n].Id() in a.world.live - Vanished(a.tape, n + 1)))
  }

  lemma SweptNone(a: State)
    ensures HasSwept(a, a, [], [])
  {
    CarriesReflexive(a);
    assert a.world.live - Vanished(a.tape, 0) == a.world.live;
  }

  lemma SweptMore(a: State, b: State, c: State, objects: seq<Ident>, o: Ident, res: seq<Result<bool>>, r: Result<bool>)
    requires HasSwept(a, b, objects, res) && Called(b, c) && OnlyInterfered(b, c) && c.history == b.history
    requires DoNotExist(r) ==> o.Id() !in c.world.live
    requires BenignNext(b) ==>
      c.world == b.world.(live := b.world.live - Vanishing(b.tape)) && r == Ok(o.Id() in c.world.live)
    ensures HasSwept(a, c, objects + [o], res + [r])
  {
    CarriesTransitive(a, b, c);
    SpentMore(a, b, c, |objects|);
    hide Carries, Deletions, Applies, DropsNone, RelyMeta, RelyStore, After, Delays, Vanished, BenignFor, Benign;
  }

  method ObjectsExist(server: ApiServer, objects: seq<Ident>) returns (res: seq<Result<bool>>)
    requires server.Valid()
    modifies server
    ensures server.Valid() && HasSwept(old(server.state), server.state, objects, res)
    ensures objects == [] ==> server.state == old(server.state)
  {
    hide IsRun, Inv, HistoryOf, HasSwept, Called, OnlyInterfered;
    SweptNone(server.state);
    res := [];
    for n := 0 to |objects|
      invariant server.Valid() && HasSwept(old(server.state), server.state, objects[..n], res)
      invariant n == 0 ==> server.state == old(server.state)
    {
      ghost var mid := server.state;
      var r := Exists(server, objects[n]);
      SweptMore(old(server.state), mid, server.state, objects[..n], objects[n], res, r);
      assert objects[..n + 1] == objects[..n] + [objects[n]];
      res := res + [r];
    }
    assert objects[..|objects|] == objects;
  }

  /** `Conditions.All(doNotExist)`. */
  method AllDoNotExist(res: seq<Result<bool>>) returns (all: bool)
    ensures all <==> forall n :: 0 <= n < |res| ==> DoNotExist(res[n])
  {
    for n := 0 to |res|
      invariant forall m :: 0 <= m < n ==> DoNotExist(res[m])
    {
      if !DoNotExist(res[n]) { return false; }
    }
    return true;
  }

  ghost predicate Absent(objects: seq<Ident>, s: World) {
    forall o :: o in objects ==> o.Id() !in s.live
  }

  /** All sweeps start before the deadline and are at least `wait` apart. */
  predicate FitsIn(sweeps: nat, wait: nat, remaining: int) {
    sweeps == 0 || (sweeps - 1) * wait < remaining
  }

  /** That is at most ⌈remaining / wait⌉ sweeps. */
  lemma FitsInCeiling(sweeps: nat, wait: nat, remaining: nat)
    requires wait > 0 && FitsIn(sweeps, wait, remaining)
    ensures sweeps <= (remaining + wait - 1) / wait
  {
    if sweeps > 0 {
      var q, m := (remaining + wait - 1) / wait, (remaining + wait - 1) % wait;
      assert remaining + wait - 1 == q * wait + m && m <= wait - 1;
      if q <= sweeps - 1 {
        MulMonotone(q, sweeps - 1, wait);
      }
    }
  }

  lemma MulMonotone(a: nat, b: nat, w: nat)
    requires a <= b
    ensures a * w <= b * w
  {
  }

  lemma FitsInStep(rest: nat, wait: nat, remaining: int, after: int)
    requires FitsIn(rest, wait, after) && after + wait <= remaining && remaining > 0
    ensures FitsIn(rest + 1, wait, remaining)
  {
  }

  /** If all calls are benign, a sweep that begins after `n` calls finds every object absent. */
  ghost predicate CleanFrom(a: State, objects: seq<Ident>, n: nat) {
    forall i :: 0 <= i < |objects| ==> objects[i].Id() !in a.world.live - Vanished(a.tape, n + i + 1)
  }

  lemma CleanFromShifts(a: State, c: State, objects: seq<Ident>, n: nat, m: nat)
    requires c.tape == After(a.tape, n) && c.world.live <= a.world.live - Vanished(a.tape, n)
    ensures CleanFrom(a, objects, n + m) ==> CleanFrom(c, objects, m)
    ensures c.world.live == a.world.live - Vanished(a.tape, n) && CleanFrom(c, objects, m) ==>
      CleanFrom(a, objects, n + m)
  {
    forall i | 0 <= i < |objects|
      ensures objects[i].Id() in a.world.live - Vanished(a.tape, n + m + i + 1) <==>
              objects[i].Id() in a.world.live - Vanished(a.tape, n) - Vanished(c.tape, m + i + 1)
    {
      TapeAdd(a.tape, n, m + i + 1);
      assert n + m + i + 1 == n + (m + i + 1);
    }
    hide Vanished, After;
  }

  /** What waiting for absence leaves. No error means that one whole sweep saw every object absent, and an error
      that the deadline was reached; the time spent is that of the waits between the sweeps and of the calls.
      It succeeds as soon as a sweep that starts in time finds every object absent. */
  ghost predicate HasVerified(a: State, b: State, objects: seq<Ident>, waitTime: nat, deadline: nat, err: Errors,
                              sweeps: nat)
  {
    && OnlyInterfered(a, b) && b.history == a.history
    && (if err == [] then sweeps > 0 && Absent(objects, b.world)
        else err == [DEADLINE_EXCEEDED] && deadline <= b.clock)
    && b.tape == After(a.tape, sweeps * |objects|)
    && b.clock == a.clock + (if err == [] then sweeps - 1 else sweeps) * waitTime + Delays(a.tape, sweeps * |objects|)
    && InTime(a, objects, waitTime, deadline, err, sweeps)
    && (AtPeace(a) && Absent(objects, a.world) && a.clock < deadline ==> err == [] && b.world == a.world)
    && (objects == [] && a.clock < deadline ==> err == [] && b == a)
  }

  /** Everything is benign up to sweep `k`, which starts before the deadline and finds every object absent. */
  ghost predicate FoundInTime(a: State, objects: seq<Ident>, waitTime: nat, deadline: nat, k: nat) {
    FoundFrom(a, objects, deadline, k * |objects|, (k + 1) * |objects|, k * waitTime)
  }

  /** The same of a sweep that begins after `n` calls, ends after `end` calls, and comes after waits of `waited`. */
  ghost predicate FoundFrom(a: State, objects: seq<Ident>, deadline: nat, n: nat, end: nat, waited: nat) {
    && !a.crashed && BenignFor(a.tape, end)
    && CleanFrom(a, objects, n) && a.clock + waited + Delays(a.tape, n) < deadline
  }

  /** For benign tapes: success exactly if some sweep that starts before the deadline is clean, and then at the
      first such sweep. */
  ghost predicate InTime(a: State, objects: seq<Ident>, waitTime: nat, deadline: nat, err: Errors, sweeps: nat) {
    && (forall k: nat :: FoundInTime(a, objects, waitTime, deadline, k) ==> err == [] && sweeps <= k + 1)
    && (!a.crashed && BenignFor(a.tape, sweeps * |objects|) && err == [] ==>
          sweeps > 0 && FoundInTime(a, objects, waitTime, deadline, sweeps - 1))
  }

  method VerifyDeletionStep(server: ApiServer, objects: seq<Ident>, waitTime: nat, deadline: nat)
    returns (err: Errors, sweeps: nat)
    requires server.Valid() && waitTime > 0 && server.state.clock < deadline
    modifies server
    ensures server.Valid() && HasVerified(old(server.state), server.state, objects, waitTime, deadline, err, sweeps)
    ensures sweeps > 0 && FitsIn(sweeps, waitTime, deadline - old(server.state).clock)
    decreases deadline - server.state.clock, 0
  {
    hide IsRun, Inv, HistoryOf, HasVerified, HasSwept;
    ghost var a := server.state;
    var res := ObjectsExist(server, objects);
    var gone := AllDoNotExist(res);
    ghost var b := server.state;
    SweptClock(a, b, objects, res);
    if gone {
      SweptClean(a, b, objects, res, waitTime, deadline);
      return [], 1;
    }
    server.Sleep(waitTime);
    ghost var c := server.state;
    err, sweeps := VerifyDeletion(server, objects, waitTime, deadline);
    SweptAgain(a, b, c, server.state, objects, res, waitTime, deadline, err, sweeps);
    FitsInStep(sweeps, waitTime, deadline - a.clock, deadline - c.clock);
    sweeps := sweeps + 1;
  }

  /** Sweeps until one whole sweep saw every object absent, or until the context is done. */
  method VerifyDeletion(server: ApiServer, objects: seq<Ident>, waitTime: nat, deadline: nat)
    returns (err: Errors, sweeps: nat)
    requires server.Valid() && waitTime > 0
    modifies server
    ensures server.Valid() && HasVerified(old(server.state), server.state, objects, waitTime, deadline, err, sweeps)
    ensures FitsIn(sweeps, waitTime, deadline - old(server.state).clock)
    decreases deadline - server.state.clock, 1
  {
    hide IsRun, Inv, HistoryOf, HasVerified;
    if server.state.clock >= deadline {
      TooLate(server.state, objects, waitTime, deadline);
      return [DEADLINE_EXCEEDED], 0;
    }
    err, sweeps := VerifyDeletionStep(server, objects, waitTime, deadline);
  }

  // ---- The proof of waiting ----------------------------------------------------------------

  lemma SweptClock(a: State, b: State, objects: seq<Ident>, res: seq<Result<bool>>)
    requires HasSwept(a, b, objects, res)
    ensures a.clock <= b.clock
  {
  }

  lemma TooLate(a: State, objects: seq<Ident>, waitTime: nat, deadline: nat)
    requires deadline <= a.clock
    ensures HasVerified(a, a, objects, waitTime, deadline, [DEADLINE_EXCEEDED], 0)
  {
    CarriesReflexive(a);
    assert 0 * |objects| == 0 && 0 * waitTime == 0;
    hide Carries, Deletions, Applies, DropsNone, Rely;
  }

  lemma SweptClean(a: State, b: State, objects: seq<Ident>, res: seq<Result<bool>>, waitTime: nat, deadline: nat)
    requires HasSwept(a, b, objects, res) && forall n :: 0 <= n < |res| ==> DoNotExist(res[n])
    requires a.clock < deadline && (objects == [] ==> b == a)
    ensures HasVerified(a, b, objects, waitTime, deadline, [], 1)
  {
    assert 1 * |objects| == |objects| && 0 * waitTime == 0 && 0 * |objects| == 0;
    assert Delays(a.tape, 0) == 0;
    hide Carries, Deletions, Applies, DropsNone, Rely, BenignFor, Delays, After;
    if AtPeace(a) { assert a.world.live - {} == a.world.live; }
  }

  /** One sweep, one wait, and the rest. */
  lemma SweptAgain(a: State, b: State, c: State, d: State, objects: seq<Ident>, res: seq<Result<bool>>, waitTime: nat,
                   deadline: nat, err: Errors, sweeps: nat)
    requires HasSwept(a, b, objects, res) && !(forall n :: 0 <= n < |res| ==> DoNotExist(res[n]))
    requires c == b.(clock := b.clock + waitTime) && a.clock < deadline
    requires HasVerified(c, d, objects, waitTime, deadline, err, sweeps)
    ensures HasVerified(a, d, objects, waitTime, deadline, err, sweeps + 1)
  {
    var n := |objects|;
    assert (sweeps + 1) * n == n + sweeps * n && (sweeps + 1) * waitTime == waitTime + sweeps * waitTime;
    assert sweeps > 0 ==> sweeps * waitTime == waitTime + (sweeps - 1) * waitTime;
    TapeAdd(a.tape, n, sweeps * n);
    SleepCarries(b, c);
    CarriesTransitive(a, b, c);
    CarriesTransitive(a, c, d);
    SweptAgainInTime(a, b, c, objects, res, waitTime, deadline, err, sweeps);
    SweptPeace(a, b, objects, res);
    hide Carries, Deletions, Applies, DropsNone, Rely, BenignFor, Delays, After, Vanished, InTime, Faded, DoNotExist;
  }

  lemma SleepCarries(a: State, b: State)
    requires b == a.(clock := b.clock) && a.clock <= b.clock
    ensures OnlyInterfered(a, b)
  {
  }

  /** At peace a sweep that sees an object has it in front of it. */
  lemma SweptPeace(a: State, b: State, objects: seq<Ident>, res: seq<Result<bool>>)
    requires HasSwept(a, b, objects, res) && !(forall n :: 0 <= n < |res| ==> DoNotExist(res[n]))
    ensures !(AtPeace(a) && Absent(objects, a.world)) && objects != []
  {
    hide OnlyInterfered, Spent, Faded;
  }

  lemma SweptAgainInTime(a: State, b: State, c: State, objects: seq<Ident>, res: seq<Result<bool>>, waitTime: nat,
                         deadline: nat, err: Errors, sweeps: nat)
    requires HasSwept(a, b, objects, res) && !(forall n :: 0 <= n < |res| ==> DoNotExist(res[n]))
    requires c == b.(clock := b.clock + waitTime) && InTime(c, objects, waitTime, deadline, err, sweeps)
    ensures InTime(a, objects, waitTime, deadline, err, sweeps + 1)
  {
    hide InTime, FoundInTime, HasSwept;
    forall k: nat | FoundInTime(a, objects, waitTime, deadline, k) ensures err == [] && sweeps + 1 <= k + 1 {
      NotFirst(a, b, objects, res, waitTime, deadline, k);
      FoundShifts(a, b, c, objects, res, waitTime, deadline, k);
      InTimeFinds(c, objects, waitTime, deadline, err, sweeps, k - 1);
    }
    if !a.crashed && BenignFor(a.tape, (sweeps + 1) * |objects|) && err == [] {
      assert (sweeps + 1) * |objects| == |objects| + sweeps * |objects|;
      TapeAdd(a.tape, |objects|, sweeps * |objects|);
      SweptFades(a, b, objects, res);
      InTimeFound(c, objects, waitTime, deadline, sweeps);
      FoundShifts(a, b, c, objects, res, waitTime, deadline, sweeps);
    }
    InTimeIs(a, objects, waitTime, deadline, err, sweeps + 1);
  }

  lemma InTimeIs(a: State, objects: seq<Ident>, waitTime: nat, deadline: nat, err: Errors, sweeps: nat)
    requires forall k: nat :: FoundInTime(a, objects, waitTime, deadline, k) ==> err == [] && sweeps <= k + 1
    requires !a.crashed && BenignFor(a.tape, sweeps * |objects|) && err == [] ==>
      sweeps > 0 && FoundInTime(a, objects, waitTime, deadline, sweeps - 1)
    ensures InTime(a, objects, waitTime, deadline, err, sweeps)
  {
  }

  lemma InTimeFinds(c: State, objects: seq<Ident>, waitTime: nat, deadline: nat, err: Errors, sweeps: nat, k: nat)
    requires InTime(c, objects, waitTime, deadline, err, sweeps) && FoundInTime(c, objects, waitTime, deadline, k)
    ensures err == [] && sweeps <= k + 1
  {
  }

  lemma InTimeFound(c: State, objects: seq<Ident>, waitTime: nat, deadline: nat, sweeps: nat)
    requires InTime(c, objects, waitTime, deadline, [], sweeps)
    requires !c.crashed && BenignFor(c.tape, sweeps * |objects|)
    ensures sweeps > 0 && FoundInTime(c, objects, waitTime, deadline, sweeps - 1)
  {
  }

  lemma SweptFades(a: State, b: State, objects: seq<Ident>, res: seq<Result<bool>>)
    requires HasSwept(a, b, objects, res) && !a.crashed && BenignFor(a.tape, |objects|)
    ensures !b.crashed && b.tape == After(a.tape, |objects|)
    ensures b.clock == a.clock + Delays(a.tape, |objects|)
    ensures b.world.live == a.world.live - Vanished(a.tape, |objects|)
  {
    hide OnlyInterfered, BenignFor, After, Delays, Vanished, DoNotExist;
  }

  /** The first sweep saw an object, so another one must be the clean one. */
  lemma NotFirst(a: State, b: State, objects: seq<Ident>, res: seq<Result<bool>>, waitTime: nat, deadline: nat, k: nat)
    requires HasSwept(a, b, objects, res) && !(forall n :: 0 <= n < |res| ==> DoNotExist(res[n]))
    requires FoundInTime(a, objects, waitTime, deadline, k)
    ensures k > 0
  {
    assert k == 0 ==> (k + 1) * |objects| == |objects| && k * |objects| == 0;
    hide OnlyInterfered, Spent, Faded, BenignFor, Vanished, Delays;
  }

  /** Seen from after the first sweep and the wait, every sweep comes one sooner. */
  lemma FoundShifts(a: State, b: State, c: State, objects: seq<Ident>, res: seq<Result<bool>>, waitTime: nat,
                    deadline: nat, k: nat)
    requires HasSwept(a, b, objects, res) && c == b.(clock := b.clock + waitTime) && k > 0
    requires (!a.crashed && BenignFor(a.tape, |objects|)) || FoundInTime(a, objects, waitTime, deadline, k)
    ensures FoundInTime(a, objects, waitTime, deadline, k) <==> FoundInTime(c, objects, waitTime, deadline, k - 1)
  {
    hide FoundFrom, HasSwept, BenignFor, After, Delays, Vanished;
    var n := |objects|;
    var m, e, w := (k - 1) * n, k * n, (k - 1) * waitTime;
    assert e == n + m && (k + 1) * n == n + e && k * waitTime == waitTime + w;
    FoundBenign(a, objects, deadline, n, k * n, e, k * waitTime);
    SweptFades(a, b, objects, res);
    FoundFromShifts(a, c, objects, waitTime, deadline, m, e, w);
  }

  lemma FoundBenign(a: State, objects: seq<Ident>, deadline: nat, n: nat, m: nat, e: nat, w: nat)
    ensures FoundFrom(a, objects, deadline, m, n + e, w) ==> !a.crashed && BenignFor(a.tape, n)
  {
    TapeAdd(a.tape, n, e);
  }

  lemma FoundFromShifts(a: State, c: State, objects: seq<Ident>, waitTime: nat, deadline: nat, m: nat, e: nat, w: nat)
    requires !a.crashed && BenignFor(a.tape, |objects|) && !c.crashed && c.tape == After(a.tape, |objects|)
    requires c.clock == a.clock + Delays(a.tape, |objects|) + waitTime
    requires c.world.live == a.world.live - Vanished(a.tape, |objects|)
    ensures FoundFrom(a, objects, deadline, |objects| + m, |objects| + e, waitTime + w) <==>
            FoundFrom(c, objects, deadline, m, e, w)
  {
    hide BenignFor, Vanished, Delays, After, CleanFrom;
    var n := |objects|;
    TapeAdd(a.tape, n, e);
    TapeAdd(a.tape, n, m);
    CleanFromShifts(a, c, objects, n, m);
  }

  /** Some error of the list may pass for a conflict. */
  ghost predicate AnyClash(errs: Errors) {
    exists e :: e in errs && Clashes(e)
  }

  ghost predicate AllConflicts(errs: Errors) {
    forall e :: e in errs ==> e == CONFLICT
  }

  lemma ClashOfSum(a: Errors, b: Errors)
    ensures AnyClash(a + b) <==> AnyClash(a) || AnyClash(b)
    ensures AllConflicts(a + b) <==> AllConflicts(a) && AllConflicts(b)
    ensures !AnyClash([]) && AllConflicts([]) && AllConflicts([CONFLICT])
  {
    hide Clashes;
    assert forall e :: e in a + b <==> e in a || e in b;
  }

  /** `n` contended calls changed nothing. */
  ghost predicate Stormed(a: State, b: State, n: nat) {
    n <= |a.tape| && b.world == a.world && !b.crashed && b.tape == a.tape[n..]
  }

  /** What deleting these objects leaves: nothing else is deleted, and a conflict is noted. */
  ghost predicate HasDeleted(a: State, b: State, objects: seq<Ident>, errs: Errors) {
    && Carries(a, b) && Rely(a.world, b.world) && Deleted(a, b) <= Ids(objects) && Applied(a, b) == []
    && Noticed(a.history, b.history) && (AnyClash(errs) ==> b.history.refused && a.tape != [])
    && (AtPeace(a) ==> errs == [] && b.world == a.world.(live := a.world.live - Ids(objects)))
    && (Contention(a, |objects|) ==> Stormed(a, b, |objects|) && AllConflicts(errs) && |errs| == |objects|)
  }

  /** What one pass of deletes leaves: one call for each object; if they are benign there is no error, and
      nothing happens but that objects go. */
  ghost predicate HasPassed(a: State, b: State, objects: seq<Ident>, errs: Errors) {
    && Spent(a, b, |objects|)
    && (!a.crashed && BenignFor(a.tape, |objects|) ==>
          && errs == [] && !b.crashed && b.world == a.world.(live := b.world.live)
          && b.world.live <= a.world.live - Vanished(a.tape, |objects|))
  }

  /** One delete; an object that is missing already is no error. */
  method DeleteOne(server: ApiServer, o: Ident, current: seq<Ident>) returns (errs: Errors)
    requires server.Valid() && o.Id() !in Ids(current)
    modifies server
    ensures server.Valid() && HasDeleted(old(server.state), server.state, [o], errs)
    ensures HasPassed(old(server.state), server.state, [o], errs)
  {
    hide IsRun, Inv, HistoryOf, HasRemoved, HasDeleted, HasPassed;
    var err := server.Delete(o, current);
    errs := if err.Some? && !err.value.Is(NotFound) then [err.value] else [];
    DeletedOne(old(server.state), server.state, o, err, errs);
  }

  lemma DeletedOne(a: State, b: State, o: Ident, err: Option<ApiError>, errs: Errors)
    requires HasRemoved(a, b, o, err)
    requires errs == if err.Some? && !err.value.Is(NotFound) then [err.value] else []
    ensures HasDeleted(a, b, [o], errs) && HasPassed(a, b, [o], errs)
  {
    TapeStep(a.tape);
    assert Ids([o]) == {o.Id()};
    hide Carries, Deletions, Applies, DropsNone, Rely, Clashes, CONFLICT, CONTENTION, Benign;
  }

  lemma DeletedNone(a: State)
    ensures HasDeleted(a, a, [], []) && HasPassed(a, a, [], [])
  {
    CarriesReflexive(a);
    assert a.world.live - Vanished(a.tape, 0) == a.world.live && After(a.tape, 0) == a.tape;
    assert a.world.live - Ids([]) == a.world.live;
    hide Carries, Deletions, Applies, DropsNone, Rely, Clashes;
  }

  lemma DeletedMore(a: State, b: State, c: State, objects: seq<Ident>, o: Ident, errs: Errors, more: Errors)
    requires HasDeleted(a, b, objects, errs) && HasDeleted(b, c, [o], more)
    ensures HasDeleted(a, c, objects + [o], errs + more)
  {
    hide Rely, Deletions, Applies, DropsNone, Clashes, Carries, AnyClash, AllConflicts;
    CarriesTransitive(a, b, c);
    ClashOfSum(errs, more);
    assert Ids(objects + [o]) == Ids(objects) + Ids([o]);
    CarriesKeeps(a, b);
  }

  lemma PassedMore(a: State, b: State, c: State, objects: seq<Ident>, o: Ident, errs: Errors, more: Errors)
    requires HasPassed(a, b, objects, errs) && HasPassed(b, c, [o], more)
    ensures HasPassed(a, c, objects + [o], errs + more)
  {
    TapeAdd(a.tape, |objects|, 1);
    hide After, Delays, Vanished, BenignFor;
  }

  lemma CarriesKeeps(a: State, b: State)
    requires Carries(a, b)
    ensures |b.tape| <= |a.tape| && (AtPeace(a) ==> AtPeace(b))
  {
  }

  method DeleteAll(server: ApiServer, objects: seq<Ident>, current: seq<Ident>) returns (errs: Errors)
    requires server.Valid() && Ids(objects) !! Ids(current)
    modifies server
    ensures server.Valid() && HasDeleted(old(server.state), server.state, objects, errs)
    ensures HasPassed(old(server.state), server.state, objects, errs)
    ensures objects == [] ==> errs == [] && server.state == old(server.state)
  {
    hide IsRun, Inv, HistoryOf, HasDeleted, HasPassed;
    errs := [];
    DeletedNone(server.state);
    for n := 0 to |objects|
      invariant server.Valid() && HasDeleted(old(server.state), server.state, objects[..n], errs)
      invariant HasPassed(old(server.state), server.state, objects[..n], errs)
      invariant n == 0 ==> errs == [] && server.state == old(server.state)
    {
      ghost var mid := server.state;
      assert objects[n].Id() in Ids(objects);
      var err := DeleteOne(server, objects[n], current);
      DeletedMore(old(server.state), mid, server.state, objects[..n], objects[n], errs, err);
      PassedMore(old(server.state), mid, server.state, objects[..n], objects[n], errs, err);
      assert objects[..n + 1] == objects[..n] + [objects[n]];
      errs := errs + err;
    }
    assert objects[..|objects|] == objects;
  }

  /** `DeleteAllInTimeLimit`: success means that every object is gone. An error is one of the deletes, or the time
      is up; and objects that linger are no error if they vanish before the last sweep that starts in time. */
  method DeleteAllInTimeLimit(server: ApiServer, objects: seq<Ident>, timeout: nat, waitTime: nat, current: seq<Ident>)
    returns (err: Errors, deleting: Errors, sweeps: nat)
    requires server.Valid() && waitTime > 0 && Ids(objects) !! Ids(current)
    modifies server
    ensures server.Valid() && sweeps <= (timeout + waitTime - 1) / waitTime
    ensures err == [] ==> sweeps > 0 && Absent(objects, server.state.world)
    ensures timeout > 0 ==> HasDeleted(old(server.state), server.state, objects, err)
    ensures deleting != [] ==> err == deleting
    ensures deleting == [] && err != [] ==> old(server.state).clock + timeout <= server.state.clock
    ensures forall k: nat :: VanishesInTime(old(server.state), objects, waitTime, timeout, k) ==> err == []
    ensures Carries(old(server.state), server.state) && Rely(old(server.state).world, server.state.world)
    ensures Deleted(old(server.state), server.state) <= Ids(objects)
  {
    hide IsRun, Inv, HistoryOf, HasDeleted, HasPassed, HasVerified, VanishesInTime;
    ghost var a := server.state;
    var deadline := server.state.clock + timeout;
    deleting := DeleteAll(server, objects, current);
    err := deleting;
    ghost var b := server.state;
    DeletedFacts(a, b, objects, deleting);
    PassedClock(a, b, objects, deleting);
    if err != [] {
      assert 0 <= (timeout + waitTime - 1) / waitTime;
      PassedInTime(a, b, objects, deleting, waitTime, timeout);
      return err, deleting, 0;
    }
    err, sweeps := VerifyDeletion(server, objects, waitTime, deadline);
    DeletedThenVerified(a, b, server.state, objects, waitTime, deadline, err, sweeps);
    VerifiedInTime(a, b, server.state, objects, waitTime, timeout, err, sweeps);
    FitsInLimit(sweeps, waitTime, deadline - b.clock, timeout);
  }

  /** All calls up to sweep `k` are benign, this sweep starts within the limit, and every object is gone by then,
      whether a delete removed it or it has been lingering. */
  ghost predicate VanishesInTime(a: State, objects: seq<Ident>, waitTime: nat, timeout: nat, k: nat) {
    && !a.crashed && BenignFor(a.tape, (k + 2) * |objects|)
    && CleanFrom(a, objects, (k + 1) * |objects|)
    && k * waitTime + Delays(a.tape, (k + 1) * |objects|) < timeout
  }

  lemma DeletedFacts(a: State, b: State, objects: seq<Ident>, errs: Errors)
    requires HasDeleted(a, b, objects, errs)
    ensures Carries(a, b) && Rely(a.world, b.world) && Deleted(a, b) <= Ids(objects) && a.clock <= b.clock
  {
  }

  /** Contended calls take no time. */
  lemma {:induction false} ContentionTakesNoTime(a: State, n: nat)
    requires n <= |a.tape| && forall i :: 0 <= i < n ==> a.tape[i] == CONTENTION
    ensures Delays(a.tape, n) == 0
    decreases n
  {
    if n > 0 { ContentionTakesNoTime(a.(tape := a.tape[1..]), n - 1); }
  }

  lemma PassedClock(a: State, b: State, objects: seq<Ident>, errs: Errors)
    requires HasPassed(a, b, objects, errs)
    ensures AtPeace(a) || Contention(a, |objects|) ==> b.clock == a.clock
  {
    if Contention(a, |objects|) { ContentionTakesNoTime(a, |objects|); }
  }

  lemma PassedInTime(a: State, b: State, objects: seq<Ident>, errs: Errors, waitTime: nat, timeout: nat)
    requires HasPassed(a, b, objects, errs) && errs != []
    ensures forall k: nat :: !VanishesInTime(a, objects, waitTime, timeout, k)
  {
    forall k: nat ensures !VanishesInTime(a, objects, waitTime, timeout, k) {
      assert (k + 2) * |objects| == |objects| + (k + 1) * |objects|;
      TapeAdd(a.tape, |objects|, (k + 1) * |objects|);
    }
  }

  lemma FitsInLimit(sweeps: nat, wait: nat, remaining: int, timeout: nat)
    requires wait > 0 && FitsIn(sweeps, wait, remaining) && remaining <= timeout
    ensures sweeps <= (timeout + wait - 1) / wait
  {
    FitsInCeiling(sweeps, wait, timeout);
  }

  lemma DeletedThenVerified(a: State, b: State, c: State, objects: seq<Ident>, waitTime: nat, deadline: nat,
                            err: Errors, sweeps: nat)
    requires HasDeleted(a, b, objects, []) && HasVerified(b, c, objects, waitTime, deadline, err, sweeps)
    requires objects == [] ==> b == a
    ensures Carries(a, c) && Rely(a.world, c.world) && Deleted(a, c) <= Ids(objects)
    ensures err == [] ==> sweeps > 0 && Absent(objects, c.world)
    ensures err != [] ==> deadline <= c.clock
    ensures a.clock < deadline && (AtPeace(a) || Contention(a, |objects|) ==> b.clock == a.clock) ==>
      HasDeleted(a, c, objects, err)
  {
    assert !Clashes(DEADLINE_EXCEEDED);
    hide Rely, Deletions, Applies, DropsNone, Clashes, Carries, InTime, After, Delays;
    CarriesTransitive(a, b, c);
    CarriesKeeps(a, b);
  }

  lemma VerifiedInTime(a: State, b: State, c: State, objects: seq<Ident>, waitTime: nat, timeout: nat, err: Errors,
                       sweeps: nat)
    requires HasPassed(a, b, objects, [])
    requires HasVerified(b, c, objects, waitTime, a.clock + timeout, err, sweeps)
    ensures forall k: nat :: VanishesInTime(a, objects, waitTime, timeout, k) ==> err == []
  {
    forall k: nat | VanishesInTime(a, objects, waitTime, timeout, k) ensures err == [] {
      var n := |objects|;
      var m, e := k * n, (k + 1) * n;
      assert (k + 2) * n == n + e && e == n + m;
      TapeAdd(a.tape, n, e);
      TapeAdd(a.tape, n, m);
      CleanFromShifts(a, b, objects, n, m);
      hide OnlyInterfered, BenignFor, Vanished, Delays, After, InTime, CleanFrom;
      assert FoundInTime(b, objects, waitTime, a.clock + timeout, k);
      InTimeFinds(b, objects, waitTime, a.clock + timeout, err, sweeps, k);
    }
  }
}
