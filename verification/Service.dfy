/** The lifecycle of the embeddable service: handlers, host calls, Run and Close (service.go, service_projects.go). */
module Service {
  import opened Options

  // Every section that the source runs under the mutex is one step. The class
  // `Service` has those sections as methods; the system below interleaves them
  // for any number of goroutines.

  /** The fields guarded by the mutex, the wait group's counter, and the
      channels that have been closed. `run` is the active run's `done` channel:
      runCancel is non-nil exactly while there is one. */
  datatype Fields = Fields(closed: bool, running: bool, run: Option<nat>, handlers: nat, closedRuns: set<nat>,
                           closeDone: bool, closeErr: Option<string>, storeCloses: nat)

  const FRESH := Fields(false, false, None, 0, {}, false, None, 0)

  // ---------------------------------------------------------------------
  // The critical sections
  // ---------------------------------------------------------------------

  /** serveHTTP and beginHostCall: refuse when closed, else join the group. */
  function EnterCall(f: Fields): (Fields, bool) {
    if f.closed then (f, false) else (f.(handlers := f.handlers + 1), true)
  }

  function LeaveCall(f: Fields): Fields
    requires f.handlers > 0
  {
    f.(handlers := f.handlers - 1)
  }

  /** Run: refuse when closed or running, else publish a new done channel. */
  function EnterRun(f: Fields, done: nat): (Fields, bool) {
    if f.closed || f.running then (f, false) else (f.(running := true, run := Some(done)), true)
  }

  /** Run's deferred section. */
  function LeaveRun(f: Fields, done: nat): Fields {
    f.(running := false, run := None, closedRuns := f.closedRuns + {done})
  }

  /** Close's first section: a later closer waits for the first one; the first
      one learns which run, if any, it has to wait for. */
  function EnterClose(f: Fields): (Fields, bool, Option<nat>) {
    if f.closed then (f, false, None) else (f.(closed := true), true, f.run)
  }

  /** Server and store are closed, outside the mutex. */
  function CloseStorage(f: Fields): Fields {
    f.(storeCloses := f.storeCloses + 1)
  }

  function FinishClose(f: Fields, err: Option<string>): Fields {
    f.(closeErr := err, closeDone := true)
  }

  class Service {
    const hostAccess: bool
    const fenced: bool
    var closed: bool
    var running: bool
    var run: Option<nat>
    var handlers: nat
    var closedRuns: set<nat>
    var closeDone: bool
    var closeErr: Option<string>
    var storeCloses: nat

    function State(): Fields
      reads this
    {
      Fields(closed, running, run, handlers, closedRuns, closeDone, closeErr, storeCloses)
    }

    constructor (hostAccess: bool, fenced: bool)
      ensures State() == FRESH
    {
      this.hostAccess, this.fenced := hostAccess, fenced;
      closed, running, run, handlers, closedRuns := false, false, None, 0, {};
      closeDone, closeErr, storeCloses := false, None, 0;
    }

    method BeginCall() returns (ok: bool)
      modifies this
      ensures (State(), ok) == EnterCall(old(State()))
    {
      if closed {
        return false;
      }
      handlers := handlers + 1;
      ok := true;
    }

    method EndCall()
      requires handlers > 0
      modifies this
      ensures State() == LeaveCall(old(State()))
    {
      handlers := handlers - 1;
    }

    /** Run up to the start of its workers: a missing context, and host access
        without a worker fence, are refused before the mutex is taken. */
    method BeginRun(hasContext: bool, done: nat) returns (ok: bool)
      modifies this
      ensures if !hasContext || (hostAccess && !fenced) then !ok && State() == old(State())
              else (State(), ok) == EnterRun(old(State()), done)
    {
      if !hasContext || (hostAccess && !fenced) {
        return false;
      }
      if closed {
        return false;
      }
      if running {
        return false;
      }
      running, run := true, Some(done);
      ok := true;
    }

    method EndRun(done: nat)
      modifies this
      ensures State() == LeaveRun(old(State()), done)
    {
      running, run := false, None;
      closedRuns := closedRuns + {done};
    }

    method BeginClose() returns (first: bool, wait: Option<nat>)
      modifies this
      ensures (State(), first, wait) == EnterClose(old(State()))
    {
      if closed {
        return false, None;
      }
      closed := true;
      return true, run;
    }

    method EndClose(err: Option<string>)
      modifies this
      ensures State() == FinishClose(old(State()), err)
    {
      closeErr, closeDone := err, true;
    }
  }

  // ---------------------------------------------------------------------
  // All goroutines together
  // ---------------------------------------------------------------------

  datatype Thread =
    | InCall                             // a handler or a host call
    | InRun(done: nat)
    | WaitRun(wait: nat)                 // the first closer: <-runDone
    | WaitCalls                          // handlerWG.Wait()
    | Finishing(err: Option<string>)     // storage closed, result not stored yet
    | WaitClose                          // a later closer: <-closeDone
    | Refused
    | Left
    | Closed(err: Option<string>)        // Close has returned err

  /** `closer` names the goroutine whose Close was the first. */
  datatype State = State(f: Fields, closer: Option<nat>, threads: map<nat, Thread>)

  const START := State(FRESH, None, map[])

  datatype Action =
    | CallBegins | CallEnds
    | RunBegins | RunEnds
    | CloseBegins | RunAwaited | CallsAwaited(err: Option<string>) | CloseEnds | CloseJoined

  function At(s: State, f: Fields, id: nat, th: Thread): State {
    s.(f := f, threads := s.threads[id := th])
  }

  /** Goroutine `id` takes one step. The channel of a run is named after the
      goroutine that made it. */
  ghost predicate Step(s: State, id: nat, a: Action, t: State) {
    match a
    case CallBegins =>
      id !in s.threads &&
      t == At(s, EnterCall(s.f).0, id, if EnterCall(s.f).1 then InCall else Refused)
    case CallEnds =>
      id in s.threads && s.threads[id].InCall? && s.f.handlers > 0 && t == At(s, LeaveCall(s.f), id, Left)
    case RunBegins =>
      id !in s.threads &&
      t == At(s, EnterRun(s.f, id).0, id, if EnterRun(s.f, id).1 then InRun(id) else Refused)
    case RunEnds =>
      id in s.threads && s.threads[id].InRun? && t == At(s, LeaveRun(s.f, s.threads[id].done), id, Left)
    case CloseBegins =>
      id !in s.threads &&
      var (f, first, wait) := EnterClose(s.f);
      t == (if !first then At(s, f, id, WaitClose)
            else At(s, f, id, if wait.Some? then WaitRun(wait.value) else WaitCalls).(closer := Some(id)))
    case RunAwaited =>
      id in s.threads && s.threads[id].WaitRun? && s.threads[id].wait in s.f.closedRuns &&
        t == At(s, s.f, id, WaitCalls)
    case CallsAwaited(err) =>
      id in s.threads && s.threads[id].WaitCalls? && s.f.handlers == 0 &&
        t == At(s, CloseStorage(s.f), id, Finishing(err))
    case CloseEnds =>
      id in s.threads && s.threads[id].Finishing? &&
      t == At(s, FinishClose(s.f, s.threads[id].err), id, Closed(s.threads[id].err))
    case CloseJoined =>
      id in s.threads && s.threads[id].WaitClose? && s.f.closeDone && t == At(s, s.f, id, Closed(s.f.closeErr))
  }

  /** The calls in flight. */
  function Calls(s: State): set<nat> {
    set id | id in s.threads && s.threads[id].InCall?
  }

  predicate IsFirstCloser(th: Thread) {
    th.WaitRun? || th.WaitCalls? || th.Finishing?
  }

  /** A thread agrees with the guarded fields. */
  predicate Agrees(s: State, id: nat) {
    id in s.threads ==>
      (IsFirstCloser(s.threads[id]) ==> s.closer == Some(id) && !s.f.closeDone) &&
      match s.threads[id]
      case InRun(done) => done == id && s.f.run == Some(id)
      case WaitRun(wait) =>
        s.f.storeCloses == 0 && (if s.f.running then s.f.run == Some(wait) else wait in s.f.closedRuns)
      case WaitCalls => s.f.storeCloses == 0 && !s.f.running
      case Finishing(_) => s.f.storeCloses == 1 && !s.f.running && s.f.handlers == 0
      case WaitClose => s.f.closed
      case Closed(err) => s.f.closeDone && err == s.f.closeErr
      case _ => true
  }

  ghost predicate AllAgree(s: State) {
    forall id :: Agrees(s, id)
  }

  ghost predicate Counted(s: State) {
    s.f.handlers == |Calls(s)|
  }

  /** The active run's goroutine, and the first closer's, exist. */
  predicate Owned(s: State) {
    && (s.f.running <==> s.f.run.Some?)
    && (s.f.run.Some? ==> s.f.run.value in s.threads && s.threads[s.f.run.value].InRun?)
    && (s.f.run.Some? ==> s.f.run.value !in s.f.closedRuns)
    && s.f.closedRuns <= s.threads.Keys
    && (s.f.closed <==> s.closer.Some?)
    && (s.closer.Some? && !s.f.closeDone ==>
          s.closer.value in s.threads && IsFirstCloser(s.threads[s.closer.value]))
    && (!s.f.closed ==> s.f.storeCloses == 0)
    && (s.f.closeDone ==> s.f.closed && s.f.storeCloses == 1 && !s.f.running && s.f.handlers == 0)
  }

  ghost predicate Inv(s: State) {
    Counted(s) && Owned(s) && AllAgree(s)
  }

  lemma InitialInv()
    ensures Inv(START)
  {
    assert Calls(START) == {};
  }

  lemma CallsChange(s: State, f: Fields, id: nat, th: Thread)
    ensures Calls(At(s, f, id, th)) == if th.InCall? then Calls(s) + {id} else Calls(s) - {id}
  {
  }

  lemma StepCounts(s: State, id: nat, a: Action, t: State)
    requires Counted(s) && Step(s, id, a, t)
    ensures Counted(t)
  {
    CallsChange(s, t.f, id, t.threads[id]);
    assert Calls(t) == Calls(At(s, t.f, id, t.threads[id]));
    assert id in Calls(s) <==> id in s.threads && s.threads[id].InCall?;
  }

  lemma StepOwns(s: State, id: nat, a: Action, t: State)
    requires Owned(s) && AllAgree(s) && Step(s, id, a, t)
    ensures Owned(t)
  {
    assert Agrees(s, id);
  }

  lemma OthersStillAgree(s: State, id: nat, a: Action, t: State, k: nat)
    requires Owned(s) && Agrees(s, id) && Agrees(s, k) && Step(s, id, a, t) && k != id
    ensures Agrees(t, k)
  {
  }

  lemma MoverAgrees(s: State, id: nat, a: Action, t: State)
    requires Owned(s) && Agrees(s, id) && Step(s, id, a, t)
    ensures Agrees(t, id)
  {
  }

  lemma StepKeepsInv(s: State, id: nat, a: Action, t: State)
    requires Inv(s) && Step(s, id, a, t)
    ensures Inv(t)
  {
    StepCounts(s, id, a, t);
    StepOwns(s, id, a, t);
    forall k ensures Agrees(t, k) {
      assert Agrees(s, id) && Agrees(s, k);
      if k == id {
        MoverAgrees(s, id, a, t);
      } else {
        OthersStillAgree(s, id, a, t, k);
      }
    }
  }

  // ---------------------------------------------------------------------
  // Every reachable state
  // ---------------------------------------------------------------------

  datatype Event = Event(id: nat, action: Action)

  /** A run from the fresh service: its events and all states around them. */
  ghost predicate IsRun(states: seq<State>, log: seq<Event>) {
    && |states| == |log| + 1 && states[0] == START
    && forall i :: 0 <= i < |log| ==> Step(states[i], log[i].id, log[i].action, states[i + 1])
  }

  lemma {:induction false} Reachable(states: seq<State>, log: seq<Event>, n: nat)
    requires IsRun(states, log) && n <= |log|
    ensures Inv(states[n])
  {
    if n == 0 {
      InitialInv();
    } else {
      Reachable(states, log, n - 1);
      StepKeepsInv(states[n - 1], log[n - 1].id, log[n - 1].action, states[n - 1 + 1]);
    }
  }

  /** Storage is closed at most once, and at that moment no handler or host call
      is in flight and no Run is active. */
  lemma StorageClosedOnceAndIdle(states: seq<State>, log: seq<Event>, i: nat)
    requires IsRun(states, log) && i < |log| && log[i].action.CallsAwaited?
    ensures states[i].f.storeCloses == 0 && states[i + 1].f.storeCloses == 1
    ensures forall id :: id in states[i].threads ==> !states[i].threads[id].InCall? && !states[i].threads[id].InRun?
  {
    Reachable(states, log, i);
    var s, e := states[i], log[i];
    assert Step(s, e.id, e.action, states[i + 1]) && Agrees(s, e.id);
    assert Calls(s) == {};
    forall id | id in s.threads ensures !s.threads[id].InCall? && !s.threads[id].InRun? {
      assert Agrees(s, id) && id !in Calls(s);
    }
  }

  /** At most one Run is active. */
  lemma AtMostOneRun(states: seq<State>, log: seq<Event>, n: nat, i: nat, j: nat)
    requires IsRun(states, log) && n <= |log|
    requires i in states[n].threads && states[n].threads[i].InRun?
    requires j in states[n].threads && states[n].threads[j].InRun?
    ensures i == j && states[n].f.running
  {
    Reachable(states, log, n);
    assert Agrees(states[n], i) && Agrees(states[n], j);
  }

  /** While storage is closed nothing is in flight. */
  lemma ClosedStorageIsIdle(states: seq<State>, log: seq<Event>, n: nat, id: nat)
    requires IsRun(states, log) && n <= |log| && states[n].f.storeCloses > 0
    ensures states[n].f.storeCloses == 1
    ensures id in states[n].threads ==> !states[n].threads[id].InCall? && !states[n].threads[id].InRun?
  {
    Reachable(states, log, n);
    var s := states[n];
    assert Agrees(s, id);
    if !s.f.closeDone {
      assert Agrees(s, s.closer.value);
    }
    assert Calls(s) == {} && id !in Calls(s);
  }

  lemma {:induction false} ClosedStays(states: seq<State>, log: seq<Event>, i: nat, j: nat)
    requires IsRun(states, log) && i <= j <= |log| && states[i].f.closed
    ensures states[j].f.closed
  {
    if i < j {
      ClosedStays(states, log, i, j - 1);
      assert Step(states[j - 1], log[j - 1].id, log[j - 1].action, states[j - 1 + 1]);
    }
  }

  /** Once Close has marked the service closed, no handler, host call or Run
      begins. */
  lemma NothingBeginsAfterClose(states: seq<State>, log: seq<Event>, i: nat, j: nat)
    requires IsRun(states, log) && i <= j < |log| && states[i].f.closed
    requires log[j].action.CallBegins? || log[j].action.RunBegins?
    ensures states[j + 1] == At(states[j], states[j].f, log[j].id, Refused)
  {
    ClosedStays(states, log, i, j);
    assert Step(states[j], log[j].id, log[j].action, states[j + 1]);
  }

  ghost predicate CloseBegan(log: seq<Event>, n: nat)
    requires n <= |log|
  {
    exists i :: 0 <= i < n && log[i].action.CloseBegins?
  }

  lemma {:induction false} ClosedMeans(states: seq<State>, log: seq<Event>, n: nat)
    requires IsRun(states, log) && n <= |log|
    ensures states[n].f.closed <==> CloseBegan(log, n)
  {
    if n > 0 {
      ClosedMeans(states, log, n - 1);
      assert Step(states[n - 1], log[n - 1].id, log[n - 1].action, states[n - 1 + 1]);
      if log[n - 1].action.CloseBegins? {
        assert CloseBegan(log, n);
      }
    }
  }

  /** A handler or host call begins exactly if no Close has begun, and a Run
      exactly if, besides, no other Run is active; whatever begins is in
      flight, and whatever does not is refused. */
  lemma AdmittedUnlessClosed(states: seq<State>, log: seq<Event>, j: nat)
    requires IsRun(states, log) && j < |log|
    ensures var id, before := log[j].id, states[j].threads;
      && (log[j].action.CallBegins? ==>
            states[j + 1].threads == before[id := if CloseBegan(log, j) then Refused else InCall])
      && (log[j].action.RunBegins? ==>
            states[j + 1].threads == before[id := if CloseBegan(log, j) ||
              (exists other :: other in before && before[other].InRun?) then Refused else InRun(id)])
  {
    ClosedMeans(states, log, j);
    Reachable(states, log, j);
    var s := states[j];
    assert Step(s, log[j].id, log[j].action, states[j + 1]);
    if other :| other in s.threads && s.threads[other].InRun? {
      assert Agrees(s, other);
    }
  }

  ghost predicate StorageClosedWith(log: seq<Event>, n: nat, err: Option<string>)
    requires n <= |log|
  {
    exists i :: 0 <= i < n && log[i].action == CallsAwaited(err)
  }

  lemma {:induction false} ErrorIsTheStorages(states: seq<State>, log: seq<Event>, n: nat)
    requires IsRun(states, log) && n <= |log|
    ensures states[n].f.closeDone ==> StorageClosedWith(log, n, states[n].f.closeErr)
    ensures forall id :: id in states[n].threads && states[n].threads[id].Finishing? ==>
      StorageClosedWith(log, n, states[n].threads[id].err)
  {
    if n > 0 {
      ErrorIsTheStorages(states, log, n - 1);
      var s, e, t := states[n - 1], log[n - 1], states[n - 1 + 1];
      assert Step(s, e.id, e.action, t);
      forall err | StorageClosedWith(log, n - 1, err) ensures StorageClosedWith(log, n, err) {
        var i :| 0 <= i < n - 1 && log[i].action == CallsAwaited(err);
      }
      if e.action.CallsAwaited? {
        assert StorageClosedWith(log, n, e.action.err);
      }
    }
  }

  /** What a Close returns is the error of closing the storage. */
  lemma CloseReturnsTheStoragesError(states: seq<State>, log: seq<Event>, n: nat, id: nat)
    requires IsRun(states, log) && n <= |log| && id in states[n].threads && states[n].threads[id].Closed?
    ensures StorageClosedWith(log, n, states[n].threads[id].err)
  {
    Reachable(states, log, n);
    assert Agrees(states[n], id);
    ErrorIsTheStorages(states, log, n);
  }

  /** Every Close that has returned, returned the same error. */
  lemma ClosersAgree(states: seq<State>, log: seq<Event>, n: nat, i: nat, j: nat)
    requires IsRun(states, log) && n <= |log|
    requires i in states[n].threads && states[n].threads[i].Closed? && j in states[n].threads &&
      states[n].threads[j].Closed?
    ensures states[n].threads[i].err == states[n].threads[j].err == states[n].f.closeErr
  {
    Reachable(states, log, n);
    assert Agrees(states[n], i) && Agrees(states[n], j);
  }

  /** The steps of goroutines that only need the scheduler. */
  ghost predicate CanMove(s: State, id: nat) {
    id in s.threads &&
    match s.threads[id]
    case InCall => s.f.handlers > 0
    case InRun(_) => true
    case WaitRun(wait) => wait in s.f.closedRuns
    case WaitCalls => s.f.handlers == 0
    case Finishing(_) => true
    case WaitClose => s.f.closeDone
    case _ => false
  }

  lemma MoversStep(s: State, id: nat)
    requires CanMove(s, id)
    ensures exists a: Action, t: State :: Step(s, id, a, t)
  {
    match s.threads[id]
    case InCall => assert Step(s, id, CallEnds, At(s, LeaveCall(s.f), id, Left));
    case InRun(done) => assert Step(s, id, RunEnds, At(s, LeaveRun(s.f, done), id, Left));
    case WaitRun(_) => assert Step(s, id, RunAwaited, At(s, s.f, id, WaitCalls));
    case WaitCalls => assert Step(s, id, CallsAwaited(None), At(s, CloseStorage(s.f), id, Finishing(None)));
    case Finishing(e) => assert Step(s, id, CloseEnds, At(s, FinishClose(s.f, e), id, Closed(e)));
    case WaitClose => assert Step(s, id, CloseJoined, At(s, s.f, id, Closed(s.f.closeErr)));
  }

  // ---------------------------------------------------------------------
  // Close returns
  // ---------------------------------------------------------------------

  /** The steps that a goroutine has still to take. */
  function Todo(th: Thread): nat {
    match th
    case WaitRun(_) => 3
    case WaitCalls => 2
    case InCall => 1
    case InRun(_) => 1
    case Finishing(_) => 1
    case WaitClose => 1
    case _ => 0
  }

  /** One pair for every step that some goroutine has still to take. */
  function Ahead(threads: map<nat, Thread>): set<(nat, nat)> {
    set id, k | id in threads && 0 <= k < Todo(threads[id]) :: (id, k)
  }

  function Remaining(s: State): nat {
    |Ahead(s.threads)|
  }

  /** Some goroutine that exists can take a step. */
  ghost predicate Moves(s: State) {
    exists mover: nat, a: Action, t: State :: mover in s.threads && Step(s, mover, a, t)
  }

  lemma NothingAhead(s: State)
    ensures Remaining(s) == 0 <==> forall id :: id in s.threads ==> Todo(s.threads[id]) == 0
  {
    if id :| id in s.threads && Todo(s.threads[id]) > 0 {
      assert (id, 0) in Ahead(s.threads);
    } else {
      assert Ahead(s.threads) == {};
    }
  }

  lemma AheadChange(threads: map<nat, Thread>, id: nat, th: Thread)
    requires id in threads && Todo(threads[id]) == Todo(th) + 1
    ensures |Ahead(threads[id := th])| == |Ahead(threads)| - 1
  {
    hide Ahead, Todo;
    var after := threads[id := th];
    forall p | p in Ahead(threads) ensures p in Ahead(after) || p == (id, Todo(th)) {
      IsAhead(threads, p);
      IsAhead(after, p);
    }
    forall p | p in Ahead(after) ensures p in Ahead(threads) && p != (id, Todo(th)) {
      IsAhead(threads, p);
      IsAhead(after, p);
    }
    IsAhead(threads, (id, Todo(th)));
    assert Ahead(threads) == Ahead(after) + {(id, Todo(th))};
  }

  lemma IsAhead(threads: map<nat, Thread>, p: (nat, nat))
    ensures p in Ahead(threads) <==> p.0 in threads && p.1 < Todo(threads[p.0])
  {
  }

  lemma AheadMore(threads: map<nat, Thread>, id: nat, th: Thread)
    requires id !in threads && Todo(th) <= 1
    ensures |Ahead(threads[id := th])| == |Ahead(threads)| + Todo(th)
  {
    if Todo(th) == 1 {
      assert Ahead(threads[id := th]) == Ahead(threads) + {(id, 0)};
    } else {
      assert Ahead(threads[id := th]) == Ahead(threads);
    }
  }

  /** Every step of a goroutine that exists is one step less to take. Once the
      service is closed, a new one has a step to take only if it is a closer. */
  lemma StepCountsDown(s: State, id: nat, a: Action, t: State)
    requires Step(s, id, a, t)
    ensures id in s.threads ==> Remaining(t) == Remaining(s) - 1
    ensures id !in s.threads && s.f.closed ==> Remaining(t) == Remaining(s) + if a.CloseBegins? then 1 else 0
  {
    hide Ahead;
    assert t.threads == s.threads[id := t.threads[id]];
    if id in s.threads {
      AheadChange(s.threads, id, t.threads[id]);
    } else if s.f.closed {
      AheadMore(s.threads, id, t.threads[id]);
    }
  }

  /** How many of the steps `i..n` were taken by goroutines that existed. */
  ghost function Moved(states: seq<State>, log: seq<Event>, i: nat, n: nat): nat
    requires IsRun(states, log) && i <= n <= |log|
  {
    if i == n then 0
    else Moved(states, log, i, n - 1) + if log[n - 1].id in states[n - 1].threads then 1 else 0
  }

  /** How many of them were a further Close that began. */
  function Joined(log: seq<Event>, i: nat, n: nat): nat
    requires i <= n <= |log|
  {
    if i == n then 0 else Joined(log, i, n - 1) + if log[n - 1].action.CloseBegins? then 1 else 0
  }

  lemma {:induction false} MovesAreCounted(states: seq<State>, log: seq<Event>, i: nat, n: nat)
    requires IsRun(states, log) && i <= n <= |log| && states[i].f.closed
    ensures Moved(states, log, i, n) + Remaining(states[n]) == Remaining(states[i]) + Joined(log, i, n)
  {
    hide Remaining, Step;
    if i < n {
      MovesAreCounted(states, log, i, n - 1);
      ClosedStays(states, log, i, n - 1);
      var e := log[n - 1];
      StepOf(states, log, n - 1);
      StepCountsDown(states[n - 1], e.id, e.action, states[n]);
      CloseIsNew(states[n - 1], e.id, e.action, states[n]);
    }
  }

  lemma StepOf(states: seq<State>, log: seq<Event>, n: nat)
    requires IsRun(states, log) && n < |log|
    ensures Step(states[n], log[n].id, log[n].action, states[n + 1])
  {
  }

  lemma CloseIsNew(s: State, id: nat, a: Action, t: State)
    requires Step(s, id, a, t)
    ensures a.CloseBegins? ==> id !in s.threads
  {
  }

  /** Close never deadlocks: a goroutine that exists can take a step exactly as
      long as one of them has not left. */
  lemma SomeoneCanMove(states: seq<State>, log: seq<Event>, n: nat)
    requires IsRun(states, log) && n <= |log|
    ensures Moves(states[n]) <==> exists id :: id in states[n].threads && Todo(states[n].threads[id]) > 0
  {
    var s := states[n];
    if id :| id in s.threads && Todo(s.threads[id]) > 0 {
      var mover := Mover(states, log, n, id);
      MoversStep(s, mover);
    }
    if Moves(s) {
      var mover, a, t :| mover in s.threads && Step(s, mover, a, t);
      assert Todo(s.threads[mover]) > 0;
    }
  }

  /** Every Close returns under any scheduler that goes on moving goroutines
      that exist. From the moment the service is closed there are no more such
      steps than `Remaining` says, one more for every further Close; before that
      number is reached there is always one to take, and when it is reached
      every Close has returned and everyone else has left. */
  lemma EveryCloseReturns(states: seq<State>, log: seq<Event>, i: nat, n: nat)
    requires IsRun(states, log) && i <= n <= |log| && states[i].f.closed
    ensures Moved(states, log, i, n) <= Remaining(states[i]) + Joined(log, i, n)
    ensures Moves(states[n]) <==> Moved(states, log, i, n) < Remaining(states[i]) + Joined(log, i, n)
    ensures !Moves(states[n]) ==> states[n].f.closeDone && forall id :: id in states[n].threads ==>
      states[n].threads[id].Refused? || states[n].threads[id].Left? || states[n].threads[id].Closed?
  {
    MovesAreCounted(states, log, i, n);
    NothingAhead(states[n]);
    SomeoneCanMove(states, log, n);
    if !Moves(states[n]) {
      ClosedStays(states, log, i, n);
      Reachable(states, log, n);
      IdleIsClosed(states[n]);
    }
  }

  lemma IdleIsClosed(s: State)
    requires Inv(s) && s.f.closed && forall id :: id in s.threads ==> Todo(s.threads[id]) == 0
    ensures s.f.closeDone
  {
  }

  lemma Mover(states: seq<State>, log: seq<Event>, n: nat, id: nat) returns (mover: nat)
    requires IsRun(states, log) && n <= |log| && id in states[n].threads
    requires !states[n].threads[id].Refused? && !states[n].threads[id].Left? && !states[n].threads[id].Closed?
    ensures CanMove(states[n], mover)
  {
    Reachable(states, log, n);
    var s := states[n];
    assert Agrees(s, id);
    if s.threads[id].InCall? {
      assert id in Calls(s);
      mover := id;
    } else if IsFirstCloser(s.threads[id]) {
      mover := CloserOrOther(s, id);
    } else if s.threads[id].WaitClose? && !s.f.closeDone {
      mover := CloserOrOther(s, s.closer.value);
    } else {
      mover := id;
    }
  }

  lemma CloserOrOther(s: State, id: nat) returns (mover: nat)
    requires Inv(s) && id in s.threads && IsFirstCloser(s.threads[id])
    ensures CanMove(s, mover)
  {
    assert Agrees(s, id);
    if s.threads[id].WaitRun? && s.threads[id].wait !in s.f.closedRuns {
      mover := s.threads[id].wait;
    } else if s.threads[id].WaitCalls? && s.f.handlers > 0 {
      assert Calls(s) != {};
      mover :| mover in Calls(s);
    } else {
      mover := id;
    }
  }
}
