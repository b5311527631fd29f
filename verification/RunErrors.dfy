/** What Run returns: error trees, worker results, the fence recorder and the shutdown policy (service.go). */
module RunErrors {
  import opened Options

  /** An error tree. `name` is what errors.Is compares with a target at that
      node; a wrapper without a cause is a leaf; a join may hold nil causes. */
  datatype Error =
    | Leaf(name: string)
    | Wrap(name: string, cause: Error)
    | Join(name: string, causes: seq<Option<Error>>)

  const CANCELED := "context canceled"
  const TX_DONE := "sql: transaction has already been committed or rolled back"

  /** errors.Is with a target that may be nil. */
  predicate Is(e: Error, target: Option<string>) {
    target == Some(e.name) ||
    match e
    case Leaf(_) => false
    case Wrap(_, cause) => Is(cause, target)
    case Join(_, causes) => exists i :: 0 <= i < |causes| && causes[i].Some? && Is(causes[i].value, target)
  }

  predicate MatchesAny(e: Error, targets: seq<Option<string>>) {
    exists t :: t in targets && Is(e, t)
  }

  /** isOnlyError: false for nil. */
  predicate IsOnlyError(err: Option<Error>, targets: seq<Option<string>>) {
    err.Some? && IsOnly(err.value, targets)
  }

  predicate IsOnly(e: Error, targets: seq<Option<string>>)
    decreases e
  {
    match e
    case Leaf(_) => MatchesAny(e, targets)
    case Wrap(_, cause) => IsOnly(cause, targets)
    case Join(_, _) => OnlyCauses(e, 0, false, targets)
  }

  /** Its loop over the causes of a join from `i` on; `found` says that a
      non-nil cause has been seen. */
  predicate OnlyCauses(join: Error, i: nat, found: bool, targets: seq<Option<string>>)
    requires join.Join? && i <= |join.causes|
    decreases join, |join.causes| - i
  {
    if i == |join.causes| then found
    else if join.causes[i].None? then OnlyCauses(join, i + 1, found, targets)
    else IsOnly(join.causes[i].value, targets) && OnlyCauses(join, i + 1, true, targets)
  }

  /** isOnlyError of a non-nil error as the source runs it, with its loop over
      the causes of a join. */
  method CheckOnly(e: Error, targets: seq<Option<string>>) returns (only: bool)
    ensures only == IsOnly(e, targets)
    decreases e
  {
    match e {
      case Leaf(_) => return MatchesAny(e, targets);
      case Wrap(_, cause) =>
        only := CheckOnly(cause, targets);
      case Join(_, causes) =>
        var found := false;
        for i := 0 to |causes|
          invariant OnlyCauses(e, 0, false, targets) == OnlyCauses(e, i, found, targets)
        {
          if causes[i].Some? {
            found := true;
            var ok := CheckOnly(causes[i].value, targets);
            if !ok {
              return false;
            }
          }
        }
        only := found;
    }
  }

  /** `leaf` is a leaf of `e`. */
  predicate HasLeaf(e: Error, leaf: Error) {
    match e
    case Leaf(_) => leaf == e
    case Wrap(_, cause) => HasLeaf(cause, leaf)
    case Join(_, causes) => exists i :: 0 <= i < |causes| && causes[i].Some? && HasLeaf(causes[i].value, leaf)
  }

  /** Every join in `e` has a non-nil cause. */
  predicate NoEmptyJoin(e: Error) {
    match e
    case Leaf(_) => true
    case Wrap(_, cause) => NoEmptyJoin(cause)
    case Join(_, causes) =>
      && (exists i :: 0 <= i < |causes| && causes[i].Some?)
      && forall i :: 0 <= i < |causes| && causes[i].Some? ==> NoEmptyJoin(causes[i].value)
  }

  ghost predicate LeavesMatch(e: Error, targets: seq<Option<string>>) {
    forall leaf :: HasLeaf(e, leaf) ==> MatchesAny(leaf, targets)
  }

  lemma {:induction false} OnlyCausesIsAll(join: Error, i: nat, found: bool, targets: seq<Option<string>>)
    requires join.Join? && i <= |join.causes|
    ensures OnlyCauses(join, i, found, targets) <==>
            (found || exists k :: i <= k < |join.causes| && join.causes[k].Some?) &&
            forall k :: i <= k < |join.causes| && join.causes[k].Some? ==> IsOnly(join.causes[k].value, targets)
    decreases |join.causes| - i
  {
    if i < |join.causes| {
      OnlyCausesIsAll(join, i + 1, found || join.causes[i].Some?, targets);
    }
  }

  /** isOnlyError holds exactly when no join is empty and every leaf matches
      some target: different leaves may match different targets, and a match on
      a wrapper alone counts for nothing. */
  lemma {:induction false} IsOnlyMeansLeaves(e: Error, targets: seq<Option<string>>)
    ensures IsOnly(e, targets) <==> NoEmptyJoin(e) && LeavesMatch(e, targets)
  {
    match e
    case Leaf(_) =>
      assert HasLeaf(e, e);
    case Wrap(_, cause) =>
      IsOnlyMeansLeaves(cause, targets);
      assert forall leaf :: HasLeaf(e, leaf) <==> HasLeaf(cause, leaf);
    case Join(_, causes) =>
      OnlyCausesIsAll(e, 0, false, targets);
      forall k | 0 <= k < |causes| && causes[k].Some?
        ensures IsOnly(causes[k].value, targets) <==>
          NoEmptyJoin(causes[k].value) && LeavesMatch(causes[k].value, targets)
      {
        IsOnlyMeansLeaves(causes[k].value, targets);
      }
      JoinLeaves(e, targets);
  }

  lemma JoinLeaves(e: Error, targets: seq<Option<string>>)
    requires e.Join?
    ensures LeavesMatch(e, targets) <==>
            forall k :: 0 <= k < |e.causes| && e.causes[k].Some? ==> LeavesMatch(e.causes[k].value, targets)
  {
    if LeavesMatch(e, targets) {
      forall k, leaf | 0 <= k < |e.causes| && e.causes[k].Some? && HasLeaf(e.causes[k].value, leaf)
        ensures MatchesAny(leaf, targets)
      {
        assert HasLeaf(e, leaf);
      }
    }
  }

  // ---------------------------------------------------------------------
  // Worker results
  // ---------------------------------------------------------------------

  /** namedWorker.result; `terminal` is the run context's error. */
  function WorkerResult(name: string, err: Option<Error>, terminal: Option<string>): Option<Error> {
    if err.None? || (Is(err.value, terminal) && IsOnly(err.value, [terminal, Some(TX_DONE)])) then None
    else Some(Wrap("kata: " + name + " worker", err.value))
  }

  lemma WorkerResultNil(name: string, err: Option<Error>, terminal: Option<string>)
    ensures WorkerResult(name, err, terminal).None? <==>
            err.None? ||
            (terminal.Some? && Is(err.value, terminal) && NoEmptyJoin(err.value) &&
             forall leaf :: HasLeaf(err.value, leaf) ==> leaf.name == terminal.value || leaf.name == TX_DONE)
    ensures var r := WorkerResult(name, err, terminal);
      r.Some? ==> forall leaf :: HasLeaf(r.value, leaf) <==> HasLeaf(err.value, leaf)
  {
    if err.Some? {
      IsOnlyMeansLeaves(err.value, [terminal, Some(TX_DONE)]);
      forall leaf | HasLeaf(err.value, leaf)
        ensures leaf.Leaf? && (MatchesAny(leaf, [terminal, Some(TX_DONE)]) <==>
          Some(leaf.name) == terminal || leaf.name == TX_DONE)
      {
        LeavesAreLeaves(err.value, leaf);
        assert terminal in [terminal, Some(TX_DONE)] && Some(TX_DONE) in [terminal, Some(TX_DONE)];
      }
      if terminal.None? {
        NothingIsNil(err.value);
      }
    }
  }

  lemma {:induction false} LeavesAreLeaves(e: Error, leaf: Error)
    requires HasLeaf(e, leaf)
    ensures leaf.Leaf?
  {
    match e
    case Leaf(_) =>
    case Wrap(_, cause) => LeavesAreLeaves(cause, leaf);
    case Join(_, causes) =>
      var i :| 0 <= i < |causes| && causes[i].Some? && HasLeaf(causes[i].value, leaf);
      LeavesAreLeaves(causes[i].value, leaf);
  }

  lemma {:induction false} NothingIsNil(e: Error)
    ensures !Is(e, None)
  {
    match e
    case Leaf(_) =>
    case Wrap(_, cause) => NothingIsNil(cause);
    case Join(_, causes) =>
      forall i | 0 <= i < |causes| && causes[i].Some? ensures !Is(causes[i].value, None) {
        NothingIsNil(causes[i].value);
      }
  }

  // ---------------------------------------------------------------------
  // The fence recorder
  // ---------------------------------------------------------------------

  predicate IsCancellationOnly(e: Error) {
    IsOnly(e, [Some(CANCELED)])
  }

  /** What has been done to a recorder, newest last. */
  datatype History = Fresh | Recorded(past: History, err: Option<Error>) | Unwound(past: History)

  predicate Unwinding(h: History) {
    match h
    case Fresh => false
    case Recorded(past, _) => Unwinding(past)
    case Unwound(_) => true
  }

  /** The newest entry of `h` counts: an error that is not both
      cancellation-only and recorded after unwinding began. */
  predicate Counts(h: History) {
    h.Recorded? && h.err.Some? && !(Unwinding(h.past) && IsCancellationOnly(h.err.value))
  }

  /** The first entry that counts. */
  function FirstCounted(h: History): Option<Error> {
    match h
    case Fresh => None
    case Unwound(past) => FirstCounted(past)
    case Recorded(past, err) =>
      if FirstCounted(past).Some? then FirstCounted(past) else if Counts(h) then err else None
  }

  predicate Within(part: History, h: History) {
    part == h || (!h.Fresh? && Within(part, h.past))
  }

  /** FirstCounted is what its name says: some entry that counts holds it, and
      no earlier entry counts. */
  lemma {:induction false} FirstCountedIsFirst(h: History)
    ensures FirstCounted(h).Some? ==>
              exists part :: Within(part, h) && Counts(part) && part.err == FirstCounted(h) &&
                             forall earlier :: Within(earlier, part.past) ==> !Counts(earlier)
    ensures FirstCounted(h).None? ==> forall part :: Within(part, h) ==> !Counts(part)
  {
    if !h.Fresh? {
      FirstCountedIsFirst(h.past);
      if FirstCounted(h.past).Some? {
        var part :| Within(part, h.past) && Counts(part) && part.err == FirstCounted(h.past) &&
                    forall earlier :: Within(earlier, part.past) ==> !Counts(earlier);
        assert Within(part, h);
      } else if FirstCounted(h).Some? {
        assert Within(h, h);
      }
    }
  }

  /** Once it holds an error the recorder never changes. */
  lemma {:induction false} FirstCountedIsStable(part: History, h: History)
    requires Within(part, h) && FirstCounted(part).Some?
    ensures FirstCounted(h) == FirstCounted(part)
  {
    if part != h {
      FirstCountedIsStable(part, h.past);
    }
  }

  class FenceRecorder {
    var err: Option<Error>
    var unwinding: bool
    var canceled: bool
    ghost var history: History

    ghost predicate Valid()
      reads this
    {
      err == FirstCounted(history) && unwinding == Unwinding(history) && (history.Unwound? ==> canceled)
    }

    constructor ()
      ensures Valid() && history == Fresh && !canceled
    {
      err, unwinding, canceled, history := None, false, false, Fresh;
    }

    method Record(e: Option<Error>) returns (r: Option<Error>)
      requires Valid()
      modifies this
      ensures Valid() && history == Recorded(old(history), e) && r == e
      ensures canceled == (old(canceled) || e.Some?)
    {
      history := Recorded(history, e);
      r := e;
      if e.None? {
        return;
      }
      var cancellationOnly := IsCancellationOnly(e.value);
      if err.None? && (!unwinding || !cancellationOnly) {
        err := e;
      }
      canceled := true;
    }

    method BeginUnwind()
      requires Valid()
      modifies this
      ensures Valid() && history == Unwound(old(history)) && canceled
    {
      history := Unwound(history);
      unwinding := true;
      canceled := true;
    }

    method First() returns (r: Option<Error>)
      requires Valid()
      ensures r == FirstCounted(history)
    {
      r := err;
    }
  }

  // ---------------------------------------------------------------------
  // What Run returns
  // ---------------------------------------------------------------------

  datatype Reason = ContextDone | FenceFailure | WorkerExit

  datatype Stop = Stop(reason: Reason, err: Option<Error>)

  /** errors.Join: nil when every argument is. */
  function JoinAll(errs: seq<Option<Error>>): Option<Error> {
    if exists i :: 0 <= i < |errs| && errs[i].Some? then Some(Join("join", errs)) else None
  }

  /** runResult. */
  function RunResult(stop: Stop, workers: seq<Option<Error>>, callerStop: Option<string>): Option<Error> {
    if stop.reason == FenceFailure && !IsOnlyError(stop.err, [callerStop]) then
      Some(if stop.err.Some? then Wrap("kata: worker transaction fence", stop.err.value)
        else Leaf("kata: worker transaction fence"))
    else JoinAll(workers)
  }

  /** The policy: Run returns nil exactly when every worker result is nil and a
      fence failure, if that is why it stopped, consists of nothing but the
      caller's own terminal error. */
  lemma RunResultNil(stop: Stop, workers: seq<Option<Error>>, callerStop: Option<string>)
    ensures RunResult(stop, workers, callerStop).None? <==>
            (forall i :: 0 <= i < |workers| ==> workers[i].None?) &&
            (stop.reason == FenceFailure ==>
               stop.err.Some? && callerStop.Some? && NoEmptyJoin(stop.err.value) &&
               forall leaf :: HasLeaf(stop.err.value, leaf) ==> leaf.name == callerStop.value)
  {
    if stop.err.Some? {
      IsOnlyMeansLeaves(stop.err.value, [callerStop]);
      forall leaf | HasLeaf(stop.err.value, leaf)
        ensures leaf.Leaf? && (MatchesAny(leaf, [callerStop]) <==> Some(leaf.name) == callerStop)
      {
        LeavesAreLeaves(stop.err.value, leaf);
        assert callerStop in [callerStop];
      }
      if callerStop.None? && IsOnly(stop.err.value, [callerStop]) {
        SomeLeaf(stop.err.value);
      }
    }
  }

  /** What Run returns names every cause: the leaves are those of the fence
      failure that ended the run, or else those of all worker results. */
  lemma RunResultLeaves(stop: Stop, workers: seq<Option<Error>>, callerStop: Option<string>, leaf: Error)
    requires RunResult(stop, workers, callerStop).Some?
    requires stop.reason == FenceFailure ==> stop.err.Some?
    ensures var fenced := stop.reason == FenceFailure && !IsOnlyError(stop.err, [callerStop]);
      HasLeaf(RunResult(stop, workers, callerStop).value, leaf) <==>
        if fenced then HasLeaf(stop.err.value, leaf)
        else exists i :: 0 <= i < |workers| && workers[i].Some? && HasLeaf(workers[i].value, leaf)
  {
    hide IsOnly;
  }

  lemma {:induction false} SomeLeaf(e: Error)
    requires NoEmptyJoin(e)
    ensures exists leaf :: HasLeaf(e, leaf)
  {
    match e
    case Leaf(_) => assert HasLeaf(e, e);
    case Wrap(_, cause) =>
      SomeLeaf(cause);
      var leaf :| HasLeaf(cause, leaf);
      assert HasLeaf(e, leaf);
    case Join(_, causes) =>
      var i :| 0 <= i < |causes| && causes[i].Some?;
      SomeLeaf(causes[i].value);
      var leaf :| HasLeaf(causes[i].value, leaf);
      assert HasLeaf(e, leaf);
  }

  /** The end of Run: a recorded fence error replaces the stop that the select
      saw, because a fence rejection cancels the run. */
  function Conclude(seen: Stop, recorder: History, workers: seq<Option<Error>>,
      callerStop: Option<string>): Option<Error>
  {
    var stop := if FirstCounted(recorder).Some? then Stop(FenceFailure, FirstCounted(recorder)) else seen;
    RunResult(stop, workers, callerStop)
  }

  /** A run whose caller had not stopped it never hides a fence rejection, and a
      worker's own failure always reaches the caller. */
  lemma FailuresReachTheCaller(seen: Stop, recorder: History, workers: seq<Option<Error>>, callerStop: Option<string>)
    requires seen.reason != FenceFailure
    ensures FirstCounted(recorder).Some? && callerStop.None? ==> Conclude(seen, recorder, workers, callerStop).Some?
    ensures (exists i :: 0 <= i < |workers| && workers[i].Some?) ==> Conclude(seen, recorder, workers, callerStop).Some?
  {
    var stop := if FirstCounted(recorder).Some? then Stop(FenceFailure, FirstCounted(recorder)) else seen;
    RunResultNil(stop, workers, callerStop);
  }
}
