/** Writing instruction files, or putting every one back (cmd/kata/agent_instructions.go, applyInstructionArtifacts). */
module InstructionFiles {
  import opened Options

  datatype File = File(content: string, mode: nat)

  type Files = map<string, File>

  /** A planned file: what it held when planned, and what it is to hold. */
  datatype Artifact = Artifact(path: string, content: string, changed: bool, retainEmpty: bool, before: string,
      existed: bool, mode: nat)

  /** A write can fail without effect, or report an error after publishing. */
  datatype Outcome = Written | Failed | PublishedWithError

  function At(files: Files, path: string): Option<File> {
    if path in files then Some(files[path]) else None
  }

  /** What writing leaves at the path: an empty file is kept or removed. */
  function Stored(content: string, keepEmpty: bool, mode: nat): Option<File> {
    if content == "" && !keepEmpty then None else Some(File(content, mode))
  }

  function Target(a: Artifact): Option<File> {
    Stored(a.content, a.retainEmpty, a.mode)
  }

  function Preimage(a: Artifact): Option<File> {
    Stored(a.before, a.existed, a.mode)
  }

  function Refusals(outcome: Outcome): nat {
    if outcome.Failed? then 1 else 0
  }

  class Home {
    var files: Files
    /** How many writes had no effect. */
    ghost var refusals: nat
    /** How many reads and writes reported an error. */
    var troubles: nat
    /** How many ever do at most. */
    const limit: nat

    /** writeInstructionArtifact over an atomic file replacement. */
    method Write(path: string, content: string, keepEmpty: bool, mode: nat) returns (outcome: Outcome)
      modifies this
      ensures outcome.Failed? ==> files == old(files)
      ensures refusals == old(refusals) + Refusals(outcome)
      ensures troubles == old(troubles) + if outcome.Written? then 0 else 1
      ensures outcome.Written? || troubles <= limit
      ensures !outcome.Failed? ==> At(files, path) == Stored(content, keepEmpty, mode)
      ensures forall p :: p != path ==> At(files, p) == At(old(files), p)
    {
      var refused: bool, late: bool := *, *;
      if refused && troubles < limit {
        refusals, troubles := refusals + 1, troubles + 1;
        return Failed;
      }
      if content == "" && !keepEmpty {
        files := files - {path};
        return Written;
      }
      files := files[path := File(content, mode)];
      if late && troubles < limit {
        troubles := troubles + 1;
        return PublishedWithError;
      }
      return Written;
    }

    /** Reading an artifact once more and comparing it with its preimage. */
    method Check(a: Artifact) returns (same: bool)
      modifies this`troubles
      ensures troubles >= old(troubles) && (same <==> troubles == old(troubles) && Fresh(a))
      ensures troubles <= limit || troubles == old(troubles)
    {
      var unreadable: bool := *;
      if unreadable && troubles < limit {
        troubles := troubles + 1;
        return false;
      }
      return Fresh(a);
    }

    /** The preimage check of one artifact. */
    predicate Fresh(a: Artifact)
      reads this
    {
      a.existed == (a.path in files) && (a.existed ==> files[a.path].content == a.before)
    }

    /** applyInstructionArtifactsWithWriter; `cause` is the write that made
        it give up, if one did. It succeeds exactly if every file is as planned
        and nothing reports an error. */
    method Apply(artifacts: seq<Artifact>) returns (failed: bool, cause: Outcome)
      requires Plans(artifacts)
      modifies this
      ensures !failed <==> troubles == old(troubles) && forall a :: a in artifacts ==> old(Fresh(a))
      ensures !failed ==> forall a :: a in artifacts && a.changed ==> At(files, a.path) == Target(a)
      ensures refusals >= old(refusals) + Refusals(cause) && (troubles <= limit || troubles == old(troubles))
      ensures refusals - old(refusals) <= troubles - old(troubles) - if cause.PublishedWithError? then 1 else 0
      ensures failed && refusals == old(refusals) + Refusals(cause) && (forall a :: a in artifacts ==> old(ModeKept(a)))
        ==> files == old(files)
      ensures Elsewhere(old(files), files, artifacts)
      ensures forall a :: a in artifacts && a.changed ==>
        At(files, a.path) in {At(old(files), a.path), Target(a), Preimage(a)}
    {
      cause := Written;
      for i := 0 to |artifacts|
        invariant files == old(files) && refusals == old(refusals) && troubles == old(troubles)
        invariant forall j :: 0 <= j < i ==> old(Fresh(artifacts[j]))
      {
        var same := Check(artifacts[i]);
        if !same {
          assert artifacts[i] in artifacts && Fresh(artifacts[i]) == old(Fresh(artifacts[i]));
          return true, Written;
        }
      }
      for i := 0 to |artifacts|
        invariant refusals == old(refusals) && troubles == old(troubles)
        invariant Elsewhere(old(files), files, artifacts)
        invariant Progress(old(files), files, artifacts, i)
      {
        var a := artifacts[i];
        if a.changed {
          cause := Write(a.path, a.content, a.retainEmpty, a.mode);
          if !cause.Written? {
            var rollbackEnd := if cause.PublishedWithError? then i + 1 else i;
            assert Progress(old(files), files, artifacts, rollbackEnd);
            ghost var before := refusals;
            Rollback(artifacts, rollbackEnd, old(files));
            if refusals == before && forall b :: b in artifacts ==> old(ModeKept(b)) {
              AllBack(old(files), files, artifacts);
            }
            return true, cause;
          }
        }
      }
      return false, Written;
    }

    /** The mode has not changed since planning either. */
    predicate ModeKept(a: Artifact)
      reads this
    {
      a.path in files ==> files[a.path].mode == a.mode
    }

    /** Undo the first `n` artifacts, going on after a failed write. */
    method Rollback(artifacts: seq<Artifact>, n: nat, ghost original: Files)
      requires Plans(artifacts) && n <= |artifacts|
      requires Elsewhere(original, files, artifacts) && Progress(original, files, artifacts, n)
      modifies this
      ensures 0 <= refusals - old(refusals) <= troubles - old(troubles)
      ensures troubles <= limit || troubles == old(troubles)
      ensures Elsewhere(original, files, artifacts)
      ensures refusals == old(refusals) ==> Undone(original, files, artifacts, n, |artifacts|)
      ensures forall a :: a in artifacts && a.changed ==>
        At(files, a.path) in {At(original, a.path), Target(a), Preimage(a)}
    {
      for i := 0 to n
        invariant 0 <= refusals - old(refusals) <= troubles - old(troubles)
        invariant troubles <= limit || troubles == old(troubles)
        invariant Elsewhere(original, files, artifacts)
        invariant refusals == old(refusals) ==> Undone(original, files, artifacts, n, i)
        invariant forall j :: 0 <= j < |artifacts| && artifacts[j].changed ==>
          At(files, artifacts[j].path) in
            {At(original, artifacts[j].path), Target(artifacts[j]), Preimage(artifacts[j])}
      {
        var previous := artifacts[i];
        if previous.changed {
          var outcome := Write(previous.path, previous.before, previous.existed, previous.mode);
        }
      }
    }
  }

  /** Distinct paths; a missing file was read as empty. */
  predicate Plans(artifacts: seq<Artifact>) {
    && (forall i, j :: 0 <= i < j < |artifacts| ==> artifacts[i].path != artifacts[j].path)
    && (forall a :: a in artifacts && !a.existed ==> a.before == "")
  }

  /** Only paths of changed artifacts are touched. */
  ghost predicate Elsewhere(original: Files, files: Files, artifacts: seq<Artifact>) {
    forall p :: (forall a :: a in artifacts && a.path == p ==> !a.changed) ==> At(files, p) == At(original, p)
  }

  /** The first `n` artifacts are in place and the others still as they were. */
  ghost predicate Progress(original: Files, files: Files, artifacts: seq<Artifact>, n: nat) {
    forall j :: 0 <= j < |artifacts| && artifacts[j].changed ==>
      At(files, artifacts[j].path) == if j < n then Target(artifacts[j]) else At(original, artifacts[j].path)
  }

  /** Of the first `n` artifacts, those before `i` hold their preimage again. */
  ghost predicate Undone(original: Files, files: Files, artifacts: seq<Artifact>, n: nat, i: nat) {
    forall j :: 0 <= j < |artifacts| && artifacts[j].changed ==>
      At(files, artifacts[j].path) ==
        if j >= n then At(original, artifacts[j].path)
        else if j < i then Preimage(artifacts[j]) else Target(artifacts[j])
  }

  lemma AllBack(original: Files, files: Files, artifacts: seq<Artifact>)
    requires Plans(artifacts) && Elsewhere(original, files, artifacts)
    requires forall a :: a in artifacts && a.changed ==> At(files, a.path) == At(original, a.path)
    ensures files == original
  {
    forall p ensures At(files, p) == At(original, p) {
      if a :| a in artifacts && a.path == p && a.changed {
      }
    }
    assert forall p :: p in files <==> At(files, p).Some?;
    assert forall p :: p in original <==> At(original, p).Some?;
  }
}
