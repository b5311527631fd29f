/** Publishing a bundle of hook files with rollback (cmd/kata/agent_hooks_native.go). */
module Publication {
  // The disk is a map from resolved paths to contents and permission bits.
  // Between any two steps any other process may rewrite it arbitrarily, and any
  // read, rename or removal may fail; a failed operation has no effect. The
  // check of one file and its replacement are one step, as the source concedes
  // that it cannot close that window.

  datatype File = File(bytes: string, mode: nat)

  type Files = map<string, File>

  /** One artifact of a bundle. A change whose content equals its original is a
      read-only guard. */
  datatype Change = Change(path: string, original: string, content: string, originalExists: bool, remove: bool)

  /** The preimage recorded at planning time is what the disk holds. */
  predicate Matches(f: Files, c: Change) {
    if c.path in f then c.originalExists && f[c.path].bytes == c.original
    else !c.originalExists && c.original == ""
  }

  predicate NeedsWork(c: Change) {
    !((!c.remove && c.originalExists && c.content == c.original) || (c.remove && !c.originalExists))
  }

  /** The path holds what publishing `c` leaves there. */
  predicate HoldsPublished(f: Files, c: Change) {
    if c.path in f then !c.remove && f[c.path].bytes == c.content else c.remove
  }

  /** The rollback's own test for someone else's edit. */
  predicate ChangedSince(f: Files, c: Change)
    ensures ChangedSince(f, c) <==> !HoldsPublished(f, c)
  {
    (c.path in f) == c.remove || (!c.remove && f[c.path].bytes != c.content)
  }

  /** The path is back to the preimage of `c`, with permission bits `mode`. */
  predicate HoldsPreimage(f: Files, c: Change, mode: nat) {
    if c.originalExists then c.path in f && f[c.path] == File(c.original, mode) else c.path !in f
  }

  function Published(f: Files, c: Change, mode: nat): Files {
    if c.remove then f - {c.path} else f[c.path := File(c.content, mode)]
  }

  function Restored(f: Files, c: Change, mode: nat): Files {
    if c.originalExists then f[c.path := File(c.original, mode)] else f - {c.path}
  }

  // ---------------------------------------------------------------------
  // What happens to the disk, step by step
  // ---------------------------------------------------------------------

  datatype Event =
    | Outside(before: Files, after: Files)
    | Checked(c: Change, state: Files)
    | ModeRead(c: Change, mode: nat, state: Files)
    | Put(c: Change, mode: nat, before: Files, after: Files)
    | PutBack(c: Change, mode: nat, before: Files, after: Files)
    | Retained(c: Change, failed: bool, state: Files)
  {
    function Before(): Files {
      if Outside? || Put? || PutBack? then before else state
    }
    function After(): Files {
      if Outside? || Put? || PutBack? then after else state
    }
  }

  const PRIVATE_MODE: nat := 0x180 // 0600

  /** What each recorded step is allowed to be. */
  predicate Legal(e: Event) {
    match e
    case Outside(_, _) => true
    case Checked(c, state) => Matches(state, c)
    case ModeRead(c, mode, state) =>
      if c.originalExists then c.path in state && state[c.path].mode == mode else mode == PRIVATE_MODE
    case Put(c, mode, before, after) => Matches(before, c) && after == Published(before, c, mode)
    case PutBack(c, mode, before, after) => HoldsPublished(before, c) && after == Restored(before, c, mode)
    case Retained(c, failed, state) => failed || !HoldsPublished(state, c)
  }

  ghost predicate AllLegal(log: seq<Event>) {
    forall e :: e in log ==> Legal(e)
  }

  /** `log` leads from disk contents `f` to `g`. */
  ghost predicate Chain(log: seq<Event>, f: Files, g: Files) {
    if log == [] then f == g
    else Chain(log[..|log| - 1], f, log[|log| - 1].Before()) && log[|log| - 1].After() == g
  }

  /** The steps of this publication, without the outside writes. */
  ghost function Steps(log: seq<Event>): seq<Event> {
    if log == [] then []
    else if log[|log| - 1].Outside? then Steps(log[..|log| - 1])
    else Steps(log[..|log| - 1]) + [log[|log| - 1]]
  }

  ghost predicate ReadOnly(log: seq<Event>) {
    forall e :: e in log ==> e.Outside? || e.Checked? || e.ModeRead?
  }

  /** No other process changed the disk. */
  ghost predicate Quiet(log: seq<Event>) {
    forall e :: e in log && e.Outside? ==> e.before == e.after
  }

  lemma ChainOne(log: seq<Event>, e: Event, f: Files)
    requires Chain(log, f, e.Before())
    ensures Chain(log + [e], f, e.After())
  {
    assert (log + [e])[..|log|] == log;
  }

  lemma StepsOne(log: seq<Event>, e: Event)
    ensures Steps(log + [e]) == Steps(log) + (if e.Outside? then [] else [e])
  {
    assert (log + [e])[..|log|] == log;
  }

  // ---------------------------------------------------------------------
  // The disk
  // ---------------------------------------------------------------------

  /** How many paths were retained because an operation failed. */
  ghost function Failures(log: seq<Event>): nat {
    if log == [] then 0
    else Failures(log[..|log| - 1]) + if log[|log| - 1].Retained? && log[|log| - 1].failed then 1 else 0
  }

  lemma {:induction false} FailuresAppend(x: seq<Event>, y: seq<Event>)
    ensures Failures(x + y) == Failures(x) + Failures(y)
  {
    if y == [] {
      assert x + y == x;
    } else {
      var n := |y| - 1;
      assert (x + y)[..|x| + n] == x + y[..n] && (x + y)[|x| + n] == y[n];
      FailuresAppend(x, y[..n]);
    }
  }

  lemma FailuresOfTwo(a: Event, b: Event)
    ensures Failures([a, b]) ==
      (if a.Retained? && a.failed then 1 else 0) + if b.Retained? && b.failed then 1 else 0
  {
    OneFailure(a);
    OneFailure(b);
    FailuresAppend([a], [b]);
    assert [a] + [b] == [a, b];
  }

  lemma OneFailure(e: Event)
    ensures Failures([]) == 0 && Failures([e]) == if e.Retained? && e.failed then 1 else 0
  {
    assert [e][..0] == [];
  }

  lemma {:induction false} NoFailures(log: seq<Event>)
    ensures Failures(log) == 0 <==> forall e :: e in log && e.Retained? ==> !e.failed
  {
    if log != [] {
      var n := |log| - 1;
      assert log == log[..n] + [log[n]];
      NoFailures(log[..n]);
    }
  }

  lemma TwoNoted(before: seq<Event>, noted: seq<Event>, after: seq<Event>, added: seq<Event>)
    requires |added| == 2 && noted == before + [added[0]] && after == noted + [added[1]]
    ensures after == before + added
  {
    assert added == [added[0]] + [added[1]];
  }

  class Disk {
    var files: Files
    ghost var start: Files
    ghost var log: seq<Event>
    /** How many operations have failed of themselves. */
    var refusals: nat
    /** How many ever do at most. */
    const limit: nat

    ghost predicate Valid()
      reads this`files, this`start, this`log
    {
      AllLegal(log) && Chain(log, start, files)
    }

    /** A step for `c` goes wrong only if an operation failed since or `c` is not
        what was found. */
    ghost predicate Accounted(ok: bool, found: Files, c: Change, before: nat)
      reads this`refusals
    {
      if ok then refusals == before else refusals == before + 1 || (refusals == before && !Matches(found, c))
    }

    /** The same for a pass over several changes. */
    ghost predicate AllAccounted(ok: bool, cs: seq<Change>, before: nat)
      reads this`refusals, this`files
    {
      if ok then refusals == before
      else refusals == before + 1 || (refusals == before && exists c :: c in cs && !Matches(files, c))
    }

    constructor (initial: Files, limit: nat)
      ensures Valid() && files == start == initial && log == [] && this.limit == limit && refusals == 0
    {
      files, start, log, refusals, this.limit := initial, initial, [], 0, limit;
    }

    /** Any other process does anything. */
    method Interfere()
      requires Valid()
      modifies this`files, this`log
      ensures Valid() && log == old(log) + [Outside(old(files), files)]
    {
      var next: Files := *;
      ChainOne(log, Outside(files, next), start);
      log := log + [Outside(files, next)];
      files := next;
    }

    ghost method Note(e: Event)
      requires AllLegal(log) && Chain(log, start, e.Before())
      requires Legal(e) && e.After() == files
      modifies this`log
      ensures Valid() && log == old(log) + [e]
    {
      ChainOne(log, e, start);
      log := log + [e];
    }

    /** An operation that may fail for no reason of ours. */
    method Attempt() returns (works: bool)
      modifies this`refusals
      ensures refusals == old(refusals) + (if works then 0 else 1) && (works || refusals <= limit)
    {
      works := *;
      works := works || refusals >= limit;
      if !works {
        refusals := refusals + 1;
      }
    }

    /** verifyNativeAgentHookChange: the read may fail, and a mismatch is an
        error. */
    method Verify(c: Change) returns (ok: bool, ghost added: seq<Event>)
      requires Valid()
      modifies this`files, this`log, this`refusals
      ensures refusals <= limit || refusals == old(refusals)
      ensures Valid() && log == old(log) + added
      ensures Accounted(ok, files, c, old(refusals))
      ensures added == [Outside(old(files), files)] + if ok then [Checked(c, files)] else []
    {
      hide Chain, AllLegal;
      Interfere();
      ghost var noted := log;
      added := [Outside(old(files), files)];
      var readable := Attempt();
      ok := readable && Matches(files, c);
      if ok {
        Note(Checked(c, files));
        added := added + [Checked(c, files)];
        TwoNoted(old(log), noted, log, added);
      }
    }

    /** The permission bits a replacement of `c` gets. */
    method ReadMode(c: Change) returns (ok: bool, mode: nat, ghost added: seq<Event>)
      requires Valid()
      modifies this`files, this`log, this`refusals
      ensures refusals <= limit || refusals == old(refusals)
      ensures Valid() && log == old(log) + added
      ensures Accounted(ok, files, c, old(refusals))
      ensures added == [Outside(old(files), files)] + if ok then [ModeRead(c, mode, files)] else []
    {
      hide Chain, AllLegal;
      Interfere();
      ghost var noted := log;
      added := [Outside(old(files), files)];
      mode := PRIVATE_MODE;
      ok := true;
      if c.originalExists {
        var readable := Attempt();
        ok := readable && c.path in files;
        if ok {
          mode := files[c.path].mode;
        }
      }
      if ok {
        Note(ModeRead(c, mode, files));
        added := added + [ModeRead(c, mode, files)];
        TwoNoted(old(log), noted, log, added);
      }
    }

    /** The last check of one file together with its removal or with the rename
        of its staged replacement. */
    method VerifyAndPut(c: Change, staged: Staged, ghost mode: nat) returns (ok: bool, ghost added: seq<Event>)
      requires Valid()
      requires !c.remove ==> staged == Temp(c.content, mode)
      modifies this`files, this`log, this`refusals
      ensures refusals <= limit || refusals == old(refusals)
      ensures Valid() && log == old(log) + added && added != [] && added[0].Outside?
      ensures Accounted(ok, added[0].after, c, old(refusals)) && (!ok ==> files == added[0].after)
      ensures added[1..] == if ok then [Put(c, mode, added[0].after, files)] else []
    {
      hide Chain, AllLegal, Published;
      Interfere();
      ghost var mid, noted := files, log;
      added := [Outside(old(files), mid)];
      var works := Attempt(); // of reading as of replacing
      ok := works && Matches(files, c);
      if ok {
        PutFile(c, staged, mode);
        Note(Put(c, mode, mid, files));
        added := [Outside(old(files), mid), Put(c, mode, mid, files)];
        TwoNoted(old(log), noted, log, added);
      }
    }

    method PutFile(c: Change, staged: Staged, ghost mode: nat)
      requires !c.remove ==> staged == Temp(c.content, mode)
      modifies this`files
      ensures files == Published(old(files), c, mode)
    {
      if c.remove {
        files := files - {c.path};
      } else {
        files := files[c.path := File(staged.bytes, staged.mode)];
      }
    }

    /** One step of the rollback: leave a path alone unless it holds what this
        publication put there; otherwise try to put its preimage back. */
    method TryPutBack(c: Change, mode: nat) returns (ok: bool, ghost added: seq<Event>)
      requires Valid()
      modifies this`files, this`log, this`refusals
      ensures refusals <= limit || refusals == old(refusals)
      ensures Valid() && log == old(log) + added && |added| == 2 && added[0].Outside?
      ensures if ok then added[1] == PutBack(c, mode, added[0].after, files)
              else added[1] == Retained(c, refusals > old(refusals), added[0].after) && files == added[0].after
      ensures refusals == old(refusals) + Failures(added)
      ensures !ok ==> refusals > old(refusals) || !HoldsPublished(added[0].after, c)
    {
      hide Chain, AllLegal, Restored;
      Interfere();
      ghost var mid, noted := files, log;
      var readable := Attempt();
      var conflict := !readable || ChangedSince(files, c);
      ok := !conflict;
      if ok {
        ok := Attempt();
      }
      if ok {
        PutBackFile(c, mode);
        Note(PutBack(c, mode, mid, files));
        added := [Outside(old(files), mid), PutBack(c, mode, mid, files)];
      } else {
        Note(Retained(c, refusals > old(refusals), files));
        added := [Outside(old(files), mid), Retained(c, refusals > old(refusals), files)];
      }
      TwoNoted(old(log), noted, log, added);
      FailuresOfTwo(added[0], added[1]);
    }

    method PutBackFile(c: Change, mode: nat)
      modifies this`files
      ensures files == Restored(old(files), c, mode)
    {
      if !c.originalExists {
        files := files - {c.path};
      } else {
        files := files[c.path := File(c.original, mode)];
      }
    }
  }

  /** A staged replacement, blank when there is none or it has been renamed. */
  datatype Staged = Blank | Temp(bytes: string, mode: nat)

  // ---------------------------------------------------------------------
  // Publishing
  // ---------------------------------------------------------------------

  /** The changes of a plan that are not mere guards, in order. */
  function Work(plan: seq<Change>): seq<Change> {
    if plan == [] then []
    else Work(plan[..|plan| - 1]) + (if NeedsWork(plan[|plan| - 1]) then [plan[|plan| - 1]] else [])
  }

  /** A complete pass of checks over `cs`. */
  ghost predicate CheckedAll(log: seq<Event>, cs: seq<Change>) {
    |Steps(log)| == |cs| && forall k :: 0 <= k < |cs| ==> Steps(log)[k].Checked? && Steps(log)[k].c == cs[k]
  }

  /** Exactly the given changes have been put, in order, with these modes. */
  ghost predicate PutAll(steps: seq<Event>, cs: seq<Change>, modes: seq<nat>) {
    |steps| == |cs| <= |modes| &&
    forall k :: 0 <= k < |cs| ==> steps[k].Put? && steps[k].c == cs[k] && steps[k].mode == modes[k]
  }

  /** The rollback came to `c`: it put the preimage back or retained it. */
  predicate Visited(e: Event, c: Change, mode: nat) {
    (e.PutBack? && e.c == c && e.mode == mode) || (e.Retained? && e.c == c)
  }

  /** Every change has been visited, in reverse order. */
  ghost predicate RolledBack(steps: seq<Event>, cs: seq<Change>, modes: seq<nat>) {
    |steps| == |cs| <= |modes| &&
    forall k :: 0 <= k < |cs| ==> Visited(steps[|cs| - 1 - k], cs[k], modes[k])
  }

  lemma {:induction false} StepsAppend(x: seq<Event>, y: seq<Event>)
    ensures Steps(x + y) == Steps(x) + Steps(y)
  {
    if y == [] {
      assert x + y == x;
    } else {
      var n := |y| - 1;
      assert x + y == x + y[..n] + [y[n]];
      StepsAppend(x, y[..n]);
      StepsOne(x + y[..n], y[n]);
    }
  }

  /** What one operation adds: an outside write and perhaps a step of ours. */
  lemma StepsAdded(log: seq<Event>, added: seq<Event>)
    requires 1 <= |added| <= 2 && added[0].Outside? && (|added| == 2 ==> !added[1].Outside?)
    ensures Steps(log + added) == Steps(log) + added[1..]
  {
    StepsAppend(log, added);
    StepsOne([], added[0]);
    assert added == [added[0]] + added[1..];
    if |added| == 2 {
      StepsOne([added[0]], added[1]);
      assert added == [added[0]] + [added[1]];
    }
  }

  ghost predicate Distinct(cs: seq<Change>) {
    forall i, j :: 0 <= i < j < |cs| ==> cs[i].path != cs[j].path
  }

  /** The planning loop: refuse duplicate paths, check every preimage, keep the
      changes that need work. */
  method Collect(disk: Disk, plan: seq<Change>)
    returns (ok: bool, preimages: seq<Change>, changes: seq<Change>, ghost seg: seq<Event>)
    requires disk.Valid()
    modifies disk`files, disk`log, disk`refusals
    ensures disk.refusals <= disk.limit || disk.refusals == old(disk.refusals)
    ensures disk.Valid() && disk.log == old(disk.log) + seg && ReadOnly(seg)
    ensures ok ==> preimages == plan && changes == Work(plan) && Distinct(plan)
    ensures Distinct(plan) ==> disk.AllAccounted(ok, plan, old(disk.refusals))
    ensures disk.refusals == old(disk.refusals) || (!ok && disk.refusals == old(disk.refusals) + 1)
  {
    hide Disk.Valid, Legal, Chain, AllLegal;
    ok, preimages, changes, seg := true, [], [], [];
    var seen: set<string> := {};
    for i := 0 to |plan|
      invariant disk.Valid() && disk.log == old(disk.log) + seg && ReadOnly(seg)
      invariant disk.refusals == old(disk.refusals)
      invariant ok && preimages == plan[..i] && changes == Work(plan[..i]) && Distinct(plan[..i])
      invariant forall k :: 0 <= k < i ==> plan[k].path in seen
      invariant forall p :: p in seen ==> exists k :: 0 <= k < i && plan[k].path == p
    {
      var c := plan[i];
      if c.path in seen {
        ok := false;
        return;
      }
      seen := seen + {c.path};
      ghost var added;
      ok, added := disk.Verify(c);
      seg := seg + added;
      if !ok {
        return;
      }
      assert plan[..i + 1] == plan[..i] + [c];
      preimages := preimages + [c];
      if NeedsWork(c) {
        changes := changes + [c];
      }
    }
    assert plan[..|plan|] == plan;
  }

  /** One pass of preimage checks. */
  method VerifyAll(disk: Disk, cs: seq<Change>) returns (ok: bool, ghost seg: seq<Event>)
    requires disk.Valid()
    modifies disk`files, disk`log, disk`refusals
    ensures disk.refusals <= disk.limit || disk.refusals == old(disk.refusals)
    ensures disk.Valid() && disk.log == old(disk.log) + seg && ReadOnly(seg)
    ensures ok ==> CheckedAll(seg, cs)
    ensures disk.AllAccounted(ok, cs, old(disk.refusals))
  {
    hide Disk.Valid, Legal, Chain, AllLegal;
    ok, seg := true, [];
    for i := 0 to |cs|
      invariant disk.Valid() && disk.log == old(disk.log) + seg && ReadOnly(seg)
      invariant ok && CheckedAll(seg, cs[..i]) && disk.refusals == old(disk.refusals)
    {
      ghost var added;
      ok, added := disk.Verify(cs[i]);
      StepsAdded(seg, added);
      seg := seg + added;
      if !ok {
        return;
      }
    }
    assert cs[..|cs|] == cs;
  }

  /** The modes in `modes` are what the staging pass `log` read. */
  ghost predicate ModesFrom(log: seq<Event>, cs: seq<Change>, modes: seq<nat>) {
    |cs| <= |modes| && forall k :: 0 <= k < |cs| ==> ModeWasRead(log, cs[k], modes[k])
  }

  ghost predicate ModeWasRead(log: seq<Event>, c: Change, mode: nat) {
    exists e :: e in log && e.ModeRead? && e.c == c && e.mode == mode
  }

  /** Replacement `k` is staged with the content and mode it will get. */
  ghost predicate StagedFor(c: Change, mode: nat, t: Staged) {
    t == if c.remove then Blank else Temp(c.content, mode)
  }

  /** Stage one replacement: recheck the preimage, read the mode, write the
      staging file (a removal has none). */
  method StageOne(disk: Disk, c: Change) returns (ok: bool, temp: Staged, mode: nat, ghost seg: seq<Event>)
    requires disk.Valid()
    modifies disk`files, disk`log, disk`refusals
    ensures disk.refusals <= disk.limit || disk.refusals == old(disk.refusals)
    ensures disk.Valid() && disk.log == old(disk.log) + seg && ReadOnly(seg)
    ensures disk.Accounted(ok, disk.files, c, old(disk.refusals))
    ensures ok ==> StagedFor(c, mode, temp)
    ensures ok ==> ModeWasRead(seg, c, mode)
  {
    temp, mode := Blank, PRIVATE_MODE;
    ok, seg := disk.Verify(c);
    if !ok {
      return;
    }
    ghost var added;
    ok, mode, added := disk.ReadMode(c);
    seg := seg + added;
    if ok {
      assert added[1] in seg;
    }
    if ok && !c.remove {
      ok := disk.Attempt(); // writing the staging file
      temp := Temp(c.content, mode);
    }
  }

  /** The staging loop. */
  method Stage(disk: Disk, changes: seq<Change>, staged: array<Staged>, modes: array<nat>)
    returns (ok: bool, ghost seg: seq<Event>)
    requires disk.Valid() && staged.Length == modes.Length == |changes|
    modifies disk`files, disk`log, disk`refusals, staged, modes
    ensures disk.refusals <= disk.limit || disk.refusals == old(disk.refusals)
    ensures disk.Valid() && disk.log == old(disk.log) + seg && ReadOnly(seg)
    ensures disk.AllAccounted(ok, changes, old(disk.refusals))
    ensures ok ==> ModesFrom(seg, changes, modes[..])
    ensures ok ==> forall k :: 0 <= k < |changes| ==> StagedFor(changes[k], modes[k], staged[k])
  {
    hide Disk.Valid, Legal, Chain, AllLegal;
    ok, seg := true, [];
    for i := 0 to |changes|
      invariant disk.Valid() && disk.log == old(disk.log) + seg && ReadOnly(seg)
      invariant ok && ModesFrom(seg, changes[..i], modes[..]) && disk.refusals == old(disk.refusals)
      invariant forall k :: 0 <= k < i ==> StagedFor(changes[k], modes[k], staged[k])
    {
      ghost var known := modes[..];
      var temp, mode;
      ghost var added;
      ok, temp, mode, added := StageOne(disk, changes[i]);
      staged[i], modes[i] := temp, mode;
      if !ok {
        seg := seg + added;
        return;
      }
      ModesOne(seg, added, changes, known, modes[..], i);
      seg := seg + added;
    }
    assert changes[..|changes|] == changes;
  }

  lemma ModeStillRead(log: seq<Event>, before: seq<Event>, after: seq<Event>, c: Change, mode: nat)
    requires ModeWasRead(log, c, mode)
    ensures ModeWasRead(before + log + after, c, mode)
  {
    var e :| e in log && e.ModeRead? && e.c == c && e.mode == mode;
    assert e in before + log + after;
  }

  lemma ModesOne(log: seq<Event>, added: seq<Event>, cs: seq<Change>, known: seq<nat>, modes: seq<nat>, i: nat)
    requires i < |cs| <= |modes| == |known| && ModesFrom(log, cs[..i], known)
    requires forall k :: 0 <= k < i ==> modes[k] == known[k]
    requires ModeWasRead(added, cs[i], modes[i])
    ensures ModesFrom(log + added, cs[..i + 1], modes)
  {
    assert [] + log + added == log + added + [];
    forall k | 0 <= k < i + 1 ensures ModeWasRead(log + added, cs[..i + 1][k], modes[k]) {
      if k < i {
        ModeStillRead(log, [], added, cs[..i][k], modes[k]);
      } else {
        ModeStillRead(added, log, [], cs[i], modes[i]);
      }
    }
  }

  /** The publishing loop: put the changes one by one and stop at the first
      failure. `staged[k]` is blanked once it has been renamed. */
  method PutChanges(disk: Disk, changes: seq<Change>, staged: array<Staged>, modes: array<nat>)
    returns (published: nat, ok: bool, ghost seg: seq<Event>)
    requires disk.Valid() && staged.Length == modes.Length == |changes|
    requires forall k :: 0 <= k < |changes| ==> StagedFor(changes[k], modes[k], staged[k])
    modifies disk`files, disk`log, disk`refusals, staged
    ensures disk.refusals <= disk.limit || disk.refusals == old(disk.refusals)
    ensures disk.Valid() && disk.log == old(disk.log) + seg
    ensures published <= |changes| && (ok <==> published == |changes|)
    ensures if ok then disk.refusals == old(disk.refusals)
            else disk.Accounted(false, disk.files, changes[published], old(disk.refusals))
    ensures PutAll(Steps(seg), changes[..published], modes[..])
    ensures forall k :: 0 <= k < |changes| ==> staged[k] == if k < published then Blank else old(staged[k])
  {
    hide Disk.Valid, Legal, Chain, AllLegal, Steps, PutAll;
    published, ok, seg := 0, true, [];
    NothingPut(changes, modes[..]);
    for i := 0 to |changes|
      invariant disk.Valid() && disk.log == old(disk.log) + seg
      invariant disk.refusals == old(disk.refusals)
      invariant published == i && ok && PutAll(Steps(seg), changes[..i], modes[..])
      invariant forall k :: 0 <= k < |changes| ==> staged[k] == if k < i then Blank else old(staged[k])
    {
      ghost var added;
      ok, added := disk.VerifyAndPut(changes[i], staged[i], modes[i]);
      StepsAdded(seg, added);
      if !ok {
        assert Steps(seg) + [] == Steps(seg);
        seg := seg + added;
        return;
      }
      PutAllOne(Steps(seg), added[1], changes, modes[..], i);
      seg := seg + added;
      staged[i] := Blank;
      published := published + 1;
    }
  }

  lemma NothingPut(cs: seq<Change>, modes: seq<nat>)
    ensures PutAll(Steps([]), cs[..0], modes)
  {
  }

  lemma PutAllOne(steps: seq<Event>, e: Event, cs: seq<Change>, modes: seq<nat>, i: nat)
    requires i < |cs| <= |modes| && PutAll(steps, cs[..i], modes)
    requires e.Put? && e.c == cs[i] && e.mode == modes[i]
    ensures PutAll(steps + [e], cs[..i + 1], modes)
  {
    forall k | 0 <= k < i
      ensures (steps + [e])[k].Put? && (steps + [e])[k].c == cs[k] && (steps + [e])[k].mode == modes[k]
    {
      assert cs[..i][k] == cs[k];
    }
  }

  /** rollbackNativeAgentHookChanges: newest first. */
  method Rollback(disk: Disk, changes: seq<Change>, modes: seq<nat>) returns (retained: bool, ghost seg: seq<Event>)
    requires disk.Valid() && |changes| <= |modes|
    modifies disk`files, disk`log, disk`refusals
    ensures disk.refusals <= disk.limit || disk.refusals == old(disk.refusals)
    ensures disk.Valid() && disk.log == old(disk.log) + seg
    ensures disk.refusals == old(disk.refusals) + Failures(seg)
    ensures RolledBack(Steps(seg), changes, modes)
    ensures retained <==> exists e :: e in Steps(seg) && e.Retained?
  {
    hide Disk.Valid, Legal, Chain, AllLegal, Failures;
    retained, seg := false, [];
    NoFailures([]);
    for i := |changes| downto 0
      invariant disk.Valid() && disk.log == old(disk.log) + seg
      invariant disk.refusals == old(disk.refusals) + Failures(seg)
      invariant disk.refusals <= disk.limit || disk.refusals == old(disk.refusals)
      invariant RolledBack(Steps(seg), changes[i..], modes[i..])
      invariant retained <==> exists e :: e in Steps(seg) && e.Retained?
    {
      ghost var before := Steps(seg);
      var ok;
      ghost var added;
      ok, added := disk.TryPutBack(changes[i], modes[i]);
      FailuresAppend(seg, added);
      StepsAdded(seg, added);
      seg := seg + added;
      assert Steps(seg) == before + [added[1]];
      if !ok {
        retained := true;
      }
      RolledBackOne(before, added[1], changes, modes, i);
    }
    assert changes[0..] == changes && modes[0..] == modes;
  }

  lemma RolledBackOne(steps: seq<Event>, e: Event, cs: seq<Change>, modes: seq<nat>, i: nat)
    requires i < |cs| <= |modes| && RolledBack(steps, cs[i + 1..], modes[i + 1..])
    requires Visited(e, cs[i], modes[i])
    ensures RolledBack(steps + [e], cs[i..], modes[i..])
  {
    var n := |cs| - i;
    forall k | 0 <= k < n ensures Visited((steps + [e])[n - 1 - k], cs[i..][k], modes[i..][k]) {
      if k > 0 {
        assert cs[i..][k] == cs[i + 1..][k - 1] && modes[i..][k] == modes[i + 1..][k - 1];
        assert (steps + [e])[n - 1 - k] == steps[n - 1 - 1 - (k - 1)];
      }
    }
  }

  // ---------------------------------------------------------------------
  // The whole publication
  // ---------------------------------------------------------------------

  /** The record of one call, for its contract. */
  datatype Run = Run(modes: seq<nat>, planning: seq<Event>, recheck: seq<Event>, putting: seq<Event>,
      rollback: seq<Event>)

  /** A call that failed before it put anything. */
  ghost predicate Untouched(run: Run) {
    ReadOnly(run.planning) && ReadOnly(run.recheck) && run.putting == [] && run.rollback == []
  }

  /** Everything up to the first put: modes were read while staging, and then
      every preimage, guards included, matched in one pass. */
  ghost predicate Prepared(run: Run, plan: seq<Change>) {
    Distinct(plan) &&
    ReadOnly(run.planning) && ModesFrom(run.planning, Work(plan), run.modes) &&
    ReadOnly(run.recheck) && CheckedAll(run.recheck, plan)
  }

  ghost predicate Succeeded(run: Run, plan: seq<Change>) {
    Prepared(run, plan) && PutAll(Steps(run.putting), Work(plan), run.modes) && run.rollback == []
  }

  ghost predicate FailedAt(run: Run, plan: seq<Change>, published: nat) {
    published < |Work(plan)| &&
    Prepared(run, plan) &&
    PutAll(Steps(run.putting), Work(plan)[..published], run.modes) &&
    RolledBack(Steps(run.rollback), Work(plan)[..published], run.modes)
  }

  ghost function End(log: seq<Event>, f: Files): Files {
    if log == [] then f else log[|log| - 1].After()
  }

  /** What a call has seen and done when it begins to roll back. */
  ghost function Forward(run: Run): seq<Event> {
    run.planning + run.recheck + run.putting
  }

  /** When the call gave up, some change that it had not put yet did not match
      what was on disk. */
  ghost predicate Stale(run: Run, plan: seq<Change>, f: Files) {
    exists published, c :: StaleAt(run, plan, f, published, c)
  }

  /** One operation that failed made the call give up, or a change that was
      stale or planned twice; every further one retained a path. */
  ghost predicate Explained(run: Run, plan: seq<Change>, f: Files, refusals: int) {
    refusals == Failures(run.rollback) + 1
    || (refusals == Failures(run.rollback) && (!Distinct(plan) || Stale(run, plan, f)))
  }

  ghost predicate StaleAt(run: Run, plan: seq<Change>, f: Files, published: int, c: Change) {
    && 0 <= published <= |Work(plan)| && c in plan && c !in Work(plan)[..published]
    && PutAll(Steps(run.putting), Work(plan)[..published], run.modes)
    && !Matches(End(Forward(run), f), c)
  }

  lemma EndOfTwo(x: seq<Event>, y: seq<Event>, f: Files)
    ensures End(x + y, f) == End(y, End(x, f))
  {
    if y == [] {
      assert x + y == x;
    }
  }

  lemma ChainEnd(log: seq<Event>, f: Files, g: Files)
    requires Chain(log, f, g)
    ensures g == End(log, f)
  {
  }

  lemma AtTheEnd(disk: Disk)
    requires disk.Valid()
    ensures disk.files == End(disk.log, disk.start)
  {
    ChainEnd(disk.log, disk.start, disk.files);
  }

  lemma Joined<T>(a: seq<T>, b: seq<T>, c: seq<T>, d: seq<T>)
    ensures a + b + c + d == a + (b + c + d)
  {
  }

  lemma NotPutYet(disk: Disk, origin: seq<Event>, run: Run, plan: seq<Change>, published: nat, c: Change)
    requires disk.Valid() && disk.log == origin + run.planning + run.recheck + run.putting
    requires published <= |Work(plan)| && c in plan && c !in Work(plan)[..published] && !Matches(disk.files, c)
    requires PutAll(Steps(run.putting), Work(plan)[..published], run.modes)
    ensures StaleAt(run, plan, End(origin, disk.start), published, c)
  {
    AtTheEnd(disk);
    Joined(origin, run.planning, run.recheck, run.putting);
    EndOfTwo(origin, Forward(run), disk.start);
  }

  lemma NonePut(disk: Disk, origin: seq<Event>, run: Run, plan: seq<Change>, cs: seq<Change>)
    requires disk.Valid() && disk.log == origin + run.planning + run.recheck && run.putting == []
    requires (exists c :: c in cs && !Matches(disk.files, c)) && forall c :: c in cs ==> c in plan
    ensures Stale(run, plan, End(origin, disk.start))
  {
    var c :| c in cs && !Matches(disk.files, c);
    assert Steps([]) == [] && PutAll([], Work(plan)[..0], run.modes);
    assert disk.log + [] == disk.log;
    NotPutYet(disk, origin, run, plan, 0, c);
  }

  /** publishNativeAgentHookPlanWithFileOps. `changed` also reports artifacts
      that a failed rollback left published. */
  method PublishWithFileOps(disk: Disk, plan: seq<Change>) returns (changed: bool, err: bool, ghost run: Run)
    requires disk.Valid()
    modifies disk`files, disk`log, disk`refusals
    ensures disk.refusals <= disk.limit || disk.refusals == old(disk.refusals)
    ensures disk.Valid()
    ensures disk.log == old(disk.log) + run.planning + run.recheck + run.putting + run.rollback
    ensures !err ==> disk.refusals == old(disk.refusals)
    ensures err ==> Explained(run, plan, old(disk.files), disk.refusals - old(disk.refusals))
    ensures !err && !changed ==> Untouched(run) && Work(plan) == []
    ensures !err && changed ==> Succeeded(run, plan) && Work(plan) != []
    ensures err ==> (Untouched(run) && !changed) || exists published :: FailedAt(run, plan, published)
    ensures err ==> (changed <==> exists e :: e in Steps(run.rollback) && e.Retained?)
  {
    hide Disk.Valid, Legal, Chain, AllLegal, Distinct, CheckedAll, ModesFrom, PutAll, RolledBack;
    changed, err := false, false;
    run := Run([], [], [], [], []);
    AtTheEnd(disk);
    NoFailures([]);
    var ok, preimages, changes;
    ghost var seg;
    ok, preimages, changes, seg := Collect(disk, plan);
    run := run.(planning := seg);
    if !ok {
      err := true;
      if Distinct(plan) && disk.refusals == old(disk.refusals) {
        NonePut(disk, old(disk.log), run, plan, plan);
      }
      return;
    }
    if |changes| == 0 {
      return;
    }
    var locked := disk.Attempt(); // parent directories and locks
    if !locked {
      err := true;
      return;
    }
    ok, seg := VerifyAll(disk, preimages);
    run := run.(planning := run.planning + seg);
    if !ok {
      err := true;
      if disk.refusals == old(disk.refusals) {
        NonePut(disk, old(disk.log), run, plan, plan);
      }
      return;
    }
    changed, err, run := StageAndPut(disk, preimages, changes, old(disk.log), run.planning);
  }

  /** From staging on. */
  method StageAndPut(disk: Disk, preimages: seq<Change>, changes: seq<Change>, ghost origin: seq<Event>,
      ghost planning: seq<Event>)
    returns (changed: bool, err: bool, ghost run: Run)
    requires disk.Valid() && disk.log == origin + planning && changes == Work(preimages) && Distinct(preimages) &&
      ReadOnly(planning)
    modifies disk`files, disk`log, disk`refusals
    ensures disk.refusals <= disk.limit || disk.refusals == old(disk.refusals)
    ensures disk.Valid()
    ensures disk.log == origin + run.planning + run.recheck + run.putting + run.rollback
    ensures !err ==> disk.refusals == old(disk.refusals)
    ensures err ==> Explained(run, preimages, End(origin, disk.start), disk.refusals - old(disk.refusals))
    ensures err || changed
    ensures !err ==> Succeeded(run, preimages)
    ensures err ==> (Untouched(run) && !changed) || exists published :: FailedAt(run, preimages, published)
    ensures err ==> (changed <==> exists e :: e in Steps(run.rollback) && e.Retained?)
  {
    hide Disk.Valid, Legal, Chain, AllLegal, Work, Distinct, CheckedAll;
    NoFailures([]);
    changed, err := false, true;
    run := Run([], planning, [], [], []);
    var staged := new Staged[|changes|](_ => Blank);
    var modes := new nat[|changes|](_ => PRIVATE_MODE);
    var ok;
    ghost var seg;
    ok, seg := Stage(disk, changes, staged, modes);
    run := run.(planning := planning + seg, modes := modes[..]);
    WorkMembers(preimages);
    if !ok {
      if disk.refusals == old(disk.refusals) {
        NonePut(disk, origin, run, preimages, changes);
      }
      return;
    }
    MoreLog(planning, seg, changes, modes[..]);
    ok, seg := VerifyAll(disk, preimages);
    run := run.(recheck := seg);
    if !ok {
      if disk.refusals == old(disk.refusals) {
        NonePut(disk, origin, run, preimages, preimages);
      }
      return;
    }
    changed, err, run := PutOrRollBack(disk, preimages, changes, staged, modes, origin, run);
  }

  /** The publishing loop, with the rollback if it stops early. */
  method PutOrRollBack(disk: Disk, plan: seq<Change>, changes: seq<Change>, staged: array<Staged>, modes: array<nat>,
                       ghost origin: seq<Event>, ghost prepared: Run)
    returns (changed: bool, err: bool, ghost run: Run)
    requires disk.Valid() && staged.Length == modes.Length == |changes| && changes == Work(plan)
    requires disk.log == origin + prepared.planning + prepared.recheck
    requires Prepared(prepared, plan) && prepared.modes == modes[..]
    requires forall k :: 0 <= k < |changes| ==> StagedFor(changes[k], modes[k], staged[k])
    modifies disk`files, disk`log, disk`refusals, staged
    ensures disk.refusals <= disk.limit || disk.refusals == old(disk.refusals)
    ensures disk.Valid()
    ensures !err ==> disk.refusals == old(disk.refusals)
    ensures err ==> Explained(run, plan, End(origin, disk.start), disk.refusals - old(disk.refusals))
    ensures disk.log == origin + run.planning + run.recheck + run.putting + run.rollback
    ensures !err ==> changed && Succeeded(run, plan)
    ensures err ==> exists published :: FailedAt(run, plan, published)
    ensures err ==> (changed <==> exists e :: e in Steps(run.rollback) && e.Retained?)
  {
    var published, ok;
    ghost var seg;
    published, ok, seg := PutChanges(disk, changes, staged, modes);
    run := prepared.(putting := seg, rollback := []);
    if ok {
      assert changes[..published] == changes;
      return true, false, run;
    }
    err := true;
    if disk.refusals == old(disk.refusals) {
      NextNotPut(plan, published);
      NotPutYet(disk, origin, run, plan, published, changes[published]);
    }
    ghost var forward, refused := run, disk.refusals > old(disk.refusals);
    changed, seg := Rollback(disk, changes[..published], modes[..]);
    run := run.(rollback := seg);
    assert FailedAt(run, plan, published);
    if !refused {
      assert StaleAt(forward, plan, End(origin, disk.start), published, changes[published]);
      assert StaleAt(run, plan, End(origin, disk.start), published, changes[published]);
    }
  }

  lemma NextNotPut(plan: seq<Change>, published: nat)
    requires Distinct(plan) && published < |Work(plan)|
    ensures Work(plan)[published] in plan && Work(plan)[published] !in Work(plan)[..published]
  {
    WorkMembers(plan);
    WorkDistinct(plan);
    assert Work(plan)[published] in Work(plan);
  }

  lemma MoreLog(before: seq<Event>, log: seq<Event>, cs: seq<Change>, modes: seq<nat>)
    requires ModesFrom(log, cs, modes)
    ensures ModesFrom(before + log, cs, modes)
  {
    assert before + log + [] == before + log;
    forall k | 0 <= k < |cs| ensures ModeWasRead(before + log, cs[k], modes[k]) {
      ModeStillRead(log, before, [], cs[k], modes[k]);
    }
  }

  // ---------------------------------------------------------------------
  // Whole runs
  // ---------------------------------------------------------------------

  lemma {:induction false} ChainSplit(x: seq<Event>, y: seq<Event>, f: Files, g: Files)
    requires Chain(x + y, f, g)
    ensures Chain(x, f, End(x, f)) && Chain(y, End(x, f), g)
  {
    if y == [] {
      assert x + y == x;
      ChainEnd(x, f, g);
    } else {
      var n := |y| - 1;
      assert (x + y)[..|x| + n] == x + y[..n];
      ChainSplit(x, y[..n], f, y[n].Before());
    }
  }

  /** With no outside change, a read-only stretch leaves the disk alone and
      every step of it saw the same contents. */
  lemma {:induction false} QuietReads(log: seq<Event>, f: Files, g: Files)
    requires Chain(log, f, g) && Quiet(log) && ReadOnly(log)
    ensures g == f && forall e :: e in log ==> e.Before() == e.After() == f
  {
    if log != [] {
      var n := |log| - 1;
      assert log == log[..n] + [log[n]];
      QuietReads(log[..n], f, log[n].Before());
    }
  }

  /** With no outside change, our own steps alone explain the disk. */
  lemma {:induction false} QuietSteps(log: seq<Event>, f: Files, g: Files)
    requires Chain(log, f, g) && Quiet(log)
    ensures Chain(Steps(log), f, g)
  {
    if log != [] {
      var n := |log| - 1;
      QuietSteps(log[..n], f, log[n].Before());
      if !log[n].Outside? {
        ChainOne(Steps(log[..n]), log[n], f);
      }
    }
  }

  lemma {:induction false} StepsAreEvents(log: seq<Event>)
    ensures forall e :: e in Steps(log) <==> e in log && !e.Outside?
  {
    if log != [] {
      var n := |log| - 1;
      assert log == log[..n] + [log[n]];
      StepsAreEvents(log[..n]);
    }
  }

  lemma {:induction false} WorkMembers(plan: seq<Change>)
    ensures forall c :: c in Work(plan) <==> c in plan && NeedsWork(c)
  {
    if plan != [] {
      var n := |plan| - 1;
      assert plan == plan[..n] + [plan[n]];
      WorkMembers(plan[..n]);
    }
  }

  lemma {:induction false} WorkDistinct(plan: seq<Change>)
    requires Distinct(plan)
    ensures Distinct(Work(plan))
  {
    if plan != [] {
      var n := |plan| - 1;
      WorkDistinct(plan[..n]);
      WorkMembers(plan[..n]);
      forall c | c in Work(plan[..n]) ensures c.path != plan[n].path {
        var k :| 0 <= k < n && plan[..n][k] == c;
      }
    }
  }

  /** `mode` is the mode that `c` has, or 0600 for a new file. */
  predicate GoodMode(f: Files, c: Change, mode: nat) {
    if c.originalExists then c.path in f && f[c.path].mode == mode else mode == PRIVATE_MODE
  }

  ghost predicate GoodModes(f: Files, cs: seq<Change>, modes: seq<nat>) {
    |cs| <= |modes| && forall k :: 0 <= k < |cs| ==> GoodMode(f, cs[k], modes[k])
  }

  lemma {:induction false} RestoreUndoesPublish(f: Files, c: Change, mode: nat)
    requires Matches(f, c) && GoodMode(f, c, mode)
    ensures HoldsPublished(Published(f, c, mode), c)
    ensures Restored(Published(f, c, mode), c, mode) == f
  {
    var g := Restored(Published(f, c, mode), c, mode);
    if c.originalExists {
      assert f[c.path] == File(c.original, mode);
    }
    assert forall p :: p in g <==> p in f;
    assert forall p :: p in g ==> g[p] == f[p];
  }

  /** Puts change nothing but the paths they name. */
  lemma {:induction false} PutsKeepOthers(steps: seq<Event>, cs: seq<Change>, modes: seq<nat>, f: Files, g: Files,
      p: string)
    requires PutAll(steps, cs, modes) && AllLegal(steps) && Chain(steps, f, g)
    requires forall c :: c in cs ==> c.path != p
    ensures (p in g <==> p in f) && (p in f ==> g[p] == f[p])
  {
    if steps != [] {
      var n := |steps| - 1;
      assert steps[n] in steps && cs[n] in cs;
      PutsKeepOthers(steps[..n], cs[..n], modes, f, steps[n].before, p);
    }
  }

  lemma NewestPut(puts: seq<Event>, cs: seq<Change>, modes: seq<nat>, f: Files, m: Files)
    requires cs != [] && PutAll(puts, cs, modes) && AllLegal(puts) && Chain(puts, f, m)
    ensures var n := |cs| - 1; var put := puts[n];
      && PutAll(puts[..n], cs[..n], modes) && AllLegal(puts[..n]) && Chain(puts[..n], f, put.before)
      && put.c == cs[n] && Legal(put) && put.after == m
  {
    assert puts[|cs| - 1] in puts;
  }

  lemma FirstBack(backs: seq<Event>, cs: seq<Change>, modes: seq<nat>, m: Files, g: Files)
    requires cs != [] && RolledBack(backs, cs, modes) && AllLegal(backs) && Chain(backs, m, g)
    ensures backs[0] in backs && Visited(backs[0], cs[|cs| - 1], modes[|cs| - 1]) && Legal(backs[0])
    ensures backs[0].Before() == m && Chain(backs[1..], backs[0].After(), g)
  {
    var n := |cs| - 1;
    assert Visited(backs[|cs| - 1 - n], cs[n], modes[n]);
    assert backs == [backs[0]] + backs[1..];
    ChainSplit([backs[0]], backs[1..], m, g);
    assert [backs[0]][..0] == [];
  }

  /** Undoing the newest put gives the state before it. */
  lemma LastPutUndone(puts: seq<Event>, backs: seq<Event>, cs: seq<Change>, modes: seq<nat>, f: Files, m: Files,
      g: Files)
    requires cs != [] && Distinct(cs) && GoodModes(f, cs, modes)
    requires PutAll(puts, cs, modes) && AllLegal(puts) && Chain(puts, f, m)
    requires RolledBack(backs, cs, modes) && AllLegal(backs) && Chain(backs, m, g)
    requires forall e :: e in backs && e.Retained? ==> !e.failed
    ensures !backs[0].Retained?
    ensures Chain(backs[1..], puts[|cs| - 1].before, g)
  {
    hide Chain, AllLegal, RolledBack, Published, Restored;
    var n := |cs| - 1;
    NewestPut(puts, cs, modes, f, m);
    FirstBack(backs, cs, modes, m, g);
    forall c | c in cs[..n] ensures c.path != cs[n].path {
      var k :| 0 <= k < n && cs[..n][k] == c;
    }
    PutsKeepOthers(puts[..n], cs[..n], modes, f, puts[n].before, cs[n].path);
    assert GoodMode(f, cs[n], modes[n]);
    RestoreUndoesPublish(puts[n].before, cs[n], modes[n]);
  }

  lemma {:induction false} PutsUndone(puts: seq<Event>, backs: seq<Event>, cs: seq<Change>, modes: seq<nat>, f: Files,
      m: Files, g: Files)
    requires Distinct(cs) && GoodModes(f, cs, modes)
    requires PutAll(puts, cs, modes) && AllLegal(puts) && Chain(puts, f, m)
    requires RolledBack(backs, cs, modes) && AllLegal(backs) && Chain(backs, m, g)
    requires forall e :: e in backs && e.Retained? ==> !e.failed
    ensures g == f && forall e :: e in backs ==> !e.Retained?
  {
    if cs != [] {
      var n := |cs| - 1;
      LastPutUndone(puts, backs, cs, modes, f, m, g);
      assert backs == [backs[0]] + backs[1..];
      RolledBackRest(backs, cs, modes);
      PutsUndone(puts[..n], backs[1..], cs[..n], modes, f, puts[n].before, g);
    }
  }

  lemma RolledBackRest(steps: seq<Event>, cs: seq<Change>, modes: seq<nat>)
    requires cs != [] && RolledBack(steps, cs, modes)
    ensures RolledBack(steps[1..], cs[..|cs| - 1], modes)
  {
    var n := |cs| - 1;
    forall k | 0 <= k < n ensures Visited(steps[1..][n - 1 - k], cs[..n][k], modes[k]) {
      assert Visited(steps[|cs| - 1 - k], cs[k], modes[k]);
    }
  }

  ghost function Whole(run: Run): seq<Event> {
    run.planning + (run.recheck + (run.putting + run.rollback))
  }

  /** With no outside change the modes are those the files had at the start. */
  lemma QuietModes(log: seq<Event>, cs: seq<Change>, modes: seq<nat>, f: Files)
    requires Chain(log, f, f) && Quiet(log) && ReadOnly(log) && AllLegal(log) && ModesFrom(log, cs, modes)
    ensures GoodModes(f, cs, modes)
  {
    QuietReads(log, f, f);
    forall k | 0 <= k < |cs| ensures GoodMode(f, cs[k], modes[k]) {
      assert ModeWasRead(log, cs[k], modes[k]);
    }
  }

  /** Splits a quiet run into its puts and its rollback. */
  lemma QuietParts(run: Run, plan: seq<Change>, f: Files, g: Files)
    requires Prepared(run, plan) && AllLegal(Whole(run)) && Quiet(Whole(run)) && Chain(Whole(run), f, g)
    ensures GoodModes(f, Work(plan), run.modes)
    ensures Quiet(run.putting) && Quiet(run.rollback) && AllLegal(run.putting) && AllLegal(run.rollback)
    ensures Chain(run.putting, f, End(run.putting, f)) && Chain(run.rollback, End(run.putting, f), g)
  {
    var rest := run.putting + run.rollback;
    assert Whole(run) == run.planning + (run.recheck + rest);
    ChainSplit(run.planning, run.recheck + rest, f, g);
    QuietReads(run.planning, f, End(run.planning, f));
    QuietModes(run.planning, Work(plan), run.modes, f);
    ChainSplit(run.recheck, rest, f, g);
    QuietReads(run.recheck, f, End(run.recheck, f));
    ChainSplit(run.putting, run.rollback, f, g);
  }

  /** If no one else writes and every rollback operation works, a publication
      that fails at any step, whether before the first put or after some,
      leaves every path with its original existence, bytes and mode, and
      nothing is retained. */
  lemma QuietFailureRestores(run: Run, plan: seq<Change>, f: Files, g: Files)
    requires Untouched(run) || exists published :: FailedAt(run, plan, published)
    requires AllLegal(Whole(run)) && Quiet(Whole(run)) && Chain(Whole(run), f, g)
    requires forall e :: e in run.rollback && e.Retained? ==> !e.failed
    ensures g == f && forall e :: e in Steps(run.rollback) ==> !e.Retained?
  {
    if Untouched(run) {
      assert Whole(run) == run.planning + run.recheck;
      QuietReads(Whole(run), f, g);
    } else {
      var published :| FailedAt(run, plan, published);
      QuietRollbackRestores(run, plan, published, f, g);
    }
  }

  lemma QuietRollbackRestores(run: Run, plan: seq<Change>, published: nat, f: Files, g: Files)
    requires FailedAt(run, plan, published)
    requires AllLegal(Whole(run)) && Quiet(Whole(run)) && Chain(Whole(run), f, g)
    requires forall e :: e in run.rollback && e.Retained? ==> !e.failed
    ensures g == f && forall e :: e in Steps(run.rollback) ==> !e.Retained?
  {
    QuietParts(run, plan, f, g);
    var m := End(run.putting, f);
    QuietSteps(run.putting, f, m);
    QuietSteps(run.rollback, m, g);
    StepsAreEvents(run.putting);
    StepsAreEvents(run.rollback);
    WorkDistinct(plan);
    PutsUndone(Steps(run.putting), Steps(run.rollback), Work(plan)[..published], run.modes, f, m, g);
  }

  /** If no one else writes, the paths are distinct and every preimage matches
      at the start, then no change is ever found not to match: the call fails
      only if an operation fails of itself. */
  lemma QuietRunIsNeverStale(run: Run, plan: seq<Change>, f: Files, g: Files)
    requires ReadOnly(run.planning) && ReadOnly(run.recheck)
    requires AllLegal(Whole(run)) && Quiet(Whole(run)) && Chain(Whole(run), f, g)
    requires Distinct(plan) && forall c :: c in plan ==> Matches(f, c)
    ensures !Stale(run, plan, f)
  {
    forall published, c ensures !StaleAt(run, plan, f, published, c) {
      if StaleAt(run, plan, f, published, c) {
        StillMatches(run, plan, f, g, published, c);
      }
    }
  }

  lemma StillMatches(run: Run, plan: seq<Change>, f: Files, g: Files, published: nat, c: Change)
    requires ReadOnly(run.planning) && ReadOnly(run.recheck)
    requires AllLegal(Whole(run)) && Quiet(Whole(run)) && Chain(Whole(run), f, g)
    requires Distinct(plan) && c in plan && Matches(f, c)
    requires published <= |Work(plan)| && c !in Work(plan)[..published]
    requires PutAll(Steps(run.putting), Work(plan)[..published], run.modes)
    ensures Matches(End(Forward(run), f), c)
  {
    hide Chain, ReadOnly, PutAll, Work, Matches, Steps;
    var seen := run.planning + run.recheck;
    assert Whole(run) == seen + (run.putting + run.rollback);
    assert Forward(run) == seen + run.putting;
    ReadsTogether(run.planning, run.recheck);
    ChainSplit(seen, run.putting + run.rollback, f, g);
    QuietReads(seen, f, End(seen, f));
    ChainSplit(run.putting, run.rollback, f, g);
    EndOfTwo(seen, run.putting, f);
    var m := End(run.putting, f);
    QuietSteps(run.putting, f, m);
    StepsAreEvents(run.putting);
    OtherPaths(plan, published, c);
    PutsKeepOthers(Steps(run.putting), Work(plan)[..published], run.modes, f, m, c.path);
    SameMatches(f, m, c);
  }

  lemma ReadsTogether(x: seq<Event>, y: seq<Event>)
    requires ReadOnly(x) && ReadOnly(y)
    ensures ReadOnly(x + y)
  {
  }

  lemma OtherPaths(plan: seq<Change>, published: nat, c: Change)
    requires Distinct(plan) && c in plan && published <= |Work(plan)| && c !in Work(plan)[..published]
    ensures forall d :: d in Work(plan)[..published] ==> d.path != c.path
  {
    WorkMembers(plan);
    forall d | d in Work(plan)[..published] ensures d.path != c.path {
      assert d in Work(plan);
      var i :| 0 <= i < |plan| && plan[i] == d;
      var j :| 0 <= j < |plan| && plan[j] == c;
      if i < j {
        assert plan[i].path != plan[j].path;
      } else if j < i {
        assert plan[j].path != plan[i].path;
      }
    }
  }

  lemma SameMatches(f: Files, g: Files, c: Change)
    requires (c.path in g <==> c.path in f) && (c.path in f ==> g[c.path] == f[c.path])
    ensures Matches(g, c) <==> Matches(f, c)
  {
  }

  /** What a bundle turns `f` into. */
  ghost predicate Holds(g: Files, f: Files, cs: seq<Change>, modes: seq<nat>)
    requires |cs| <= |modes|
  {
    && (forall k :: 0 <= k < |cs| ==> HoldsChange(g, cs[k], modes[k]))
    && (forall p | forall c :: c in cs ==> c.path != p :: (p in g <==> p in f) && (p in f ==> g[p] == f[p]))
  }

  predicate HoldsChange(g: Files, c: Change, mode: nat) {
    if c.remove then c.path !in g else c.path in g && g[c.path] == File(c.content, mode)
  }

  lemma {:induction false} PutsHold(steps: seq<Event>, cs: seq<Change>, modes: seq<nat>, f: Files, g: Files)
    requires PutAll(steps, cs, modes) && AllLegal(steps) && Chain(steps, f, g) && Distinct(cs)
    ensures forall k :: 0 <= k < |cs| ==> HoldsChange(g, cs[k], modes[k])
  {
    if steps != [] {
      var n := |steps| - 1;
      var put := steps[n];
      assert put in steps;
      PutsHold(steps[..n], cs[..n], modes, f, put.before);
      forall k | 0 <= k < |cs| ensures HoldsChange(g, cs[k], modes[k]) {
        if k < n {
          assert HoldsChange(put.before, cs[..n][k], modes[k]);
          assert cs[k].path != cs[n].path;
        }
      }
    }
  }

  /** If no one else writes, success leaves exactly the planned contents, with
      the mode the file had before (0600 when new), and no other path moved. */
  lemma QuietSuccessHolds(run: Run, plan: seq<Change>, f: Files, g: Files)
    requires Succeeded(run, plan)
    requires AllLegal(Whole(run)) && Quiet(Whole(run)) && Chain(Whole(run), f, g)
    ensures GoodModes(f, Work(plan), run.modes) && Holds(g, f, Work(plan), run.modes)
  {
    QuietParts(run, plan, f, g);
    QuietSteps(run.putting, f, End(run.putting, f));
    StepsAreEvents(run.putting);
    WorkDistinct(plan);
    var steps, cs := Steps(run.putting), Work(plan);
    PutsHold(steps, cs, run.modes, f, g);
    forall p | forall c :: c in cs ==> c.path != p ensures (p in g <==> p in f) && (p in f ==> g[p] == f[p]) {
      PutsKeepOthers(steps, cs, run.modes, f, g, p);
    }
  }

  /** Under arbitrary outside writes, whatever the rollback replaced or removed
      held exactly what this publication put there. */
  lemma RollbackTouchesOnlyItsOwn(run: Run, plan: seq<Change>, published: nat, e: Event)
    requires FailedAt(run, plan, published) && AllLegal(run.rollback)
    requires e in run.rollback && e.PutBack?
    ensures e.c in Work(plan)[..published]
    ensures HoldsPublished(e.before, e.c) && HoldsPreimage(e.after, e.c, e.mode)
  {
    var cs, steps := Work(plan)[..published], Steps(run.rollback);
    StepsAreEvents(run.rollback);
    var j :| 0 <= j < |steps| && steps[j] == e;
    var k := published - 1 - j;
    assert Visited(steps[|cs| - 1 - k], cs[k], run.modes[k]);
  }

  /** A failure that reports nothing retained put every published path back to
      its preimage, whatever others wrote in between. */
  lemma NothingRetainedMeansAllPutBack(run: Run, plan: seq<Change>, published: nat, k: nat)
    requires FailedAt(run, plan, published) && AllLegal(run.rollback) && k < published
    requires forall e :: e in Steps(run.rollback) ==> !e.Retained?
    ensures exists e ::
      e in run.rollback && e.PutBack? && e.c == Work(plan)[k] && HoldsPreimage(e.after, e.c, run.modes[k])
  {
    var cs, steps := Work(plan)[..published], Steps(run.rollback);
    StepsAreEvents(run.rollback);
    var e := steps[|cs| - 1 - k];
    assert Visited(e, cs[k], run.modes[k]);
    assert e in steps;
  }

  /** A step of ours changes no path but the one it names. */
  lemma OwnStepIsLocal(e: Event, p: string)
    requires Legal(e) && !e.Outside?
    requires (!e.Put? && !e.PutBack?) || p != e.c.path
    ensures (p in e.After() <==> p in e.Before()) && (p in e.Before() ==> e.After()[p] == e.Before()[p])
  {
  }

  /** Before the first put, every preimage of the plan was seen on disk,
      read-only guards included, and a guard is never written. */
  lemma EveryPreimageRechecked(run: Run, plan: seq<Change>, c: Change)
    requires Prepared(run, plan) && AllLegal(run.recheck) && c in plan
    ensures exists e :: e in run.recheck && e.Checked? && e.c == c && Matches(e.state, c)
    ensures !NeedsWork(c) ==> forall d :: d in Work(plan) ==> d.path != c.path
  {
    var k :| 0 <= k < |plan| && plan[k] == c;
    StepsAreEvents(run.recheck);
    var e := Steps(run.recheck)[k];
    assert e in Steps(run.recheck);
    WorkMembers(plan);
    forall d | d in Work(plan) && !NeedsWork(c) ensures d.path != c.path {
      var j :| 0 <= j < |plan| && plan[j] == d;
      if j < k { assert plan[j].path != plan[k].path; }
      if k < j { assert plan[k].path != plan[j].path; }
    }
  }

  // ---------------------------------------------------------------------
  // The operation as callers see it
  // ---------------------------------------------------------------------

  /** What a call added to the log leads from what it found to what it left. */
  lemma WholeCall(disk: Disk, origin: seq<Event>, run: Run)
    requires disk.Valid() && disk.log == origin + run.planning + run.recheck + run.putting + run.rollback
    ensures AllLegal(Whole(run)) && Chain(Whole(run), End(origin, disk.start), disk.files)
  {
    assert disk.log == origin + Whole(run);
    assert forall e :: e in Whole(run) ==> e in disk.log;
    ChainSplit(origin, Whole(run), disk.start, disk.files);
  }

  /** publishNativeAgentHookPlan. With no one else writing, it fails exactly if an
      operation fails of itself, given distinct paths and matching preimages,
      and a failure leaves the disk as it was unless the rollback itself has an
      operation fail. */
  method Publish(disk: Disk, plan: seq<Change>) returns (changed: bool, err: bool, ghost run: Run)
    requires disk.Valid()
    modifies disk`files, disk`log, disk`refusals
    ensures disk.refusals <= disk.limit || disk.refusals == old(disk.refusals)
    ensures disk.Valid()
    ensures disk.log == old(disk.log) + run.planning + run.recheck + run.putting + run.rollback
    ensures !err && !changed ==> Untouched(run) && Work(plan) == []
    ensures !err && changed ==> Succeeded(run, plan) && Work(plan) != []
    ensures err ==> (Untouched(run) && !changed) || exists published :: FailedAt(run, plan, published)
    ensures err ==> (changed <==> exists e :: e in Steps(run.rollback) && e.Retained?)
    ensures if err then Explained(run, plan, old(disk.files), disk.refusals - old(disk.refusals))
            else disk.refusals == old(disk.refusals)
    ensures Quiet(Whole(run)) && err && Failures(run.rollback) == 0 ==> disk.files == old(disk.files) && !changed
    ensures Quiet(Whole(run)) && Distinct(plan) && (forall c :: c in plan ==> Matches(old(disk.files), c)) ==>
      if err then disk.refusals == old(disk.refusals) + 1 + Failures(run.rollback)
      else disk.refusals == old(disk.refusals)
  {
    AtTheEnd(disk);
    changed, err, run := PublishWithFileOps(disk, plan);
    WholeCall(disk, old(disk.log), run);
    if Quiet(Whole(run)) && err {
      NoFailures(run.rollback);
      if Failures(run.rollback) == 0 {
        QuietFailureRestores(run, plan, old(disk.files), disk.files);
      }
      ReadsBeforeFailure(run, plan);
      if Distinct(plan) && forall c :: c in plan ==> Matches(old(disk.files), c) {
        QuietRunIsNeverStale(run, plan, old(disk.files), disk.files);
      }
    }
  }

  lemma ReadsBeforeFailure(run: Run, plan: seq<Change>)
    requires Untouched(run) || exists published :: FailedAt(run, plan, published)
    ensures ReadOnly(run.planning) && ReadOnly(run.recheck)
  {
  }
}
