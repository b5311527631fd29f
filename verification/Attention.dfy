/** Attention ownership of an issue by compare-and-set (cmd/kata: attention_hook, agent_hooks_attention_native). */
module Attention {
  // The daemon is known only by its revision contract: every change of the
  // issue gives it a larger revision, and a conditional write (If-Match,
  // section 13.1.1 of RFC 9110) takes effect only while the revision it names
  // is current. A write answered with 412 did not take effect; a write reported
  // as failed may or may not have.

  const ATTENTION := "work.attention"
  const MESSAGE := "work.attention_msg"
  const SESSION := "work.attention_session"
  const OK := "ok"
  const NEEDS_HUMAN := "needs-human"
  const HANDOFF := "session ended without hand-off"
  const ENDED := "ended:"
  const ATTEMPTS: nat := 2

  type Patch = map<string, string>

  datatype Issue = Issue(open: bool, meta: map<string, string>, revision: nat) {
    /** Absent metadata reads as the empty string. */
    function Get(key: string): string {
      if key in meta then meta[key] else ""
    }
  }

  datatype Lookup = Transient | Gone | Open(attention: string, session: string, revision: nat)

  datatype WriteResult = Failed | Applied | Conflict

  /** What a reachable daemon answers. */
  function View(issue: Issue): Lookup {
    if !issue.open then Gone
    else if issue.revision == 0 then Transient
    else Open(issue.Get(ATTENTION), issue.Get(SESSION), issue.revision)
  }

  /** The issue after an accepted write. */
  ghost predicate Accepted(before: Issue, patch: Patch, after: Issue) {
    after.open == before.open && after.meta == before.meta + patch && after.revision > before.revision
  }

  /** The contract of a conditional write: it lands only on the revision it
      names; "applied" means it landed, "conflict" that it did not, and
      "failed" says neither. */
  ghost predicate Answer(before: Issue, patch: Patch, revision: nat, result: WriteResult, landed: bool, after: Issue) {
    && (if landed then before.revision == revision && Accepted(before, patch, after) else after == before)
    && (result == Applied ==> landed)
    && (result == Conflict ==> !landed)
  }

  // ---------------------------------------------------------------------
  // The four programs
  // ---------------------------------------------------------------------

  datatype Program = Start(owner: string) | End(owner: string) | LegacyStart | LegacyEnd

  datatype Pc =
    | Looking(tries: nat)
    | Writing(tries: nat, seen: Lookup)
    | Done(silent: bool)

  /** Session programs report errors; the legacy ones stay silent. */
  predicate Reports(p: Program) {
    p.Start? || p.End?
  }

  function AfterLookup(p: Program, tries: nat, seen: Lookup): Pc {
    match seen
    case Transient => Done(!Reports(p))
    case Gone => Done(true)
    case Open(attention, session, _) =>
      match p
      case Start(owner) => if session == owner then Done(true) else Writing(tries, seen)
      case End(owner) => if session != owner then Done(true) else Writing(tries, seen)
      case LegacyStart => Writing(tries, seen)
      case LegacyEnd => if attention != OK then Done(true) else Writing(tries, seen)
  }

  function AfterWrite(p: Program, tries: nat, result: WriteResult): Pc {
    match result
    case Applied => Done(true)
    case Failed => Done(!Reports(p))
    case Conflict => if tries + 1 < ATTEMPTS then Looking(tries + 1) else Done(!Reports(p))
  }

  function PatchFor(p: Program, seen: Lookup): Patch {
    match p
    case Start(owner) => map[ATTENTION := OK, SESSION := owner]
    case End(owner) =>
      if seen.Open? && seen.attention == OK then
        map[SESSION := ENDED + owner, ATTENTION := NEEDS_HUMAN, MESSAGE := HANDOFF]
      else map[SESSION := ENDED + owner]
    case LegacyStart => map[ATTENTION := OK]
    case LegacyEnd => map[ATTENTION := NEEDS_HUMAN, MESSAGE := HANDOFF]
  }

  // ---------------------------------------------------------------------
  // One call, as the source runs it
  // ---------------------------------------------------------------------

  /** What a call sees of the daemon. */
  datatype Exchange =
    | Looked(seen: Lookup)
    | Wrote(patch: Patch, revision: nat, result: WriteResult)

  /** `trace` takes a call of `p` from `pc` to `end`. */
  ghost predicate Follows(p: Program, pc: Pc, trace: seq<Exchange>, end: Pc)
    decreases |trace|
  {
    if trace == [] then pc == end
    else match pc
      case Looking(tries) =>
        trace[0].Looked? && Follows(p, AfterLookup(p, tries, trace[0].seen), trace[1..], end)
      case Writing(tries, seen) =>
        trace[0].Wrote? && seen.Open? && trace[0].revision == seen.revision && trace[0].patch == PatchFor(p, seen) &&
        Follows(p, AfterWrite(p, tries, trace[0].result), trace[1..], end)
      case Done(_) => false
  }

  lemma {:induction false} FollowsThen(p: Program, pc: Pc, x: seq<Exchange>, mid: Pc, y: seq<Exchange>, end: Pc)
    requires Follows(p, pc, x, mid) && Follows(p, mid, y, end)
    ensures Follows(p, pc, x + y, end)
    decreases |x|
  {
    if x == [] {
      assert x + y == y;
    } else {
      assert (x + y)[1..] == x[1..] + y;
      match pc
      case Looking(tries) => FollowsThen(p, AfterLookup(p, tries, x[0].seen), x[1..], mid, y, end);
      case Writing(tries, _) => FollowsThen(p, AfterWrite(p, tries, x[0].result), x[1..], mid, y, end);
    }
  }

  /** The daemon as one caller meets it: anyone may change the issue before
      each request, and any request may fail. Both are counted. */
  class Daemon {
    var issue: Issue
    ghost var trace: seq<Exchange>
    ghost var faults: nat
    /** Whether neither ever happens. */
    const calm: bool

    method Others()
      modifies this`issue, this`faults
      ensures issue == old(issue) || issue.revision > old(issue).revision
      ensures if issue == old(issue) then faults == old(faults) else faults == old(faults) + 1
      ensures calm ==> faults == old(faults)
    {
      var next: Issue := *;
      if next.revision > issue.revision && !calm {
        issue := next;
        faults := faults + 1;
      }
    }

    method Look() returns (seen: Lookup)
      modifies this
      ensures trace == old(trace) + [Looked(seen)]
      ensures seen == Transient || seen == View(issue)
      ensures faults >= old(faults) && (faults == old(faults) ==> issue == old(issue) && seen == View(issue))
      ensures calm ==> faults == old(faults)
    {
      Others();
      var reachable: bool := *;
      reachable := reachable || calm;
      seen := if reachable then View(issue) else Transient;
      trace := trace + [Looked(seen)];
      if !reachable {
        faults := faults + 1;
      }
    }

    method SetMetaIfRevision(patch: Patch, revision: nat)
      returns (result: WriteResult, ghost before: Issue, ghost landed: bool)
      modifies this
      ensures trace == old(trace) + [Wrote(patch, revision, result)]
      ensures Answer(before, patch, revision, result, landed, issue)
      ensures faults >= old(faults) && (calm ==> faults == old(faults))
      ensures faults == old(faults) ==> before == old(issue) && landed == (before.revision == revision)
      ensures faults == old(faults) ==> result == if landed then Applied else Conflict
    {
      Others();
      before := issue;
      landed := false;
      var arrives: bool, answered: bool := *, *;
      arrives, answered := arrives || calm, answered || calm;
      result := Failed;
      if !arrives || !answered {
        faults := faults + 1;
      }
      if arrives {
        if issue.revision == revision {
          assert issue.revision + 1 > issue.revision;
          var next: nat :| next > issue.revision;
          issue := Issue(issue.open, issue.meta + patch, next);
          result, landed := Applied, true;
        } else {
          result := Conflict;
        }
        if !answered {
          result := Failed;
        }
      }
      trace := trace + [Wrote(patch, revision, result)];
    }
  }

  /** attentionRef: a blank ref or one that starts with "-" is ignored. The
      argument is the ref with surrounding white space already trimmed. */
  predicate UsableRef(ref: string) {
    ref != "" && ref[0] != '-'
  }

  /** The requests a call adds: none when it is ignored, else a complete run of
      its program. */
  ghost predicate Ran(p: Program, added: seq<Exchange>, ignored: bool, silent: bool) {
    if ignored then added == [] && silent else Follows(p, Looking(0), added, Done(silent))
  }

  ghost predicate SameBut(before: Issue, after: Issue, keys: set<string>) {
    after.open == before.open && forall key :: key !in keys ==> after.Get(key) == before.Get(key)
  }

  const HANDOFF_KEYS := {ATTENTION, MESSAGE}
  const STAMP_KEYS := {ATTENTION, SESSION}
  const ALL_KEYS := {ATTENTION, MESSAGE, SESSION}

  /** The issue is handed to a human if nobody has asked for one already. */
  predicate HandedOff(before: Issue, after: Issue) {
    if before.Get(ATTENTION) == OK then after.Get(ATTENTION) == NEEDS_HUMAN && after.Get(MESSAGE) == HANDOFF
    else after.Get(ATTENTION) == before.Get(ATTENTION) && after.Get(MESSAGE) == before.Get(MESSAGE)
  }

  /** What a call is for: its effect on an open issue that nobody else writes,
      at a daemon that answers. */
  ghost predicate Achieved(p: Program, before: Issue, after: Issue) {
    match p
    case Start(owner) =>
      if before.Get(SESSION) == owner then after == before
      else after.Get(SESSION) == owner && after.Get(ATTENTION) == OK && SameBut(before, after, STAMP_KEYS)
    case End(owner) =>
      if before.Get(SESSION) != owner then after == before
      else after.Get(SESSION) == ENDED + owner && HandedOff(before, after) && SameBut(before, after, ALL_KEYS)
    case LegacyStart => after.Get(ATTENTION) == OK && SameBut(before, after, {ATTENTION})
    case LegacyEnd => HandedOff(before, after) && SameBut(before, after, HANDOFF_KEYS)
  }

  /** A call without faults: it changes nothing on a closed issue or one
      without a revision, and does what it is for on any other. */
  ghost predicate Quiet(p: Program, ignored: bool, before: Issue, after: Issue, silent: bool) {
    if ignored || !before.open then after == before && silent
    else if before.revision == 0 then after == before && silent == !Reports(p)
    else Achieved(p, before, after) && silent
  }

  lemma QuietlyIgnored(p: Program, issue: Issue)
    ensures Quiet(p, true, issue, issue, true)
  {
  }

  /** A lookup without faults that ends the call. */
  lemma QuietlyDone(p: Program, tries: nat, issue: Issue, silent: bool)
    requires AfterLookup(p, tries, View(issue)) == Done(silent)
    ensures Quiet(p, false, issue, issue, silent)
  {
  }

  /** A write without faults. */
  lemma QuietlyWritten(p: Program, tries: nat, before: Issue, after: Issue)
    requires AfterLookup(p, tries, View(before)).Writing? && Accepted(before, PatchFor(p, View(before)), after)
    ensures Quiet(p, false, before, after, true)
  {
  }

  lemma QuietLookup(p: Program, tries: nat, seen: Lookup, issue: Issue, quiet: bool)
    requires quiet ==> seen == View(issue)
    ensures var next := AfterLookup(p, tries, seen);
      quiet && next.Done? ==> Quiet(p, false, issue, issue, next.silent)
  {
    if quiet && AfterLookup(p, tries, seen).Done? {
      QuietlyDone(p, tries, issue, AfterLookup(p, tries, seen).silent);
    }
  }

  lemma QuietWrite(p: Program, tries: nat, seen: Lookup, before: Issue, after: Issue, result: WriteResult, landed: bool,
      quiet: bool)
    requires AfterLookup(p, tries, seen).Writing? && seen.Open?
    requires quiet ==> seen == View(before) && Answer(before, PatchFor(p, seen), seen.revision, result, landed, after)
    requires quiet ==> landed == (before.revision == seen.revision) && result == if landed then Applied else Conflict
    ensures quiet ==> result == Applied && Quiet(p, false, before, after, true)
  {
    if quiet {
      QuietlyWritten(p, tries, before, after);
    }
  }

  /** attnStartSession; `silent` is a nil error. */
  method AttnStartSession(d: Daemon, ref: string, owner: string) returns (silent: bool, ghost added: seq<Exchange>)
    modifies d
    ensures d.trace == old(d.trace) + added
    ensures Ran(Start(owner), added, !UsableRef(ref) || owner == "", silent) && d.faults >= old(d.faults)
    ensures d.calm ==> d.faults == old(d.faults)
    ensures d.faults == old(d.faults) ==>
      Quiet(Start(owner), !UsableRef(ref) || owner == "", old(d.issue), d.issue, silent)
  {
    hide Quiet, Accepted;
    added := [];
    QuietlyIgnored(Start(owner), d.issue);
    if !UsableRef(ref) || owner == "" {
      return true, [];
    }
    for i := 0 to ATTEMPTS
      invariant d.trace == old(d.trace) + added
      invariant Follows(Start(owner), Looking(0), added, if i < ATTEMPTS then Looking(i) else Done(false))
      invariant if i == 0 then d.issue == old(d.issue) && d.faults == old(d.faults) else d.faults > old(d.faults)
      invariant d.calm ==> d.faults == old(d.faults)
    {
      var seen := d.Look();
      ghost var looked := d.issue;
      QuietLookup(Start(owner), i, seen, looked, d.faults == old(d.faults));
      added := Extend(Start(owner), Looking(i), added, Looked(seen));
      match seen {
        case Transient => return false, added;
        case Gone => return true, added;
        case Open(_, session, revision) =>
          if session == owner {
            return true, added;
          }
          var result, before, landed := d.SetMetaIfRevision(map[ATTENTION := OK, SESSION := owner], revision);
          added := Extend(Start(owner), Writing(i, seen), added,
            Wrote(map[ATTENTION := OK, SESSION := owner], revision, result));
          QuietWrite(Start(owner), i, seen, looked, d.issue, result, landed, d.faults == old(d.faults));
          match result {
            case Applied => return true, added;
            case Failed => return false, added;
            case Conflict =>
          }
      }
    }
    return false, added;
  }

  /** attnEndSession. */
  method AttnEndSession(d: Daemon, ref: string, owner: string) returns (silent: bool, ghost added: seq<Exchange>)
    modifies d
    ensures d.trace == old(d.trace) + added
    ensures Ran(End(owner), added, !UsableRef(ref) || owner == "", silent) && d.faults >= old(d.faults)
    ensures d.calm ==> d.faults == old(d.faults)
    ensures d.faults == old(d.faults) ==>
      Quiet(End(owner), !UsableRef(ref) || owner == "", old(d.issue), d.issue, silent)
  {
    hide Quiet, Accepted;
    added := [];
    QuietlyIgnored(End(owner), d.issue);
    if !UsableRef(ref) || owner == "" {
      return true, [];
    }
    for i := 0 to ATTEMPTS
      invariant d.trace == old(d.trace) + added
      invariant Follows(End(owner), Looking(0), added, if i < ATTEMPTS then Looking(i) else Done(false))
      invariant if i == 0 then d.issue == old(d.issue) && d.faults == old(d.faults) else d.faults > old(d.faults)
      invariant d.calm ==> d.faults == old(d.faults)
    {
      var seen := d.Look();
      ghost var looked := d.issue;
      QuietLookup(End(owner), i, seen, looked, d.faults == old(d.faults));
      added := Extend(End(owner), Looking(i), added, Looked(seen));
      match seen {
        case Transient => return false, added;
        case Gone => return true, added;
        case Open(attention, session, revision) =>
          if session != owner {
            return true, added;
          }
          var patch := map[SESSION := ENDED + owner];
          if attention == OK {
            patch := patch[ATTENTION := NEEDS_HUMAN][MESSAGE := HANDOFF];
          }
          assert patch == PatchFor(End(owner), seen);
          var result, before, landed := d.SetMetaIfRevision(patch, revision);
          added := Extend(End(owner), Writing(i, seen), added, Wrote(patch, revision, result));
          QuietWrite(End(owner), i, seen, looked, d.issue, result, landed, d.faults == old(d.faults));
          match result {
            case Applied => return true, added;
            case Failed => return false, added;
            case Conflict =>
          }
      }
    }
    return false, added;
  }

  /** attnStart, the legacy start. */
  method AttnStart(d: Daemon, ref: string) returns (ghost added: seq<Exchange>)
    modifies d
    ensures d.trace == old(d.trace) + added
    ensures Ran(LegacyStart, added, !UsableRef(ref), true) && d.faults >= old(d.faults)
    ensures d.calm ==> d.faults == old(d.faults)
    ensures d.faults == old(d.faults) ==> Quiet(LegacyStart, !UsableRef(ref), old(d.issue), d.issue, true)
  {
    hide Quiet, Accepted;
    added := [];
    QuietlyIgnored(LegacyStart, d.issue);
    if !UsableRef(ref) {
      return [];
    }
    for i := 0 to ATTEMPTS
      invariant d.trace == old(d.trace) + added
      invariant Follows(LegacyStart, Looking(0), added, if i < ATTEMPTS then Looking(i) else Done(true))
      invariant if i == 0 then d.issue == old(d.issue) && d.faults == old(d.faults) else d.faults > old(d.faults)
      invariant d.calm ==> d.faults == old(d.faults)
    {
      var seen := d.Look();
      ghost var looked := d.issue;
      QuietLookup(LegacyStart, i, seen, looked, d.faults == old(d.faults));
      added := Extend(LegacyStart, Looking(i), added, Looked(seen));
      if !seen.Open? {
        return;
      }
      var result, before, landed := d.SetMetaIfRevision(map[ATTENTION := OK], seen.revision);
      added := Extend(LegacyStart, Writing(i, seen), added, Wrote(map[ATTENTION := OK], seen.revision, result));
      QuietWrite(LegacyStart, i, seen, looked, d.issue, result, landed, d.faults == old(d.faults));
      if result != Conflict {
        return;
      }
    }
  }

  /** attnEnd, the legacy end. */
  method AttnEnd(d: Daemon, ref: string) returns (ghost added: seq<Exchange>)
    modifies d
    ensures d.trace == old(d.trace) + added
    ensures Ran(LegacyEnd, added, !UsableRef(ref), true) && d.faults >= old(d.faults)
    ensures d.calm ==> d.faults == old(d.faults)
    ensures d.faults == old(d.faults) ==> Quiet(LegacyEnd, !UsableRef(ref), old(d.issue), d.issue, true)
  {
    hide Quiet, Accepted;
    added := [];
    QuietlyIgnored(LegacyEnd, d.issue);
    if !UsableRef(ref) {
      return [];
    }
    for i := 0 to ATTEMPTS
      invariant d.trace == old(d.trace) + added
      invariant Follows(LegacyEnd, Looking(0), added, if i < ATTEMPTS then Looking(i) else Done(true))
      invariant if i == 0 then d.issue == old(d.issue) && d.faults == old(d.faults) else d.faults > old(d.faults)
      invariant d.calm ==> d.faults == old(d.faults)
    {
      var seen := d.Look();
      ghost var looked := d.issue;
      QuietLookup(LegacyEnd, i, seen, looked, d.faults == old(d.faults));
      added := Extend(LegacyEnd, Looking(i), added, Looked(seen));
      if !seen.Open? || seen.attention != OK {
        return;
      }
      var patch := map[ATTENTION := NEEDS_HUMAN, MESSAGE := HANDOFF];
      var result, before, landed := d.SetMetaIfRevision(patch, seen.revision);
      added := Extend(LegacyEnd, Writing(i, seen), added, Wrote(patch, seen.revision, result));
      QuietWrite(LegacyEnd, i, seen, looked, d.issue, result, landed, d.faults == old(d.faults));
      if result != Conflict {
        return;
      }
    }
  }

  function Next(p: Program, pc: Pc, e: Exchange): Pc {
    match pc
    case Looking(tries) => if e.Looked? then AfterLookup(p, tries, e.seen) else pc
    case Writing(tries, _) => if e.Wrote? then AfterWrite(p, tries, e.result) else pc
    case Done(_) => pc
  }

  /** One more exchange of a call that stands at `pc`. */
  ghost method Extend(p: Program, pc: Pc, trace: seq<Exchange>, e: Exchange) returns (longer: seq<Exchange>)
    requires Follows(p, Looking(0), trace, pc) && Follows(p, pc, [e], Next(p, pc, e))
    ensures longer == trace + [e] && Follows(p, Looking(0), longer, Next(p, pc, e))
  {
    FollowsThen(p, Looking(0), trace, pc, [e], Next(p, pc, e));
    longer := trace + [e];
  }

  // ---------------------------------------------------------------------
  // How a call ends
  // ---------------------------------------------------------------------

  /** The last exchange of a session call that has nothing left to do. */
  predicate Settles(p: Program, e: Exchange)
    requires Reports(p)
  {
    match e
    case Wrote(_, _, result) => result == Applied
    case Looked(seen) => seen.Gone? || (seen.Open? && (seen.session == p.owner <==> p.Start?))
  }

  function Conflicts(trace: seq<Exchange>): nat {
    if trace == [] then 0
    else (if trace[0].Wrote? && trace[0].result == Conflict then 1 else 0) + Conflicts(trace[1..])
  }

  /** A fault of the daemon, or writes refused too often. */
  predicate Troubled(trace: seq<Exchange>, attempts: nat)
    requires trace != []
  {
    var last := trace[|trace| - 1];
    last == Looked(Transient) || (last.Wrote? && last.result == Failed) ||
    (last.Wrote? && last.result == Conflict && Conflicts(trace) == attempts)
  }

  function Tries(pc: Pc): nat {
    if pc.Done? then 0 else pc.tries
  }

  lemma {:induction false} EndsWell(p: Program, pc: Pc, trace: seq<Exchange>, silent: bool)
    requires Reports(p) && !pc.Done? && Tries(pc) < ATTEMPTS && Follows(p, pc, trace, Done(silent))
    ensures trace != [] && (silent <==> Settles(p, trace[|trace| - 1]))
    ensures !silent ==> Troubled(trace, ATTEMPTS - Tries(pc))
    decreases |trace|
  {
    var e := trace[0];
    var next := if pc.Looking? then AfterLookup(p, pc.tries, e.seen) else AfterWrite(p, pc.tries, e.result);
    if next.Done? {
      assert trace[1..] == [] && Conflicts(trace[1..]) == 0 && trace[|trace| - 1] == e;
    } else {
      EndsWell(p, next, trace[1..], silent);
      assert trace[1..][|trace| - 2] == trace[|trace| - 1];
    }
  }

  /** A start or an end returns nil exactly if its last write took effect, or
      its last lookup showed an issue that is gone, or, for a start, its own
      session and, for an end, another. An error means that the daemon failed,
      or that both writes met a newer revision. */
  lemma NilMeansSettled(p: Program, trace: seq<Exchange>, silent: bool)
    requires Reports(p) && Follows(p, Looking(0), trace, Done(silent))
    ensures trace != [] && (silent <==> Settles(p, trace[|trace| - 1])) && (!silent ==> Troubled(trace, ATTEMPTS))
  {
    EndsWell(p, Looking(0), trace, silent);
  }

  /** The last exchange of a legacy call with nothing left to do, faults apart. */
  predicate LegacySettles(p: Program, e: Exchange) {
    match e
    case Wrote(_, _, result) => result == Applied
    case Looked(seen) => seen.Gone? || (seen.Open? && p.LegacyEnd? && seen.attention != OK)
  }

  lemma {:induction false} LegacyEndsWell(p: Program, pc: Pc, trace: seq<Exchange>)
    requires !Reports(p) && !pc.Done? && Tries(pc) < ATTEMPTS && Follows(p, pc, trace, Done(true))
    ensures trace != []
    ensures LegacySettles(p, trace[|trace| - 1]) || Troubled(trace, ATTEMPTS - Tries(pc))
    decreases |trace|
  {
    var e := trace[0];
    var next := if pc.Looking? then AfterLookup(p, pc.tries, e.seen) else AfterWrite(p, pc.tries, e.result);
    if next.Done? {
      assert trace[1..] == [] && Conflicts(trace[1..]) == 0 && trace[|trace| - 1] == e;
    } else {
      LegacyEndsWell(p, next, trace[1..]);
      assert trace[1..][|trace| - 2] == trace[|trace| - 1];
    }
  }

  /** A legacy call stops only at a write that took effect, a gone issue, for
      an end an attention other than "ok", or trouble it keeps to itself. */
  lemma LegacyStopsWhenSettled(p: Program, trace: seq<Exchange>)
    requires !Reports(p) && Follows(p, Looking(0), trace, Done(true))
    ensures trace != [] && (LegacySettles(p, trace[|trace| - 1]) || Troubled(trace, ATTEMPTS))
  {
    LegacyEndsWell(p, Looking(0), trace);
  }

  // ---------------------------------------------------------------------
  // Any number of calls, interleaved with any other writers
  // ---------------------------------------------------------------------

  datatype Call = Call(program: Program, pc: Pc)

  datatype State = State(issue: Issue, calls: map<nat, Call>)

  datatype Event =
    | Begin(id: nat, program: Program)
    | Read(id: nat, seen: Lookup)
    | Write(id: nat, program: Program, patch: Patch, revision: nat, result: WriteResult, landed: bool, before: Issue,
      after: Issue)
    | Outside(before: Issue, after: Issue)

  ghost predicate Step(s: State, e: Event, t: State) {
    match e
    case Begin(id, program) =>
      id !in s.calls && t == s.(calls := s.calls[id := Call(program, Looking(0))])
    case Read(id, seen) =>
      id in s.calls && s.calls[id].pc.Looking? && (seen == Transient || seen == View(s.issue)) &&
      t == s.(calls := s.calls[id := s.calls[id].(pc := AfterLookup(s.calls[id].program, s.calls[id].pc.tries, seen))])
    case Write(id, program, patch, revision, result, landed, before, after) =>
      id in s.calls && s.calls[id].program == program && s.calls[id].pc.Writing? && s.calls[id].pc.seen.Open? &&
      patch == PatchFor(program, s.calls[id].pc.seen) && revision == s.calls[id].pc.seen.revision &&
      before == s.issue && Answer(before, patch, revision, result, landed, after) &&
      t == State(after, s.calls[id := Call(program, AfterWrite(program, s.calls[id].pc.tries, result))])
    case Outside(before, after) =>
      before == s.issue && (after == before || after.revision > before.revision) && t == s.(issue := after)
  }

  /** A run: the events, and the states before, between and after them. */
  ghost predicate IsRun(states: seq<State>, log: seq<Event>) {
    |states| == |log| + 1 && forall i :: 0 <= i < |log| ==> Step(states[i], log[i], states[i + 1])
  }

  /** A call about to write still knows the issue, or will be refused. */
  ghost predicate Informed(issue: Issue, c: Call) {
    c.pc.Writing? ==>
      c.pc.seen.Open? && c.pc.seen.revision <= issue.revision &&
      (c.pc.seen.revision == issue.revision ==> c.pc.seen == View(issue)) &&
      AfterLookup(c.program, c.pc.tries, c.pc.seen) == c.pc
  }

  ghost predicate Inv(s: State) {
    forall id :: id in s.calls ==> Informed(s.issue, s.calls[id])
  }

  /** What a landed write may do to the issue. */
  ghost predicate Rightful(e: Event) {
    e.Write? && e.landed ==>
      Accepted(e.before, e.patch, e.after) && e.before.open &&
      match e.program
      case Start(owner) => e.before.Get(SESSION) != owner && e.patch == map[ATTENTION := OK, SESSION := owner]
      case End(owner) =>
        e.before.Get(SESSION) == owner &&
        e.patch == (if e.before.Get(ATTENTION) == OK
                    then map[SESSION := ENDED + owner, ATTENTION := NEEDS_HUMAN, MESSAGE := HANDOFF]
                    else map[SESSION := ENDED + owner])
      case LegacyStart => e.patch == map[ATTENTION := OK]
      case LegacyEnd => e.before.Get(ATTENTION) == OK && e.patch == map[ATTENTION := NEEDS_HUMAN, MESSAGE := HANDOFF]
  }

  lemma StepKeepsInv(s: State, e: Event, t: State)
    requires Inv(s) && Step(s, e, t)
    ensures Inv(t) && Rightful(e)
  {
  }

  /** In every interleaving every landed write is rightful: an end takes effect
      only on an issue that its own session holds, and only turns "ok" into a
      hand-off. */
  lemma {:induction false} EveryWriteIsRightful(states: seq<State>, log: seq<Event>, n: nat)
    requires IsRun(states, log) && Inv(states[0]) && n <= |log|
    ensures Inv(states[n]) && forall i :: 0 <= i < n ==> Rightful(log[i])
  {
    if n > 0 {
      EveryWriteIsRightful(states, log, n - 1);
      StepKeepsInv(states[n - 1], log[n - 1], states[n - 1 + 1]);
    }
  }

  /** An attention value other than "ok" is never overwritten by an end, and no
      end ever writes another value than the hand-off. */
  lemma EndsKeepOtherAttention(states: seq<State>, log: seq<Event>, i: nat)
    requires IsRun(states, log) && Inv(states[0]) && i < |log|
    requires log[i].Write? && log[i].landed && (log[i].program.End? || log[i].program.LegacyEnd?)
    ensures var e := log[i];
            if e.before.Get(ATTENTION) == OK
            then e.after.Get(ATTENTION) == NEEDS_HUMAN && e.after.Get(MESSAGE) == HANDOFF
            else e.after.Get(ATTENTION) == e.before.Get(ATTENTION) && e.after.Get(MESSAGE) == e.before.Get(MESSAGE)
  {
    EveryWriteIsRightful(states, log, i + 1);
    assert Rightful(log[i]);
  }

  // ---------------------------------------------------------------------
  // Ownership over time
  // ---------------------------------------------------------------------

  /** `e` makes `owner` the recorded session. */
  predicate Stamps(e: Event, owner: string) {
    (e.Write? || e.Outside?) && e.before.Get(SESSION) != owner && e.after.Get(SESSION) == owner
  }

  /** `e` is a landed end by `owner` that hands the issue to a human. */
  predicate Escalates(e: Event, owner: string) {
    e.Write? && e.landed && e.program == End(owner) && e.before.Get(ATTENTION) == OK
  }

  predicate LandedEnd(e: Event, owner: string) {
    e.Write? && e.landed && e.program == End(owner)
  }

  function Count(log: seq<Event>, f: Event -> bool, n: nat): nat
    requires n <= |log|
  {
    if n == 0 then 0 else Count(log, f, n - 1) + if f(log[n - 1]) then 1 else 0
  }

  function Holding(issue: Issue, owner: string): nat {
    if issue.Get(SESSION) == owner then 1 else 0
  }

  /** Landed ends by an owner are paid for by the writes that made it the
      recorded session, whoever made them and whatever they reported. */
  lemma {:induction false} EndsArePaidFor(states: seq<State>, log: seq<Event>, owner: string, n: nat)
    requires IsRun(states, log) && Inv(states[0]) && n <= |log|
    ensures Count(log, e => LandedEnd(e, owner), n) + Holding(states[n].issue, owner)
            <= Count(log, e => Stamps(e, owner), n) + Holding(states[0].issue, owner)
  {
    if n > 0 {
      EndsArePaidFor(states, log, owner, n - 1);
      EveryWriteIsRightful(states, log, n);
      StepPays(states[n - 1], log[n - 1], states[n - 1 + 1], owner);
    }
  }

  lemma StepPays(s: State, e: Event, t: State, owner: string)
    requires Step(s, e, t) && Rightful(e)
    ensures (if LandedEnd(e, owner) then 1 else 0) + Holding(t.issue, owner)
            <= (if Stamps(e, owner) then 1 else 0) + Holding(s.issue, owner)
  {
    if LandedEnd(e, owner) {
      assert e.after.Get(SESSION) == ENDED + owner;
      assert |ENDED + owner| > |owner|;
    }
  }

  /** Once another session holds the issue, an owner that is not stamped again
      never gets an end through, and never becomes the session again. */
  lemma {:induction false} SupersededOwnerIsPowerless(states: seq<State>, log: seq<Event>, owner: string, from: nat,
      n: nat)
    requires IsRun(states, log) && Inv(states[0]) && from <= n <= |log|
    requires states[from].issue.Get(SESSION) != owner
    requires forall i :: from <= i < n ==> !Stamps(log[i], owner)
    ensures states[n].issue.Get(SESSION) != owner
    ensures forall i :: from <= i < n ==> !LandedEnd(log[i], owner)
  {
    if from < n {
      SupersededOwnerIsPowerless(states, log, owner, from, n - 1);
      EveryWriteIsRightful(states, log, n);
      var s, e, t := states[n - 1], log[n - 1], states[n - 1 + 1];
      assert Step(s, e, t) && Rightful(e) && !Stamps(e, owner);
    }
  }

  /** The stamps of an owner are its own landed starts, provided no other
      writer records it and it is not itself of the form "ended:...". */
  predicate LandedStart(e: Event, owner: string) {
    e.Write? && e.landed && e.program == Start(owner)
  }

  lemma {:induction false} StampsAreStarts(states: seq<State>, log: seq<Event>, owner: string, n: nat)
    requires IsRun(states, log) && Inv(states[0]) && n <= |log|
    requires forall i :: 0 <= i < |log| && log[i].Outside? ==> !Stamps(log[i], owner)
    requires !(ENDED <= owner)
    ensures Count(log, e => Stamps(e, owner), n) <= Count(log, e => LandedStart(e, owner), n)
  {
    if n > 0 {
      StampsAreStarts(states, log, owner, n - 1);
      EveryWriteIsRightful(states, log, n);
      var e := log[n - 1];
      assert Step(states[n - 1], e, states[n - 1 + 1]) && Rightful(e);
      if e.Write? && e.landed && e.program.End? {
        assert e.after.Get(SESSION) == ENDED + e.program.owner;
        assert ENDED <= ENDED + e.program.owner;
      }
    }
  }

  lemma {:induction false} FewerIfImplied(log: seq<Event>, f: Event -> bool, g: Event -> bool, n: nat)
    requires n <= |log| && forall e :: f(e) ==> g(e)
    ensures Count(log, f, n) <= Count(log, g, n)
  {
    if n > 0 {
      FewerIfImplied(log, f, g, n - 1);
    }
  }

  /** Escalations by an owner never outnumber its starts that took effect, even
      when a start reported as failed actually landed. */
  lemma EscalationsNeverOutnumberStarts(states: seq<State>, log: seq<Event>, owner: string)
    requires IsRun(states, log) && Inv(states[0])
    requires states[0].issue.Get(SESSION) != owner && !(ENDED <= owner)
    requires forall i :: 0 <= i < |log| && log[i].Outside? ==> !Stamps(log[i], owner)
    ensures Count(log, e => Escalates(e, owner), |log|) <= Count(log, e => LandedStart(e, owner), |log|)
  {
    FewerIfImplied(log, e => Escalates(e, owner), e => LandedEnd(e, owner), |log|);
    EndsArePaidFor(states, log, owner, |log|);
    StampsAreStarts(states, log, owner, |log|);
  }

  lemma {:induction false} DoneStays(states: seq<State>, log: seq<Event>, id: nat, i: nat, j: nat)
    requires IsRun(states, log) && i <= j <= |log|
    requires id in states[i].calls && states[i].calls[id].pc.Done?
    ensures id in states[j].calls && states[j].calls[id].pc.Done?
  {
    if i < j {
      DoneStays(states, log, id, i, j - 1);
      assert Step(states[j - 1], log[j - 1], states[j - 1 + 1]);
    }
  }

  /** Every call gets at most one write through, so a retry never repeats a
      write that landed. */
  lemma EachCallLandsAtMostOnce(states: seq<State>, log: seq<Event>, i: nat, j: nat)
    requires IsRun(states, log) && i < j < |log|
    requires log[i].Write? && log[i].landed && log[j].Write?
    ensures log[i].id != log[j].id
  {
    assert Step(states[i], log[i], states[i + 1]) && Step(states[j], log[j], states[j + 1]);
    if log[i].id == log[j].id {
      DoneStays(states, log, log[i].id, i + 1, j);
    }
  }

  /** The requests of call `id` among the first `n` events. */
  ghost function Requests(log: seq<Event>, id: nat, n: nat): seq<Exchange>
    requires n <= |log|
  {
    if n == 0 then []
    else
      var e := log[n - 1];
      Requests(log, id, n - 1) +
      if e.Read? && e.id == id then [Looked(e.seen)]
      else if e.Write? && e.id == id then [Wrote(e.patch, e.revision, e.result)]
      else []
  }

  /** The calls of the system make exactly the requests that the four methods
      make: each follows its program from its first lookup on. */
  lemma {:induction false} CallsFollowTheirPrograms(states: seq<State>, log: seq<Event>, id: nat, n: nat)
    requires IsRun(states, log) && n <= |log| && states[0].calls == map[]
    ensures if id in states[n].calls then
              Follows(states[n].calls[id].program, Looking(0), Requests(log, id, n), states[n].calls[id].pc)
            else Requests(log, id, n) == []
  {
    if n > 0 {
      CallsFollowTheirPrograms(states, log, id, n - 1);
      var s, e, t := states[n - 1], log[n - 1], states[n - 1 + 1];
      assert Step(s, e, t);
      if (e.Read? || e.Write?) && e.id == id {
        var x := if e.Read? then Looked(e.seen) else Wrote(e.patch, e.revision, e.result);
        var c := s.calls[id];
        FollowsThen(c.program, Looking(0), Requests(log, id, n - 1), c.pc, [x], t.calls[id].pc);
      } else {
        assert Requests(log, id, n) == Requests(log, id, n - 1);
      }
    }
  }
}
