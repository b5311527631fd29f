/** The save loop of `kata cron edit` (cmd/kata/cron_edit.go). */
module CronEdit {
  import opened EditDocument
  import opened LineDiff
  import opened Options

  // The server is known only by its contract: every accepted write gives the
  // definition a new event, no event names two revisions, and a write is
  // accepted only while the event it expects is current. Between any two
  // requests any other client may write; a request whose answer is lost may or
  // may not have taken effect. The user's editor may leave anything in the
  // draft file. Parsing, canonical comparison and indentation of JSON are
  // functions that nothing is assumed about.

  /** One revision of the definition. */
  datatype Snapshot = Snapshot(event: string, body: string, deleted: bool)

  /** `parse` validates a draft and returns its normalized fields. */
  datatype Codec = Codec(parse: string -> Option<string>, same: (string, string) -> bool, pretty: string -> string)

  /** What a PUT is answered with: saved (the response may fail to decode), 409
      with perhaps the current revision, 400, or anything else. */
  datatype Answer = Confirmed(decodes: bool) | Conflicted(current: Option<Snapshot>) | Rejected | Lost

  /** What the user and the server see, in order. A PUT expects the event of the
      revision it was prepared against. */
  datatype Note =
    | Opened(buffer: string)
    | ConflictShown(from: string, to: string, current: Snapshot, buffer: string)
    | ErrorShown(buffer: string)
    | Edited(content: string)
    | Put(fields: string, base: Snapshot, before: Snapshot, after: Snapshot, landed: bool, answer: Answer)

  /** The notes of a run, newest last. */
  datatype History = Start | Then(past: History, last: Note)

  predicate IsUid(s: string) {
    |s| == 26 && '\n' !in s
  }

  /** The notes shown above a draft that met a newer revision. */
  ghost function ConflictNotes(from: string, to: string): seq<string> {
    [CONFLICT_TEXT] + Display(Changes(DiffScript(Lines(from), Lines(to))))
  }

  // ---------------------------------------------------------------------
  // The outside world
  // ---------------------------------------------------------------------

  /** The server's answer contract. */
  ghost predicate Honest(fields: string, expected: string, before: Snapshot, after: Snapshot, landed: bool,
      answer: Answer)
  {
    && (if landed then before.event == expected && after.body == fields else after == before)
    && (answer.Confirmed? ==> landed)
    && (answer.Conflicted? || answer.Rejected? ==> !landed)
  }

  lemma NothingHappened(fields: string, expected: string, current: Snapshot)
    ensures Honest(fields, expected, current, current, false, Lost)
  {
  }

  lemma LostIsHonest(fields: string, expected: string, before: Snapshot, after: Snapshot, landed: bool, answer: Answer)
    requires Honest(fields, expected, before, after, landed, answer)
    ensures Honest(fields, expected, before, after, landed, Lost)
  {
  }

  class World {
    const resource: string
    const identity: string
    var current: Snapshot
    var known: map<string, Snapshot>
    /** How many more times the editor can be started. */
    var patience: nat
    var file: string
    /** The draft as the editor last left it. */
    ghost var draft: string
    ghost var log: History
    /** How often the editor, the file or the server has failed. */
    ghost var faults: nat
    /** How often other clients have written. */
    ghost var others: nat
    /** Whether nothing here ever fails, and nobody else ever writes. */
    const reliable: bool
    const alone: bool

    ghost predicate Valid()
      reads this
    {
      && (resource == "job" || resource == "workflow") && IsUid(identity)
      && current.event in known && known[current.event] == current
      && forall e :: e in known ==> IsUid(e) && known[e].event == e
    }

    /** Failures and other writes since there were so many of them. */
    ghost predicate Onward(f: nat, o: nat)
      reads this`faults, this`others
    {
      faults >= f && others >= o && (reliable ==> faults == f) && (alone ==> others == o)
    }

    method Others()
      requires Valid()
      modifies this`current, this`known, this`others
      ensures Valid() && Remembers(old(known)) && Onward(faults, old(others))
      ensures others == old(others) ==> current == old(current)
    {
      var next: Snapshot := *;
      if !alone && next.event !in known && IsUid(next.event) {
        current, known, others := next, known[next.event := next], others + 1;
      }
    }

    /** Whatever else may fail: reading the file, decoding, writing output. */
    method Try() returns (ok: bool)
      modifies this`faults
      ensures faults == old(faults) + (if ok then 0 else 1) && (reliable ==> ok)
    {
      ok := *;
      ok := ok || reliable;
      if !ok {
        faults := faults + 1;
      }
    }

    ghost predicate Remembers(before: map<string, Snapshot>)
      reads this`known
    {
      forall e :: e in before ==> e in known && known[e] == before[e]
    }

    /** `show`: fails, or returns the current revision. */
    method Show() returns (ok: bool, snapshot: Snapshot)
      requires Valid()
      modifies this`current, this`known, this`faults, this`others
      ensures Valid() && Remembers(old(known)) && Onward(old(faults), old(others))
      ensures faults == old(faults) + if ok then 0 else 1
      ensures ok ==> snapshot.event in known && known[snapshot.event] == snapshot == current
    {
      Others();
      ok := Try();
      snapshot := current;
    }

    /** What the server makes of a PUT that arrives. */
    method Receive(fields: string, expected: string) returns (answer: Answer, ghost before: Snapshot,
        ghost landed: bool)
      requires Valid()
      modifies this`current, this`known, this`others
      ensures Valid() && Remembers(old(known)) && Onward(faults, old(others))
      ensures reliable ==> answer != Confirmed(false)
      ensures !answer.Lost?
      ensures others == old(others) && old(current).event == expected ==> !answer.Conflicted?
      ensures others == old(others) && answer.Rejected? ==> current == old(current)
      ensures Honest(fields, expected, before, current, landed, answer)
      ensures before.event in known && known[before.event] == before
      ensures answer.Conflicted? && answer.current.Some? ==>
        answer.current.value.event in known && known[answer.current.value.event] == answer.current.value
    {
      Others();
      before := current;
      landed := false;
      var valid: bool, decodes: bool, attached: bool, next: string := *, *, *, *;
      if !valid || next in known || !IsUid(next) {
        answer := Rejected;
      } else if current.event != expected {
        answer := Conflicted(if attached then Some(current) else None);
      } else {
        current := Snapshot(next, fields, current.deleted);
        known := known[next := current];
        answer, landed := Confirmed(decodes || reliable), true;
      }
    }

    method Send(fields: string, expected: string, ghost base: Snapshot) returns (answer: Answer)
      requires Valid() && expected == base.event
      modifies this`current, this`known, this`log, this`faults, this`others
      ensures Valid() && Remembers(old(known)) && Onward(old(faults), old(others))
      ensures faults == old(faults) ==> answer.Conflicted? || answer.Rejected? || answer == Confirmed(true)
      ensures faults == old(faults) && others == old(others) && old(current).event == expected ==> !answer.Conflicted?
      ensures others == old(others) && answer.Rejected? ==> current == old(current)
      ensures log.Then? && log.past == old(log) && log.last.Put? && log.last.answer == answer
      ensures log.last.fields == fields && log.last.base == base
      ensures var put := log.last;
        && Honest(fields, expected, put.before, put.after, put.landed, answer)
        && put.before.event in known && known[put.before.event] == put.before
      ensures answer.Conflicted? && answer.current.Some? ==>
        answer.current.value.event in known && known[answer.current.value.event] == answer.current.value
    {
      hide Honest;
      ghost var before := current;
      ghost var landed := false;
      answer := Lost;
      var arrives: bool, answered: bool := *, *;
      arrives, answered := arrives || reliable, answered || reliable;
      if arrives {
        answer, before, landed := Receive(fields, expected);
      } else {
        NothingHappened(fields, expected, current);
      }
      if !answered {
        LostIsHonest(fields, expected, before, current, landed, answer);
        answer := Lost;
      }
      if answer == Lost || answer == Confirmed(false) {
        faults := faults + 1;
      }
      log := Then(log, Put(fields, base, before, current, landed, answer));
    }

    /** The user's editor; it may fail, and it may save anything. */
    method RunEditor() returns (ok: bool)
      requires patience > 0
      modifies this`patience, this`file, this`draft, this`log, this`faults
      ensures patience == old(patience) - 1 && draft == Split(file).body
      ensures log == if ok then Then(old(log), Edited(file)) else old(log)
      ensures faults == old(faults) + (if ok then 0 else 1) && (reliable ==> ok)
    {
      ok := Try();
      file, patience := *, patience - 1;
      draft := Split(file).body;
      if ok {
        log := Then(log, Edited(file));
      }
    }

    /** writeCronEditFile: replaces the whole file or leaves it as it was. */
    method WriteFile(content: string) returns (ok: bool)
      modifies this`file, this`faults
      ensures file == if ok then content else old(file)
      ensures faults == old(faults) + (if ok then 0 else 1) && (reliable ==> ok)
    {
      ok := Try();
      if ok {
        file := content;
      }
    }
  }

  // ---------------------------------------------------------------------
  // What a run may do
  // ---------------------------------------------------------------------

  /** Somewhere the revision `target` was shown under a CONFLICT line, and the
      user's next save no longer had that line. */
  ghost predicate Acknowledged(log: History, target: Snapshot) {
    log.Then? && (Acknowledged(log.past, target) || JustAcknowledged(log, target))
  }

  ghost predicate JustAcknowledged(log: History, target: Snapshot) {
    && log.Then? && log.last.Edited? && !Split(log.last.content).conflict
    && log.past.Then? && Warned(log.past.last, target)
  }

  ghost predicate Warned(note: Note, target: Snapshot) {
    note.ConflictShown? && note.current == target && Split(note.buffer).conflict
  }

  /** The newest revision the user has been shown. */
  function Newest(log: History, opening: Snapshot): Snapshot {
    if log == Start then opening
    else if log.last.ConflictShown? then log.last.current
    else Newest(log.past, opening)
  }

  /** The one revision the draft may replace: the newest one shown, if it is the
      opening one or has been acknowledged. */
  ghost predicate Replaceable(log: History, opening: Snapshot, target: Snapshot) {
    target == Newest(log, opening) && (target == opening || Acknowledged(log, target))
  }

  /** The CONFLICT line was left in the draft. */
  ghost predicate KeptLine(log: History) {
    log.Then? && log.last.Edited? && Split(log.last.content).conflict && log.past.Then? && log.past.last.ConflictShown?
  }

  /** The draft was reopened under an error and saved as it was. */
  ghost predicate Repeated(log: History) {
    && log.Then? && log.last.Edited? && log.past.Then? && log.past.last.ErrorShown?
    && Split(log.last.content).body == Split(log.past.last.buffer).body
  }

  /** After these notes the run is over: a PUT that took effect or whose answer
      was lost, or a save that emptied the draft, left the CONFLICT line in
      place, or repeated the draft as it was reopened under an error. */
  ghost predicate Final(log: History) {
    log.Then? &&
    match log.last
    case Put(_, _, _, _, landed, answer) => landed || answer.Lost?
    case Edited(content) => TrimSpace(Split(content).body) == [] || KeptLine(log) || Repeated(log)
    case _ => false
  }

  /** The diff from the base of the refused PUT to the current revision, which
      is the one its answer carried if it carried any, above the draft. */
  ghost predicate ShowsConflict(note: Note, put: Note, resource: string, identity: string, codec: Codec,
      draft: string)
  {
    && note.ConflictShown? && put.Put? && put.answer.Conflicted?
    && codec.parse(put.base.body) == Some(note.from)
    && (put.answer.current.Some? ==> note.current == put.answer.current.value)
    && !note.current.deleted
    && note.buffer == Buffer(resource, identity, note.current.event, draft,
                             ConflictNotes(codec.pretty(note.from), codec.pretty(note.to)))
    && Split(note.buffer) == Document(draft, true)
    && codec.parse(note.current.body) == Some(note.to)
  }

  ghost predicate EditedTo(log: History, draft: string) {
    log.Then? && log.last.Edited? && Split(log.last.content).body == draft
  }

  ghost predicate RefusedFor(log: History, draft: string) {
    log.Then? && log.last.Put? && log.last.answer.Conflicted? && EditedTo(log.past, draft)
  }

  /** The revision holds what these fields would make of it. */
  predicate SameContent(codec: Codec, revision: Snapshot, fields: string) {
    codec.parse(revision.body).Some? && codec.same(codec.parse(revision.body).value, fields)
  }

  /** A buffer is open for the user to edit. */
  ghost predicate Waiting(log: History) {
    log.Then? && (log.last.Opened? || log.last.ConflictShown? || log.last.ErrorShown?)
  }

  /** The draft was saved but is not valid, or the server has rejected it. */
  ghost predicate InvalidFor(log: History, draft: string, codec: Codec) {
    (EditedTo(log, draft) && codec.parse(draft).None?) ||
    (log.Then? && log.last.Put? && log.last.answer.Rejected? && EditedTo(log.past, draft))
  }

  /** What may come next. A PUT sends the fields of the draft just saved, which
      change a replaceable revision, and that is what it replaces if it takes
      effect. */
  ghost predicate NoteOk(history: History, note: Note, opening: Snapshot, resource: string, identity: string,
      codec: Codec)
  {
    !Final(history) &&
    match note
    case Put(fields, base, before, after, landed, answer) =>
      && Honest(fields, base.event, before, after, landed, answer)
      && (exists draft: string :: EditedTo(history, draft) && codec.parse(draft) == Some(fields))
      && Replaceable(history, opening, base) && (landed ==> before == base)
      && !SameContent(codec, base, fields)
    case ConflictShown(_, _, _, _) =>
      exists draft: string ::
        RefusedFor(history, draft) && ShowsConflict(note, history.last, resource, identity, codec, draft)
    case Opened(buffer) =>
      history == Start && codec.parse(opening.body).Some? &&
      buffer == Buffer(resource, identity, opening.event, codec.pretty(codec.parse(opening.body).value), [])
    case ErrorShown(buffer) =>
      exists draft: string, message: string ::
        InvalidFor(history, draft, codec) && Split(buffer).body == draft &&
        buffer == Buffer(resource, identity, Newest(history, opening).event, draft, [message])
    case Edited(_) => Waiting(history)
  }

  /** Every note is justified by the ones before it. */
  ghost predicate Safe(log: History, opening: Snapshot, resource: string, identity: string, codec: Codec) {
    log.Then? ==>
      Safe(log.past, opening, resource, identity, codec) &&
        NoteOk(log.past, log.last, opening, resource, identity, codec)
  }

  /** The loop's own knowledge between two rounds. */
  ghost predicate Ready(w: World, codec: Codec, opening: Snapshot, base: Snapshot, conflictReopen: bool)
    reads w
  {
    && w.Valid()
    && Safe(w.log, opening, w.resource, w.identity, codec) && !Final(w.log) && Waiting(w.log)
    && Split(w.file).body == w.draft
    && base.event in w.known && w.known[base.event] == base
    && if conflictReopen then
         w.log.Then? && Warned(w.log.last, base) && base == Newest(w.log, opening)
       else
         Replaceable(w.log, opening, base) && (w.log.Then? ==> !w.log.last.ConflictShown?)
  }

  /** The state after the editor has saved `content`. */
  ghost predicate Drafted(w: World, codec: Codec, opening: Snapshot, base: Snapshot, draft: string)
    reads w
  {
    && w.Valid()
    && Safe(w.log, opening, w.resource, w.identity, codec) && !Final(w.log)
    && Split(w.file).body == w.draft == draft
    && base.event in w.known && w.known[base.event] == base
    && Replaceable(w.log, opening, base)
    && EditedTo(w.log, draft)
  }

  /** What holds whenever the run ends. */
  ghost predicate Ended(w: World, codec: Codec, opening: Snapshot)
    reads w
  {
    w.Valid() && Safe(w.log, opening, w.resource, w.identity, codec) && Split(w.file).body == w.draft
  }

  /** The revision met by the PUT is deleted or not valid: the one attached to
      the refusal, or else one read afterwards. */
  ghost predicate DeadEnd(log: History, known: map<string, Snapshot>, codec: Codec) {
    && log.Then? && log.last.Put? && log.last.answer.Conflicted?
    && (exists e ::
         && e in known && (known[e].deleted || codec.parse(known[e].body).None?)
         && (log.last.answer.current.Some? ==> log.last.answer.current.value == known[e]))
  }

  /** No request met the work of another client. */
  predicate Alone(log: History) {
    log.Then? ==> Alone(log.past) && !log.last.ConflictShown? && !(log.last.Put? && log.last.answer.Conflicted?)
  }

  /** Why a run in which nothing failed may end with an error. */
  ghost predicate Explained(log: History, known: map<string, Snapshot>, codec: Codec, patience: nat) {
    KeptLine(log) || Repeated(log) || DeadEnd(log, known, codec) || (patience == 0 && Waiting(log))
  }

  datatype Opening = Quit(err: bool) | Draft(draft: string)

  /** The save empties the draft, leaves the CONFLICT line in or repeats. */
  ghost predicate Ends(log: History, content: string, conflictReopen: bool)
    requires log.Then?
  {
    || TrimSpace(Split(content).body) == []
    || (conflictReopen && Split(content).conflict)
    || (log.last.ErrorShown? && Split(content).body == Split(log.last.buffer).body)
  }

  lemma SavedIsSafe(log: History, content: string, opening: Snapshot, resource: string, identity: string, codec: Codec)
    requires Safe(log, opening, resource, identity, codec) && !Final(log) && Waiting(log)
    ensures Safe(Then(log, Edited(content)), opening, resource, identity, codec)
  {
    hide Split, Final, Waiting, Newest;
  }

  lemma SavedIsFinal(log: History, content: string, conflictReopen: bool)
    requires Waiting(log) && (conflictReopen <==> log.last.ConflictShown?)
    ensures Final(Then(log, Edited(content))) <==> Ends(log, content, conflictReopen)
  {
    hide Split, TrimSpace, Newest;
  }

  lemma SavedReplaces(log: History, content: string, opening: Snapshot, base: Snapshot, conflictReopen: bool)
    requires log.Then?
    requires if conflictReopen then Warned(log.last, base) && base == Newest(log, opening)
             else Replaceable(log, opening, base)
    requires !(conflictReopen && Split(content).conflict)
    ensures Replaceable(Then(log, Edited(content)), opening, base)
  {
    hide Split;
    if conflictReopen {
      assert JustAcknowledged(Then(log, Edited(content)), base);
    }
  }

  /** A save in the editor, and when it ends the run. */
  lemma SavedKeepsSafe(log: History, content: string, opening: Snapshot, base: Snapshot, resource: string,
      identity: string, codec: Codec, conflictReopen: bool)
    requires Safe(log, opening, resource, identity, codec) && !Final(log) && Waiting(log)
    requires if conflictReopen then Warned(log.last, base) && base == Newest(log, opening)
             else Replaceable(log, opening, base) && !log.last.ConflictShown?
    ensures var next := Then(log, Edited(content));
      && Safe(next, opening, resource, identity, codec)
      && ((conflictReopen && Split(content).conflict) || Replaceable(next, opening, base))
      && (Final(next) <==> Ends(log, content, conflictReopen))
  {
    hide Split, Safe, Final, Replaceable, Newest, Ends;
    SavedIsSafe(log, content, opening, resource, identity, codec);
    SavedIsFinal(log, content, conflictReopen);
    if !(conflictReopen && Split(content).conflict) {
      SavedReplaces(log, content, opening, base, conflictReopen);
    }
  }

  /** One visit to the editor, up to the decision to submit. */
  method OpenEditor(w: World, ghost codec: Codec, ghost opening: Snapshot, ghost base: Snapshot,
                    retry: bool, previous: string, conflictReopen: bool)
    returns (r: Opening)
    requires Ready(w, codec, opening, base, conflictReopen) && w.patience > 0
    requires retry && !conflictReopen ==> w.log.last.ErrorShown? && Split(w.log.last.buffer).body == previous
    requires w.log.last.ErrorShown? ==> retry && !conflictReopen
    modifies w`patience, w`file, w`draft, w`log, w`faults
    ensures w.patience == old(w.patience) - 1 && w.Onward(old(w.faults), w.others)
    ensures Alone(old(w.log)) ==> Alone(w.log)
    ensures r.Quit? ==> Ended(w, codec, opening) && (!r.err ==> NothingToSave(w.log, opening, codec))
    ensures r.Quit? && r.err && w.faults == old(w.faults) ==> KeptLine(w.log) || Repeated(w.log)
    ensures r.Draft? ==> Drafted(w, codec, opening, base, r.draft)
    ensures r.Draft? && retry && !conflictReopen ==> r.draft != previous
  {
    hide Split, Newest, ShowsConflict;
    ghost var shown := w.log;
    var ran := w.RunEditor();
    if !ran {
      return Quit(true);
    }
    SavedKeepsSafe(shown, w.file, opening, base, w.resource, w.identity, codec, conflictReopen);
    var readable := w.Try(); // readCronEditFile: the file may be unreadable or too long
    if !readable {
      return Quit(true);
    }
    var draft, marked := CronEditSplit(w.file);
    if TrimSpace(draft) == [] {
      return Quit(false);
    }
    if conflictReopen && marked {
      return Quit(true);
    }
    if retry && !conflictReopen && draft == previous {
      return Quit(true);
    }
    return Draft(draft);
  }

  /** The PUT was refused because another revision already has the content it
      sent: the one attached to the refusal, or else one read afterwards. */
  ghost predicate AlreadyThere(put: Note, known: map<string, Snapshot>, codec: Codec) {
    && put.Put? && put.answer.Conflicted?
    && (exists e ::
         && e in known && e != put.base.event && !known[e].deleted
         && SameContent(codec, known[e], put.fields)
         && (put.answer.current.Some? ==> put.answer.current.value == known[e]))
  }

  /** The draft is blank, or it says what the newest revision shown says. */
  ghost predicate NothingToSave(log: History, opening: Snapshot, codec: Codec) {
    && log.Then? && log.last.Edited?
    && var draft := Split(log.last.content).body;
      (TrimSpace(draft) == []
      || (codec.parse(draft).Some? && Replaceable(log, opening, Newest(log, opening)) &&
          SameContent(codec, Newest(log, opening), codec.parse(draft).value)))
  }

  /** What the command's result says: saved means that a PUT was confirmed, or
      refused because the very same content was already there; no error and not
      saved means that the last save in the editor left nothing to do. */
  ghost predicate Outcome(log: History, known: map<string, Snapshot>, opening: Snapshot, codec: Codec, err: bool,
      saved: bool)
  {
    && (saved ==> log.Then? && log.last.Put? && (log.last.answer.Confirmed? || AlreadyThere(log.last, known, codec)))
    && (!err && !saved ==> NothingToSave(log, opening, codec))
  }

  datatype Submission =
    | Stop(err: bool, saved: bool)
    | Invalid
    | Met(current: Option<Snapshot>, updated: string)

  /** Restore the header, validate, compare and PUT. */
  method Submit(w: World, codec: Codec, ghost opening: Snapshot, base: Snapshot, baseBody: string, draft: string)
    returns (r: Submission)
    requires Drafted(w, codec, opening, base, draft) && codec.parse(base.body) == Some(baseBody)
    modifies w`file, w`current, w`known, w`log, w`faults, w`others
    ensures Ended(w, codec, opening) && w.draft == old(w.draft) && w.Remembers(old(w.known))
    ensures w.Onward(old(w.faults), old(w.others))
    ensures r.Invalid? ==> !Final(w.log) && Replaceable(w.log, opening, base) && InvalidFor(w.log, draft, codec)
    ensures r.Stop? && w.faults == old(w.faults) ==> !r.err
    ensures w.faults == old(w.faults) && w.others == old(w.others) && old(w.current) == base && Alone(old(w.log)) ==>
              Alone(w.log) && !r.Met? && (r.Invalid? ==> w.current == base)
    ensures r.Met? ==> !Final(w.log) && RefusedFor(w.log, draft)
    ensures r.Met? ==>
      w.log.last.answer == Conflicted(r.current) && w.log.last.base == base && w.log.last.fields == r.updated
    ensures r.Met? && r.current.Some? ==>
              r.current.value.event in w.known && w.known[r.current.value.event] == r.current.value
    ensures r.Stop? ==> Outcome(w.log, w.known, opening, codec, r.err, r.saved)
  {
    hide Split, IsComment, Buffer, Newest, AlreadyThere;
    SplitLeavesNoComment(w.file);
    var kept := RestoreHeader(w, base.event, draft, []);
    if !kept {
      return Stop(true, false);
    }
    var fields := codec.parse(draft);
    if fields.None? {
      return Invalid;
    }
    var updated := fields.value;
    if codec.same(baseBody, updated) {
      return Stop(false, false);
    }
    ghost var before := w.log;
    var answer := w.Send(updated, base.event, base);
    JustifiesPut(before, w.log.last, draft, codec, opening, w.resource, w.identity, w.known);
    match answer {
      case Confirmed(decodes) => return Stop(!decodes, true);
      case Conflicted(current) => return Met(current, updated);
      case Rejected => return Invalid;
      case Lost => return Stop(true, false);
    }
  }

  lemma JustifiesPut(log: History, put: Note, draft: string, codec: Codec, opening: Snapshot,
      resource: string, identity: string, known: map<string, Snapshot>)
    requires !Final(log) && EditedTo(log, draft)
    requires put.Put? && codec.parse(draft) == Some(put.fields)
    requires Replaceable(log, opening, put.base) && !SameContent(codec, put.base, put.fields)
    requires Honest(put.fields, put.base.event, put.before, put.after, put.landed, put.answer)
    requires put.base.event in known && known[put.base.event] == put.base
    requires put.before.event in known && known[put.before.event] == put.before
    ensures NoteOk(log, put, opening, resource, identity, codec)
    ensures Replaceable(Then(log, put), opening, put.base)
  {
  }

  /** Write `body` back under a fresh header: the draft in it is unchanged. */
  method RestoreHeader(w: World, event: string, body: string, notes: seq<string>) returns (ok: bool)
    requires w.Valid() && IsUid(event) && !IsComment(body) && Split(w.file).body == body
    modifies w`file, w`faults
    ensures Split(w.file).body == body && w.faults == old(w.faults) + (if ok then 0 else 1) && (w.reliable ==> ok)
    ensures ok ==> w.file == Buffer(w.resource, w.identity, event, body, notes)
  {
    var buffer := CronEditBuffer(w.resource, w.identity, event, body, notes);
    BufferRoundTrip(w.resource, w.identity, event, body, notes);
    ok := w.WriteFile(buffer);
  }

  /** The run as it stands after a 409 for a PUT prepared against `base`. */
  ghost predicate Refused(w: World, codec: Codec, opening: Snapshot, base: Snapshot, draft: string)
    reads w
  {
    && w.Valid() && Safe(w.log, opening, w.resource, w.identity, codec) && !Final(w.log)
    && Split(w.file).body == w.draft == draft
    && RefusedFor(w.log, draft) && w.log.last.base == base
  }

  datatype Reopening = Over(err: bool, saved: bool) | Onto(base: Snapshot, body: string)

  /** editConflictCurrent and the decisions taken on its result: stop, or go on
      with the current revision and its normalized body. */
  method FindCurrent(w: World, codec: Codec, ghost opening: Snapshot, base: Snapshot, ghost draft: string,
                     attached: Option<Snapshot>, updated: string)
    returns (r: Reopening)
    requires Refused(w, codec, opening, base, draft)
    requires w.log.last.answer == Conflicted(attached) && w.log.last.fields == updated
    requires attached.Some? ==> attached.value.event in w.known && w.known[attached.value.event] == attached.value
    modifies w`current, w`known, w`faults, w`others
    ensures Refused(w, codec, opening, base, draft) && w.log == old(w.log)
    ensures w.Onward(old(w.faults), old(w.others))
    ensures r.Over? ==> Outcome(w.log, w.known, opening, codec, r.err, r.saved)
    ensures r.Over? && r.err && w.faults == old(w.faults) ==> !r.saved && DeadEnd(w.log, w.known, codec)
    ensures r.Onto? && attached.Some? ==> r.base == attached.value
    ensures r.Onto? ==> r.base.event in w.known && w.known[r.base.event] == r.base && !r.base.deleted
    ensures r.Onto? ==> codec.parse(r.base.body) == Some(r.body)
    ensures r.Onto? ==> r.base.event == base.event || !codec.same(r.body, updated)
  {
    var ok, current := true, base;
    if attached.Some? {
      ok := w.Try(); // decoding may fail
      current := attached.value;
    } else {
      ok, current := w.Show();
    }
    if !ok || current.deleted {
      return Over(true, false);
    }
    var fields := codec.parse(current.body);
    if fields.None? {
      return Over(true, false);
    }
    if current.event != base.event && codec.same(fields.value, updated) {
      var emitted := w.Try();
      return Over(!emitted, true);
    }
    return Onto(current, fields.value);
  }

  lemma NoticeAboveDraft(resource: string, identity: string, event: string, draft: string, diff: seq<string>)
    requires Named(resource, identity, event) && !IsComment(draft)
    ensures Split(Buffer(resource, identity, event, draft, [CONFLICT_TEXT] + diff)) == Document(draft, true)
  {
    BufferRoundTrip(resource, identity, event, draft, [CONFLICT_TEXT] + diff);
    ConflictIsShown(resource, identity, event, draft, diff);
  }

  /** Reopen the draft under a CONFLICT line and the diff from the old base to
      the current revision. */
  method ShowConflict(w: World, codec: Codec, ghost opening: Snapshot, ghost base: Snapshot, baseBody: string,
      draft: string, current: Snapshot, body: string)
    returns (written: bool)
    requires Refused(w, codec, opening, base, draft) && codec.parse(base.body) == Some(baseBody)
    requires w.log.last.answer.current.Some? ==> current == w.log.last.answer.current.value
    requires !current.deleted
    requires current.event in w.known && w.known[current.event] == current && codec.parse(current.body) == Some(body)
    modifies w`file, w`log, w`faults
    ensures Ended(w, codec, opening) && w.draft == old(w.draft)
    ensures written ==> Ready(w, codec, opening, current, true) && w.log.last.ConflictShown?
    ensures w.faults == old(w.faults) + (if written then 0 else 1) && (w.reliable ==> written)
  {
    hide Split, IsComment, Replaceable, ShowsConflict;
    SplitLeavesNoComment(w.file);
    ghost var note;
    written, note := WriteConflict(w, codec, w.log.last, baseBody, draft, current, body);
    if written {
      w.log := Then(w.log, note);
    }
  }

  method WriteConflict(w: World, codec: Codec, ghost put: Note, baseBody: string, draft: string, current: Snapshot,
      body: string)
    returns (written: bool, ghost note: Note)
    requires put.Put? && put.answer.Conflicted? && codec.parse(put.base.body) == Some(baseBody)
    requires put.answer.current.Some? ==> current == put.answer.current.value
    requires !current.deleted
    requires w.Valid() && IsUid(current.event) && !IsComment(draft) && Split(w.file).body == draft
    requires codec.parse(current.body) == Some(body)
    modifies w`file, w`faults
    ensures Split(w.file).body == draft
    ensures w.faults == old(w.faults) + (if written then 0 else 1) && (w.reliable ==> written)
    ensures note == ConflictShown(baseBody, body, current, w.file)
    ensures written ==> ShowsConflict(note, put, w.resource, w.identity, codec, draft) && Warned(note, current)
  {
    hide Split, IsComment, AddNotes, Header, LineEnd, Changes, DiffScript, Lines, Buffer;
    var from, to := codec.pretty(baseBody), codec.pretty(body);
    var diff := CronLineDiff(Lines(from), Lines(to));
    var buffer := CronEditBuffer(w.resource, w.identity, current.event, draft, [CONFLICT_TEXT] + diff);
    NoticeAboveDraft(w.resource, w.identity, current.event, draft, diff);
    written := w.WriteFile(buffer);
    note := ConflictShown(baseBody, body, current, w.file);
  }

  /** After an invalid draft: reopen it under the error. */
  method ReopenInvalid(w: World, ghost codec: Codec, ghost opening: Snapshot, base: Snapshot, draft: string)
    returns (written: bool)
    requires w.Valid() && Safe(w.log, opening, w.resource, w.identity, codec) && !Final(w.log)
    requires Split(w.file).body == w.draft == draft
    requires base.event in w.known && w.known[base.event] == base && Replaceable(w.log, opening, base)
    requires InvalidFor(w.log, draft, codec)
    modifies w`file, w`log, w`faults
    ensures Ended(w, codec, opening) && w.draft == old(w.draft)
    ensures written ==> Ready(w, codec, opening, base, false)
    ensures written ==> w.log.last.ErrorShown? && Split(w.log.last.buffer).body == draft
    ensures w.faults == old(w.faults) + (if written then 0 else 1) && (w.reliable ==> written)
    ensures Alone(old(w.log)) ==> Alone(w.log)
  {
    hide Split, IsComment, Replaceable, InvalidFor, Safe, Final, Buffer, Newest;
    var message: string := *; // "error: " and what the validation reported
    SplitLeavesNoComment(w.file);
    written := RestoreHeader(w, base.event, draft, [message]);
    if written {
      ErrorKeepsGoing(w.log, w.file, opening, base, w.resource, w.identity, codec, draft, message);
      w.log := Then(w.log, ErrorShown(w.file));
    }
  }

  lemma ErrorKeepsGoing(log: History, buffer: string, opening: Snapshot, base: Snapshot, resource: string,
      identity: string, codec: Codec, draft: string, message: string)
    requires Safe(log, opening, resource, identity, codec) && !Final(log) && Replaceable(log, opening, base)
    requires InvalidFor(log, draft, codec) && Split(buffer).body == draft
    requires buffer == Buffer(resource, identity, base.event, draft, [message])
    ensures Safe(Then(log, ErrorShown(buffer)), opening, resource, identity, codec)
    ensures !Final(Then(log, ErrorShown(buffer))) && Replaceable(Then(log, ErrorShown(buffer)), opening, base)
  {
  }

  /** After a 409: stop, or reopen the draft above the current revision. */
  method AfterConflict(w: World, codec: Codec, ghost opening: Snapshot, base: Snapshot, baseBody: string,
      draft: string, attached: Option<Snapshot>, updated: string)
    returns (r: Reopening)
    requires Refused(w, codec, opening, base, draft) && codec.parse(base.body) == Some(baseBody)
    requires w.log.last.answer == Conflicted(attached) && w.log.last.fields == updated
    requires attached.Some? ==> attached.value.event in w.known && w.known[attached.value.event] == attached.value
    modifies w`current, w`known, w`faults, w`others, w`file, w`log
    ensures Ended(w, codec, opening) && w.Onward(old(w.faults), old(w.others))
    ensures r.Over? ==> Outcome(w.log, w.known, opening, codec, r.err, r.saved)
    ensures r.Over? && r.err && w.faults == old(w.faults) ==> !r.saved && DeadEnd(w.log, w.known, codec)
    ensures r.Onto? ==> Ready(w, codec, opening, r.base, true) && codec.parse(r.base.body) == Some(r.body)
    ensures r.Onto? ==> w.log.last.ConflictShown?
  {
    hide Safe, Split, Final, Replaceable, RefusedFor, DeadEnd, AlreadyThere, NothingToSave, Newest, Warned;
    r := FindCurrent(w, codec, opening, base, draft, attached, updated);
    if r.Onto? {
      var written := ShowConflict(w, codec, opening, base, baseBody, draft, r.base, r.body);
      if !written {
        return Over(true, false);
      }
    }
  }

  datatype Round = Finished(err: bool, saved: bool) | Reopened(base: Snapshot, body: string, conflict: bool)

  /** One round of the loop, from the saved draft to its reopening. */
  method TakeDraft(w: World, codec: Codec, ghost opening: Snapshot, base: Snapshot, baseBody: string, draft: string)
    returns (r: Round)
    requires Drafted(w, codec, opening, base, draft) && codec.parse(base.body) == Some(baseBody)
    modifies w`file, w`current, w`known, w`log, w`faults, w`others
    ensures Ended(w, codec, opening) && w.Onward(old(w.faults), old(w.others))
    ensures r.Finished? ==> Outcome(w.log, w.known, opening, codec, r.err, r.saved)
    ensures r.Finished? && r.err && w.faults == old(w.faults) ==> !r.saved && DeadEnd(w.log, w.known, codec)
    ensures r.Reopened? ==> Ready(w, codec, opening, r.base, r.conflict) && codec.parse(r.base.body) == Some(r.body)
    ensures r.Reopened? ==> if r.conflict then w.log.last.ConflictShown?
      else w.log.last.ErrorShown? && Split(w.log.last.buffer).body == draft
    ensures w.faults == old(w.faults) && w.others == old(w.others) && old(w.current) == base && Alone(old(w.log)) ==>
              Alone(w.log) && (r.Reopened? ==> w.current == r.base)
  {
    hide NothingToSave, AlreadyThere, NoteOk, Safe, Split, Final, SameContent, Replaceable, RefusedFor, Warned, Newest,
      Alone, KeptLine, Repeated, DeadEnd, InvalidFor;
    var submission := Submit(w, codec, opening, base, baseBody, draft);
    match submission {
      case Stop(e, s) => return Finished(e, s);
      case Invalid =>
        var written := ReopenInvalid(w, codec, opening, base, draft);
        return if written then Reopened(base, baseBody, false) else Finished(true, false);
      case Met(current, updated) =>
        var reopening := AfterConflict(w, codec, opening, base, baseBody, draft, current, updated);
        match reopening {
          case Over(e, s) => return Finished(e, s);
          case Onto(newBase, body) => return Reopened(newBase, body, true);
        }
    }
  }

  /** The loop of cronCLIOptions.edit. */
  method EditLoop(w: World, codec: Codec, opening: Snapshot, openingBody: string) returns (err: bool, saved: bool)
    requires Ready(w, codec, opening, opening, false) && codec.parse(opening.body) == Some(openingBody)
    requires w.current == opening && Alone(w.log) && w.log.last.Opened?
    modifies w
    ensures w.faults == old(w.faults) && w.others == old(w.others) ==> Alone(w.log)
    ensures Ended(w, codec, opening) && Outcome(w.log, w.known, opening, codec, err, saved)
    ensures w.Onward(old(w.faults), old(w.others))
    ensures w.faults == old(w.faults) && err ==> !saved && Explained(w.log, w.known, codec, w.patience)
  {
    hide NothingToSave, AlreadyThere, NoteOk, Safe, Split, Final, SameContent, Replaceable, RefusedFor, Warned, Newest,
      Alone, KeptLine, Repeated, DeadEnd, InvalidFor, Drafted;
    var base, baseBody, retry, previous, conflictReopen := opening, openingBody, false, "", false;
    while w.patience > 0
      invariant Ready(w, codec, opening, base, conflictReopen)
      invariant retry && !conflictReopen ==> w.log.last.ErrorShown? && Split(w.log.last.buffer).body == previous
      invariant w.log.last.ErrorShown? ==> retry && !conflictReopen
      invariant w.Onward(old(w.faults), old(w.others))
      invariant w.faults == old(w.faults) && w.others == old(w.others) ==> Alone(w.log) && w.current == base
      invariant codec.parse(base.body) == Some(baseBody)
      decreases w.patience
    {
      var visit := OpenEditor(w, codec, opening, base, retry, previous, conflictReopen);
      if visit.Quit? {
        return visit.err, false;
      }
      var draft := visit.draft;
      var round := TakeDraft(w, codec, opening, base, baseBody, draft);
      if round.Finished? {
        return round.err, round.saved;
      }
      base, baseBody, conflictReopen := round.base, round.body, round.conflict;
      retry, previous := true, draft;
    }
    return true, false; // the editor could not be started
  }

  lemma FirstNote(buffer: string, opening: Snapshot, resource: string, identity: string, codec: Codec)
    requires codec.parse(opening.body).Some?
    requires buffer == Buffer(resource, identity, opening.event, codec.pretty(codec.parse(opening.body).value), [])
    ensures var log := Then(Start, Opened(buffer));
      Safe(log, opening, resource, identity, codec) && !Final(log) && Replaceable(log, opening, opening)
  {
    var log := Then(Start, Opened(buffer));
    assert Safe(Start, opening, resource, identity, codec) && !Final(Start);
    assert Newest(Start, opening) == opening;
    assert Newest(log, opening) == opening;
  }

  /** cronCLIOptions.edit: read the opening revision, write the first buffer,
      and run the loop. */
  method Edit(w: World, codec: Codec) returns (err: bool, saved: bool, ghost opening: Snapshot)
    requires w.Valid() && w.log == Start
    modifies w
    ensures w.Valid() && Safe(w.log, opening, w.resource, w.identity, codec)
    ensures w.log.Then? ==> Split(w.file).body == w.draft
    ensures Outcome(w.log, w.known, opening, codec, err, saved)
    ensures w.Onward(old(w.faults), old(w.others))
    ensures w.faults == old(w.faults) && w.others == old(w.others) ==> Alone(w.log)
    ensures w.faults == old(w.faults) && err ==>
      !saved && if w.log == Start then opening.deleted || codec.parse(opening.body).None?
                else Explained(w.log, w.known, codec, w.patience)
  {
    hide NoteOk, NothingToSave, AlreadyThere, Buffer, Final, Split, SameContent;
    var ok, base := w.Show();
    opening := base;
    if !ok || base.deleted {
      return true, false, base;
    }
    var fields := codec.parse(base.body);
    if fields.None? {
      return true, false, base;
    }
    var buffer := CronEditBuffer(w.resource, w.identity, base.event, codec.pretty(fields.value), []);
    var written := w.WriteFile(buffer);
    if !written {
      return true, false, base;
    }
    w.draft := Split(w.file).body;
    w.log := Then(Start, Opened(w.file));
    FirstNote(w.file, base, w.resource, w.identity, codec);
    err, saved := EditLoop(w, codec, base, fields.value);
  }

  // ---------------------------------------------------------------------
  // Whole runs
  // ---------------------------------------------------------------------

  /** `part` is the run as it was at some earlier time. */
  ghost predicate Earlier(part: History, log: History) {
    part == log || (log.Then? && Earlier(part, log.past))
  }

  lemma {:induction false} SafeEarlier(part: History, log: History, opening: Snapshot, resource: string,
      identity: string, codec: Codec)
    requires Safe(log, opening, resource, identity, codec) && Earlier(part, log)
    ensures Safe(part, opening, resource, identity, codec)
    ensures part != log ==> !Final(part)
  {
    if part != log {
      SafeEarlier(part, log.past, opening, resource, identity, codec);
    }
  }

  // ---------------------------------------------------------------------
  // What a save in the editor leads to
  // ---------------------------------------------------------------------

  /** The run up to the newest save in the editor. */
  function Drafting(log: History): History {
    if log == Start || log.last.Edited? then log else Drafting(log.past)
  }

  lemma {:induction false} DraftingIsEarlier(log: History)
    ensures Drafting(log) == Start || (Earlier(Drafting(log), log) && Drafting(log).last.Edited?)
  {
    if log.Then? && !log.last.Edited? {
      DraftingIsEarlier(log.past);
    }
  }

  lemma {:induction false} NoteBehind(part: History, log: History) returns (next: History)
    requires Earlier(part, log) && part != log
    ensures Earlier(next, log) && next.Then? && next.past == part
  {
    if log.past == part {
      next := log;
      assert Earlier(log, log);
    } else {
      next := NoteBehind(part, log.past);
    }
  }

  /** How a run ends in which nothing failed. */
  ghost predicate Faultless(log: History, known: map<string, Snapshot>, patience: nat, opening: Snapshot, codec: Codec,
      err: bool, saved: bool)
  {
    Outcome(log, known, opening, codec, err, saved) && (err ==> !saved && Explained(log, known, codec, patience))
  }

  /** The draft last saved is not blank, is valid, and differs from the newest
      revision shown. */
  ghost predicate WorthSending(log: History, opening: Snapshot, codec: Codec, fields: string) {
    && log.Then? && log.last.Edited?
    && var draft := Split(log.last.content).body;
      TrimSpace(draft) != [] && codec.parse(draft) == Some(fields) &&
      !SameContent(codec, Newest(log, opening), fields)
  }

  /** In a run in which nothing failed, the draft last saved is sent if it is
      worth sending, unless its CONFLICT line was left in or it was saved again
      as it had been reopened under an error. */
  lemma ValidDraftIsSent(log: History, known: map<string, Snapshot>, patience: nat, opening: Snapshot, codec: Codec,
      resource: string, identity: string, err: bool, saved: bool, fields: string)
    returns (next: History)
    requires Safe(log, opening, resource, identity, codec)
    requires Faultless(log, known, patience, opening, codec, err, saved)
    requires WorthSending(Drafting(log), opening, codec, fields)
    requires !KeptLine(Drafting(log)) && !Repeated(Drafting(log))
    ensures Earlier(next, log) && next.Then? && next.past == Drafting(log)
    ensures next.last.Put? && next.last.fields == fields && next.last.base == Newest(Drafting(log), opening)
  {
    hide Split, Replaceable, TrimSpace, Honest;
    DraftingIsEarlier(log);
    assert Drafting(log) != log;
    next := NoteBehind(Drafting(log), log);
    SafeEarlier(next, log, opening, resource, identity, codec);
    ReplacesNewest(next.past, next.last, opening, resource, identity, codec);
  }

  lemma ReplacesNewest(log: History, note: Note, opening: Snapshot, resource: string, identity: string, codec: Codec)
    requires NoteOk(log, note, opening, resource, identity, codec)
    ensures note.Put? ==> note.base == Newest(log, opening)
  {
  }

  ghost predicate NeverRejected(log: History) {
    log.Then? ==> NeverRejected(log.past) && !(log.last.Put? && log.last.answer.Rejected?)
  }

  lemma {:induction false} NewestAlone(log: History, opening: Snapshot)
    requires Alone(log)
    ensures Newest(log, opening) == opening
  {
    if log.Then? {
      NewestAlone(log.past, opening);
    }
  }

  lemma {:induction false} AloneEarlier(part: History, log: History)
    requires Earlier(part, log) && Alone(log) && NeverRejected(log)
    ensures Alone(part) && NeverRejected(part)
  {
    if part != log {
      AloneEarlier(part, log.past);
    }
  }

  /** A draft reopened under an error had not been valid. */
  lemma ReopenedWasInvalid(log: History, opening: Snapshot, resource: string, identity: string, codec: Codec)
    requires Safe(log, opening, resource, identity, codec) && NeverRejected(log) && Repeated(log)
    ensures codec.parse(Split(log.last.content).body).None?
  {
    hide Split, Replaceable, Honest, ShowsConflict;
    assert NoteOk(log.past.past, log.past.last, opening, resource, identity, codec);
    assert NeverRejected(log.past) && NeverRejected(log.past.past);
  }

  /** If nothing fails, nobody else writes and the server rejects nothing, a
      run whose last draft is valid and changes the definition has saved it. */
  lemma ValidDraftIsSaved(log: History, known: map<string, Snapshot>, patience: nat, opening: Snapshot, codec: Codec,
      resource: string, identity: string, err: bool, saved: bool, fields: string)
    requires Safe(log, opening, resource, identity, codec)
    requires Faultless(log, known, patience, opening, codec, err, saved)
    requires Alone(log) && NeverRejected(log)
    requires WorthSending(Drafting(log), opening, codec, fields)
    ensures saved && !err && log.last.Put? && log.last.landed && log.last.answer.Confirmed?
    ensures log.last.fields == fields && log.last.base == opening && log.last.after.body == fields
  {
    hide Split, Replaceable, TrimSpace, WorthSending, Newest;
    var part := Drafting(log);
    DraftingIsEarlier(log);
    WorthSays(part, opening, codec, fields);
    AloneEarlier(part, log);
    SafeEarlier(part, log, opening, resource, identity, codec);
    if Repeated(part) {
      ReopenedWasInvalid(part, opening, resource, identity, codec);
    }
    var next := ValidDraftIsSent(log, known, patience, opening, codec, resource, identity, err, saved, fields);
    NewestAlone(part, opening);
    AloneEarlier(next, log);
    SafeEarlier(next, log, opening, resource, identity, codec);
  }

  lemma WorthSays(log: History, opening: Snapshot, codec: Codec, fields: string)
    requires WorthSending(log, opening, codec, fields)
    ensures log.Then? && log.last.Edited? && codec.parse(Split(log.last.content).body) == Some(fields)
  {
    hide Split, Newest;
  }

  function Effects(log: History): nat {
    if log == Start then 0
    else Effects(log.past) + if log.last.Put? && log.last.landed then 1 else 0
  }

  /** At most one PUT of a run takes effect, and nothing is sent after it. */
  lemma {:induction false} AtMostOneEffect(log: History, opening: Snapshot, resource: string, identity: string,
      codec: Codec)
    requires Safe(log, opening, resource, identity, codec)
    ensures Effects(log) <= 1
    ensures !Final(log) ==> Effects(log) == 0
  {
    if log.Then? {
      AtMostOneEffect(log.past, opening, resource, identity, codec);
    }
  }

  /** Whatever a PUT replaced was the newest revision the user had been shown:
      the opening one, or one shown under a CONFLICT line which the user's next
      save no longer had. */
  lemma {:induction false} EffectReplacesWhatWasSeen(part: History, log: History, opening: Snapshot, resource: string,
      identity: string, codec: Codec)
    requires Safe(log, opening, resource, identity, codec) && Earlier(part, log)
    requires part.Then? && part.last.Put? && part.last.landed
    ensures part == log
    ensures part.last.before == Newest(part.past, opening)
    ensures part.last.before == opening || Acknowledged(part.past, part.last.before)
    ensures part.past.Then? && part.past.last.Edited?
    ensures codec.parse(Split(part.past.last.content).body) == Some(part.last.fields) &&
      part.last.after.body == part.last.fields
  {
    SafeEarlier(part, log, opening, resource, identity, codec);
  }

  /** No PUT is sent while the CONFLICT line is still in the draft: the run ends
      with that save. */
  lemma {:induction false} NothingFollowsAnUnacknowledgedConflict(part: History, log: History, opening: Snapshot,
      resource: string, identity: string, codec: Codec)
    requires Safe(log, opening, resource, identity, codec) && Earlier(part, log)
    requires part.Then? && part.last.Edited? && Split(part.last.content).conflict
    requires part.past.Then? && part.past.last.ConflictShown?
    ensures part == log
  {
    SafeEarlier(part, log, opening, resource, identity, codec);
  }

  /** Nor after a save that emptied the draft or repeated it as it had been
      reopened under an error. */
  lemma {:induction false} NothingFollowsAnIdleSave(part: History, log: History, opening: Snapshot, resource: string,
      identity: string, codec: Codec)
    requires Safe(log, opening, resource, identity, codec) && Earlier(part, log)
    requires part.Then? && part.last.Edited? && (TrimSpace(Split(part.last.content).body) == [] || Repeated(part))
    ensures part == log
  {
    SafeEarlier(part, log, opening, resource, identity, codec);
  }

  /** A revision is acknowledged only after its own diff and notice were shown
      above the very draft that was refused. */
  lemma {:induction false} AcknowledgedWasShown(log: History, target: Snapshot, opening: Snapshot, resource: string,
      identity: string, codec: Codec)
    requires Safe(log, opening, resource, identity, codec) && Acknowledged(log, target)
    ensures exists part: History, draft: string ::
      Earlier(part, log) && part.Then? && Warned(part.last, target) &&
      RefusedFor(part.past, draft) && ShowsConflict(part.last, part.past.last, resource, identity, codec, draft)
  {
    if JustAcknowledged(log, target) {
      var part := log.past;
      assert Earlier(part, log);
      assert NoteOk(part.past, part.last, opening, resource, identity, codec);
      var draft: string :| RefusedFor(part.past, draft) &&
        ShowsConflict(part.last, part.past.last, resource, identity, codec, draft);
    } else {
      AcknowledgedWasShown(log.past, target, opening, resource, identity, codec);
      var part: History, draft: string :| Earlier(part, log.past) && part.Then? && Warned(part.last, target) &&
        RefusedFor(part.past, draft) && ShowsConflict(part.last, part.past.last, resource, identity, codec, draft);
      assert Earlier(part, log);
    }
  }
}
