/** The edit buffer of `kata cron edit` (cmd/kata/cron_edit_document.go, cronEditSplit and cronEditBuffer). */
module EditDocument {
  import opened Decimal
  import opened LineDiff

  // A leading block of "//" lines over the JSON draft. A char stands for a byte.

  const CONFLICT_TEXT := "CONFLICT: delete this" + " line to save your draft" + " over the newer version"
  const HEADER_LIMIT: nat := 32 * 1024

  // ---------------------------------------------------------------------
  // Lines
  // ---------------------------------------------------------------------

  /** Position of the first newline, or the length. */
  function LineEnd(s: string): (n: nat)
    ensures n <= |s|
    ensures forall k :: 0 <= k < n ==> s[k] != '\n'
    ensures n < |s| ==> s[n] == '\n'
  {
    if s == [] || s[0] == '\n' then 0 else 1 + LineEnd(s[1..])
  }

  lemma LineEndIs(s: string, n: nat)
    requires n < |s| && s[n] == '\n' && forall k :: 0 <= k < n ==> s[k] != '\n'
    ensures LineEnd(s) == n
  {
  }

  /** strings.Split(s, "\n"). */
  function Lines(s: string): (r: seq<string>)
    ensures |r| > 0
    ensures forall l :: l in r ==> '\n' !in l
    decreases |s|
  {
    var n := LineEnd(s);
    if n == |s| then [s] else [s[..n]] + Lines(s[n + 1..])
  }

  predicate IsSpace(c: char) {
    c == ' ' || ('\t' <= c <= '\r')
  }

  function TrimLeft(s: string): string {
    if s != [] && IsSpace(s[0]) then TrimLeft(s[1..]) else s
  }

  function TrimRight(s: string): string {
    if s != [] && IsSpace(s[|s| - 1]) then TrimRight(s[..|s| - 1]) else s
  }

  function TrimSpace(s: string): string {
    TrimRight(TrimLeft(s))
  }

  predicate IsComment(line: string) {
    |line| >= 2 && line[0] == '/' && line[1] == '/'
  }

  /** A comment line whose text is the conflict notice. */
  predicate IsMarker(line: string) {
    IsComment(line) && TrimSpace(line[2..]) == CONFLICT_TEXT
  }

  // ---------------------------------------------------------------------
  // Splitting
  // ---------------------------------------------------------------------

  datatype Document = Document(body: string, conflict: bool)

  function Split(raw: string): Document
    decreases |raw|
  {
    if !IsComment(raw) then Document(raw, false)
    else
      var n := LineEnd(raw);
      if n == |raw| then Document([], IsMarker(raw))
      else
        var rest := Split(raw[n + 1..]);
        Document(rest.body, IsMarker(raw[..n]) || rest.conflict)
  }

  /** cronEditSplit. */
  method CronEditSplit(file: string) returns (body: string, conflict: bool)
    ensures Document(body, conflict) == Split(file)
  {
    var raw := file;
    conflict := false;
    while IsComment(raw)
      invariant Split(file).body == Split(raw).body
      invariant Split(file).conflict == (conflict || Split(raw).conflict)
      decreases |raw|
    {
      var n := LineEnd(raw);
      var line := raw[..n];
      assert n == |raw| ==> line == raw;
      if TrimSpace(line[2..]) == CONFLICT_TEXT {
        conflict := true;
      }
      if n == |raw| {
        return [], conflict;
      }
      raw := raw[n + 1..];
    }
    return raw, conflict;
  }

  /** What is left of the header never starts with a comment. */
  lemma {:induction false} SplitLeavesNoComment(raw: string)
    ensures !IsComment(Split(raw).body)
    decreases |raw|
  {
    if IsComment(raw) && LineEnd(raw) < |raw| {
      SplitLeavesNoComment(raw[LineEnd(raw) + 1..]);
    }
  }

  /** The body is the end of the file, byte for byte. */
  lemma {:induction false} SplitKeepsTheTail(raw: string)
    ensures |Split(raw).body| <= |raw| && Split(raw).body == raw[|raw| - |Split(raw).body|..]
    decreases |raw|
  {
    if IsComment(raw) && LineEnd(raw) < |raw| {
      SplitKeepsTheTail(raw[LineEnd(raw) + 1..]);
    }
  }

  // ---------------------------------------------------------------------
  // Writing
  // ---------------------------------------------------------------------

  function FirstLine(resource: string, identity: string, event: string): string {
    "// kata cron " + resource + " edit " + identity + " (event " + event + FIRST_LINE_END
  }

  const FIRST_LINE_END := "). Lines starting with //" + " at the top are ignored."
  const SECOND_LINE := "// Delete everything below to abort."

  function Join(lines: seq<string>): string {
    if lines == [] then [] else Join(lines[..|lines| - 1]) + lines[|lines| - 1] + "\n"
  }

  /** The header after the lines of one note, cut off at the limit. */
  function AddLines(header: seq<string>, lines: seq<string>): seq<string>
    decreases |lines|
  {
    if lines == [] then header
    else
      var line := ShortLine(lines[0]);
      if |Join(header)| + |line| + 4 > HEADER_LIMIT then header
      else AddLines(header + ["// " + line], lines[1..])
  }

  function AddNotes(header: seq<string>, notes: seq<string>): seq<string>
    decreases |notes|
  {
    if notes == [] then header else AddNotes(AddLines(header, Lines(notes[0])), notes[1..])
  }

  function Header(resource: string, identity: string, event: string, notes: seq<string>): seq<string> {
    AddNotes([FirstLine(resource, identity, event), SECOND_LINE], notes)
  }

  function Buffer(resource: string, identity: string, event: string, body: string, notes: seq<string>): string {
    Join(Header(resource, identity, event, notes)) + body
  }

  /** cronEditBuffer: a growing builder over the lines of every note. */
  method CronEditBuffer(resource: string, identity: string, event: string, body: string, notes: seq<string>)
    returns (r: string)
    ensures r == Buffer(resource, identity, event, body, notes)
  {
    ghost var lines := [FirstLine(resource, identity, event), SECOND_LINE];
    var header := FirstLine(resource, identity, event) + "\n" + SECOND_LINE + "\n";
    JoinTwo(FirstLine(resource, identity, event), SECOND_LINE);
    for i := 0 to |notes|
      invariant header == Join(lines)
      invariant AddNotes(lines, notes[i..]) == Header(resource, identity, event, notes)
    {
      assert notes[i..][1..] == notes[i + 1..];
      lines, header := AppendNote(lines, header, notes[i]);
    }
    assert notes[|notes|..] == [];
    r := header + body;
  }

  method AppendNote(ghost lines: seq<string>, header0: string, note: string)
    returns (ghost after: seq<string>, header: string)
    requires header0 == Join(lines)
    ensures after == AddLines(lines, Lines(note)) && header == Join(after)
  {
    after, header := lines, header0;
    var parts := Lines(note);
    var j := 0;
    while j < |parts|
      invariant 0 <= j <= |parts|
      invariant header == Join(after)
      invariant AddLines(after, parts[j..]) == AddLines(lines, parts)
    {
      assert parts[j..][1..] == parts[j + 1..];
      var line := ShortLine(parts[j]);
      if |header| + |line| + 4 > HEADER_LIMIT {
        return;
      }
      var entry := "// " + line;
      JoinOne(after, entry);
      header := header + entry + "\n";
      after, j := after + [entry], j + 1;
    }
  }

  lemma JoinOne(lines: seq<string>, line: string)
    ensures Join(lines + [line]) == Join(lines) + line + "\n"
  {
    assert (lines + [line])[..|lines|] == lines;
  }

  lemma JoinTwo(x: string, y: string)
    ensures Join([x, y]) == x + "\n" + y + "\n"
  {
    JoinOne([], x);
    JoinOne([x], y);
    assert [] + [x] == [x] && [x] + [y] == [x, y];
  }

  // ---------------------------------------------------------------------
  // Round trip
  // ---------------------------------------------------------------------

  ghost predicate AllComments(lines: seq<string>) {
    forall l :: l in lines ==> IsComment(l) && '\n' !in l
  }

  ghost predicate AnyMarker(lines: seq<string>) {
    exists l :: l in lines && IsMarker(l)
  }

  lemma SplitOneLine(line: string, rest: string)
    requires IsComment(line) && '\n' !in line
    ensures Split(line + "\n" + rest) == Document(Split(rest).body, IsMarker(line) || Split(rest).conflict)
  {
    var raw := line + "\n" + rest;
    LineEndIs(raw, |line|);
    assert raw[..|line|] == line && raw[|line| + 1..] == rest;
  }

  lemma {:induction false} SplitHeader(lines: seq<string>, rest: string)
    requires AllComments(lines)
    ensures Split(Join(lines) + rest).body == Split(rest).body
    ensures Split(Join(lines) + rest).conflict == (AnyMarker(lines) || Split(rest).conflict)
  {
    if lines == [] {
      assert Join(lines) + rest == rest;
    } else {
      var n := |lines| - 1;
      var front, last := lines[..n], lines[n];
      assert lines == front + [last];
      SplitHeader(front, last + "\n" + rest);
      JoinRegroup(front, last, rest);
      SplitOneLine(last, rest);
      MarkerLast(front, last);
    }
  }

  lemma JoinRegroup(front: seq<string>, last: string, rest: string)
    ensures Join(front + [last]) + rest == Join(front) + (last + "\n" + rest)
  {
    JoinOne(front, last);
  }

  lemma MarkerLast(front: seq<string>, last: string)
    ensures AnyMarker(front + [last]) <==> AnyMarker(front) || IsMarker(last)
  {
    var lines := front + [last];
    assert last in lines;
    if AnyMarker(front) {
      var l :| l in front && IsMarker(l);
      assert l in lines;
    }
  }

  lemma {:induction false} AddLinesComments(header: seq<string>, lines: seq<string>)
    requires AllComments(header) && forall l :: l in lines ==> '\n' !in l
    ensures AllComments(AddLines(header, lines))
    ensures header <= AddLines(header, lines)
    ensures |Join(header)| <= HEADER_LIMIT ==> |Join(AddLines(header, lines))| <= HEADER_LIMIT
    decreases |lines|
  {
    if lines != [] {
      var line := ShortLine(lines[0]);
      JoinOne(header, "// " + line);
      if |Join(header)| + |line| + 4 <= HEADER_LIMIT {
        AddLinesComments(header + ["// " + line], lines[1..]);
      }
    }
  }

  lemma {:induction false} AddNotesComments(header: seq<string>, notes: seq<string>)
    requires AllComments(header)
    ensures AllComments(AddNotes(header, notes)) && header <= AddNotes(header, notes)
    ensures |Join(header)| <= HEADER_LIMIT ==> |Join(AddNotes(header, notes))| <= HEADER_LIMIT
    decreases |notes|
  {
    if notes != [] {
      AddLinesComments(header, Lines(notes[0]));
      AddNotesComments(AddLines(header, Lines(notes[0])), notes[1..]);
    }
  }

  /** The names a header is built from: a registered resource and ULIDs. */
  predicate Named(resource: string, identity: string, event: string) {
    |resource| <= 8 && |identity| == 26 && |event| == 26 && '\n' !in resource && '\n' !in identity && '\n' !in event
  }

  lemma StartIsHeader(resource: string, identity: string, event: string)
    requires Named(resource, identity, event)
    ensures AllComments([FirstLine(resource, identity, event), SECOND_LINE])
    ensures |Join([FirstLine(resource, identity, event), SECOND_LINE])| <= 300
  {
    JoinTwo(FirstLine(resource, identity, event), SECOND_LINE);
    FirstLineIsComment(resource, identity, event);
    assert |SECOND_LINE| == 36 && '\n' !in SECOND_LINE;
  }

  lemma FirstLineEnd()
    ensures |FIRST_LINE_END| == 49 && '\n' !in FIRST_LINE_END
  {
    assert '\n' !in "). Lines starting with //";
    assert '\n' !in " at the top are ignored.";
  }

  lemma FirstLineIsComment(resource: string, identity: string, event: string)
    requires Named(resource, identity, event)
    ensures IsComment(FirstLine(resource, identity, event)) && '\n' !in FirstLine(resource, identity, event)
    ensures |FirstLine(resource, identity, event)| <= 200
  {
    FirstLineEnd();
    var a := "// kata cron " + resource;
    assert a[0] == '/' && a[1] == '/' && '\n' !in a && |a| == 13 + |resource|;
    var b := a + " edit " + identity;
    assert b[0] == '/' && b[1] == '/' && '\n' !in b && |b| == |a| + 6 + |identity|;
    var c := b + " (event " + event;
    assert c[0] == '/' && c[1] == '/' && '\n' !in c && |c| == |b| + 8 + |event|;
    assert FirstLine(resource, identity, event) == c + FIRST_LINE_END;
  }

  /** A buffer that is split again gives back the body it was made from
      exactly when the body does not itself begin with "//", and its header
      stays within 32 KiB. */
  lemma {:induction false} BufferRoundTrip(resource: string, identity: string, event: string, body: string,
      notes: seq<string>)
    requires Named(resource, identity, event)
    ensures Split(Buffer(resource, identity, event, body, notes)).body == Split(body).body
    ensures Split(Buffer(resource, identity, event, body, notes)).body == body <==> !IsComment(body)
    ensures Split(Buffer(resource, identity, event, body, notes)).conflict ==
      (AnyMarker(Header(resource, identity, event, notes)) || Split(body).conflict)
    ensures |Buffer(resource, identity, event, body, notes)| <= HEADER_LIMIT + |body|
  {
    var start := [FirstLine(resource, identity, event), SECOND_LINE];
    StartIsHeader(resource, identity, event);
    AddNotesComments(start, notes);
    SplitHeader(Header(resource, identity, event, notes), body);
    SplitLeavesNoComment(body);
  }

  lemma {:induction false} TrimRightKeepsHead(s: string)
    ensures TrimRight(s) == [] || TrimRight(s)[0] == s[0]
  {
    if s != [] && IsSpace(s[|s| - 1]) {
      TrimRightKeepsHead(s[..|s| - 1]);
    }
  }

  /** "// " followed by a text that starts with neither a space nor the letter
      of the notice is no marker. */
  lemma NotMarker(line: string)
    requires |line| > 3 && line[2] == ' ' && !IsSpace(line[3]) && line[3] != 'C'
    ensures !IsMarker(line)
  {
    var t := line[2..];
    assert t[0] == ' ' && t[1..][0] == line[3];
    assert TrimLeft(t) == t[1..];
    TrimRightKeepsHead(t[1..]);
    NoticeText();
  }

  lemma {:induction false} StartHasNoMarker(resource: string, identity: string, event: string)
    ensures !AnyMarker([FirstLine(resource, identity, event), SECOND_LINE])
  {
    var first := FirstLine(resource, identity, event);
    assert first[2] == ' ' && first[3] == 'k';
    NotMarker(first);
    assert SECOND_LINE[2] == ' ' && SECOND_LINE[3] == 'D';
    NotMarker(SECOND_LINE);
  }

  lemma NoticeText()
    ensures |CONFLICT_TEXT| == 68 && '\n' !in CONFLICT_TEXT
    ensures CONFLICT_TEXT[0] == 'C' && CONFLICT_TEXT[67] == 'n'
  {
    var a, b, c := "CONFLICT: delete this", " line to save your draft", " over the newer version";
    assert |a| == 21 && |b| == 24 && |c| == 23;
    assert '\n' !in a && '\n' !in b && '\n' !in c;
    assert a[0] == 'C' && c[22] == 'n';
    assert CONFLICT_TEXT == a + b + c;
  }

  lemma CommentText(text: string)
    requires text != [] && !IsSpace(text[0]) && !IsSpace(text[|text| - 1])
    ensures IsComment("// " + text) && TrimSpace(("// " + text)[2..]) == text
  {
    var line, spaced := "// " + text, " " + text;
    assert line[0] == '/' && line[1] == '/' && line[2..] == spaced;
    assert spaced[0] == ' ' && spaced[1..] == text;
    assert TrimLeft(text) == text;
    assert TrimLeft(spaced) == text;
  }

  lemma NoticeIsMarker()
    ensures IsMarker("// " + CONFLICT_TEXT)
  {
    NoticeText();
    CommentText(CONFLICT_TEXT);
  }

  lemma OneLine(s: string)
    requires '\n' !in s
    ensures Lines(s) == [s]
  {
    assert LineEnd(s) == |s|;
  }

  /** The first note of a buffer is its third line. */
  lemma FirstNoteIsWritten(resource: string, identity: string, event: string, note: string, more: seq<string>)
    requires Named(resource, identity, event) && '\n' !in note && |note| <= LINE_LIMIT
    ensures "// " + note in Header(resource, identity, event, [note] + more)
  {
    var start := [FirstLine(resource, identity, event), SECOND_LINE];
    StartIsHeader(resource, identity, event);
    OneLine(note);
    var noted := AddLines(start, [note]);
    assert AddLines(start + ["// " + note], [note][1..]) == start + ["// " + note];
    assert noted == start + ["// " + note];
    AddLinesComments(start, [note]);
    assert ([note] + more)[0] == note && ([note] + more)[1..] == more;
    AddNotesComments(noted, more);
    assert noted <= Header(resource, identity, event, [note] + more);
    assert noted[2] in Header(resource, identity, event, [note] + more);
  }

  /** A fresh header carries no conflict mark; one written after a conflict
      does, until someone deletes the line. */
  lemma {:induction false} ConflictIsShown(resource: string, identity: string, event: string, body: string,
      more: seq<string>)
    requires Named(resource, identity, event)
    ensures Split(Buffer(resource, identity, event, body, [CONFLICT_TEXT] + more)).conflict
    ensures Split(Buffer(resource, identity, event, body, [])).conflict <==> Split(body).conflict
  {
    BufferRoundTrip(resource, identity, event, body, [CONFLICT_TEXT] + more);
    BufferRoundTrip(resource, identity, event, body, []);
    StartHasNoMarker(resource, identity, event);
    NoticeIsMarker();
    NoticeText();
    FirstNoteIsWritten(resource, identity, event, CONFLICT_TEXT, more);
  }

  // ---------------------------------------------------------------------
  // What the header says
  // ---------------------------------------------------------------------

  /** Every line as a comment, shortened if it is long. */
  function Commented(lines: seq<string>): seq<string> {
    if lines == [] then [] else ["// " + ShortLine(lines[0])] + Commented(lines[1..])
  }

  function AllCommented(notes: seq<string>): seq<string> {
    if notes == [] then [] else Commented(Lines(notes[0])) + AllCommented(notes[1..])
  }

  lemma Regrouped(header: seq<string>, line: string, rest: seq<string>)
    ensures header + ([line] + rest) == header + [line] + rest
  {
  }

  lemma {:induction false} LinesFit(header: seq<string>, lines: seq<string>)
    requires |Join(header + Commented(lines))| <= HEADER_LIMIT
    ensures AddLines(header, lines) == header + Commented(lines)
    decreases |lines|
  {
    hide Join, ShortLine;
    if lines == [] {
      assert header + [] == header;
    } else {
      var line := "// " + ShortLine(lines[0]);
      JoinOne(header, line);
      Regrouped(header, line, Commented(lines[1..]));
      JoinParts(header + [line], Commented(lines[1..]));
      LinesFit(header + [line], lines[1..]);
    }
  }

  lemma {:induction false} NotesFit(header: seq<string>, notes: seq<string>)
    requires |Join(header + AllCommented(notes))| <= HEADER_LIMIT
    ensures AddNotes(header, notes) == header + AllCommented(notes)
    decreases |notes|
  {
    hide ShortLine;
    if notes == [] {
      assert header + [] == header;
    } else {
      var first := Commented(Lines(notes[0]));
      assert header + AllCommented(notes) == header + first + AllCommented(notes[1..]);
      JoinParts(header + first, AllCommented(notes[1..]));
      LinesFit(header, Lines(notes[0]));
      NotesFit(header + first, notes[1..]);
    }
  }

  /** As long as the header fits, it has every line of every note, in order,
      below its two own lines. */
  lemma HeaderSaysAll(resource: string, identity: string, event: string, notes: seq<string>)
    requires var start := [FirstLine(resource, identity, event), SECOND_LINE];
      |Join(start + AllCommented(notes))| <= HEADER_LIMIT
    ensures Header(resource, identity, event, notes)
      == [FirstLine(resource, identity, event), SECOND_LINE] + AllCommented(notes)
  {
    NotesFit([FirstLine(resource, identity, event), SECOND_LINE], notes);
  }

  /** Notes of one short line each. */
  lemma {:induction false} ShortNotes(notes: seq<string>)
    requires forall i :: 0 <= i < |notes| ==> '\n' !in notes[i] && |notes[i]| <= LINE_LIMIT
    ensures |AllCommented(notes)| == |notes|
    ensures forall i :: 0 <= i < |notes| ==> AllCommented(notes)[i] == "// " + notes[i]
  {
    if notes != [] {
      OneLine(notes[0]);
      assert [notes[0]][1..] == [];
      assert Commented([notes[0]]) == ["// " + notes[0]];
      ShortNotes(notes[1..]);
      assert AllCommented(notes) == ["// " + notes[0]] + AllCommented(notes[1..]);
    }
  }

  lemma {:induction false} JoinIsShort(lines: seq<string>, limit: nat)
    requires forall i :: 0 <= i < |lines| ==> |lines[i]| <= limit
    ensures |Join(lines)| <= |lines| * (limit + 1)
  {
    if lines != [] {
      JoinIsShort(lines[..|lines| - 1], limit);
    }
  }

  lemma ShownLine(e: Edit<string>)
    requires '\n' !in e.line
    ensures '\n' !in ShortLine(Prefixed(e)) && |ShortLine(Prefixed(e))| <= LINE_LIMIT
  {
    assert '\n' !in Prefixed(e);
  }

  lemma NoteLine(omitted: nat)
    ensures '\n' !in OmissionNote(omitted)
  {
    DigitsAreDigits(omitted);
    assert '\n' !in "... " && '\n' !in " more lines; see kata cron <kind> show";
    assert '\n' !in "... " + Digits(omitted);
  }

  lemma ShownHaveNoNewline(changes: seq<Edit<string>>)
    requires forall e :: e in changes ==> '\n' !in e.line
    requires |changes| < PowerOfTen(340)
    ensures forall i :: 0 <= i < |Display(changes)| ==>
      '\n' !in Display(changes)[i] && |Display(changes)[i]| <= LINE_LIMIT
  {
    hide ShortLine, Prefixed, Display, OmissionNote;
    DisplayIsBounded(changes);
    forall i | 0 <= i < |Display(changes)| ensures '\n' !in Display(changes)[i] {
      if i < SHOWN_LIMIT {
        ShownLine(changes[i]);
      } else {
        NoteLine(|changes| - SHOWN_LIMIT);
      }
    }
  }

  lemma {:induction false} ChangesAreSteps<T>(script: seq<Edit<T>>)
    ensures forall e :: e in Changes(script) ==> e in script
  {
    if script != [] {
      ChangesAreSteps(script[1..]);
    }
  }

  lemma DiffHasNoNewline(from: string, to: string)
    ensures forall e :: e in Changes(DiffScript(Lines(from), Lines(to))) ==> '\n' !in e.line
  {
    var script := DiffScript(Lines(from), Lines(to));
    ScriptRelates(Lines(from), Lines(to));
    ChangesAreSteps(script);
    forall e | e in Changes(script) ensures '\n' !in e.line {
      LinesAreOfTexts(script, e);
    }
  }

  /** Up to 80 short lines below the conflict notice are all written. */
  lemma NoticeAndLines(resource: string, identity: string, event: string, shown: seq<string>)
    requires Named(resource, identity, event) && |shown| <= 80
    requires forall i :: 0 <= i < |shown| ==> '\n' !in shown[i] && |shown[i]| <= LINE_LIMIT
    ensures var header := Header(resource, identity, event, [CONFLICT_TEXT] + shown);
      |header| == 3 + |shown| && header[2] == "// " + CONFLICT_TEXT &&
      forall i :: 0 <= i < |shown| ==> header[3 + i] == "// " + shown[i]
  {
    hide Lines, FirstLine, Header, ShortLine, AllCommented, Join;
    var notes, start := [CONFLICT_TEXT] + shown, [FirstLine(resource, identity, event), SECOND_LINE];
    NoticeText();
    CommentedNotes(shown);
    StartIsHeader(resource, identity, event);
    ShortHeader(start, AllCommented(notes));
    HeaderSaysAll(resource, identity, event, notes);
    BelowStart(start, AllCommented(notes));
  }

  lemma BelowStart(start: seq<string>, lines: seq<string>)
    requires |start| == 2
    ensures forall i :: 0 <= i < |lines| ==> (start + lines)[2 + i] == lines[i]
  {
  }

  lemma CommentedNotes(shown: seq<string>)
    requires |CONFLICT_TEXT| <= LINE_LIMIT && '\n' !in CONFLICT_TEXT
    requires forall i :: 0 <= i < |shown| ==> '\n' !in shown[i] && |shown[i]| <= LINE_LIMIT
    ensures var lines := AllCommented([CONFLICT_TEXT] + shown);
      && |lines| == |shown| + 1 && lines[0] == "// " + CONFLICT_TEXT
      && (forall i :: 0 <= i < |shown| ==> lines[i + 1] == "// " + shown[i])
      && forall i :: 0 <= i < |lines| ==> |lines[i]| <= LINE_LIMIT + 3
  {
    hide AllCommented;
    var notes := [CONFLICT_TEXT] + shown;
    assert forall i :: 0 <= i < |shown| ==> notes[i + 1] == shown[i];
    ShortNotes(notes);
  }

  /** The buffer of a conflict holds the notice and every line of the diff. */
  lemma ConflictShowsTheDiff(resource: string, identity: string, event: string, from: string, to: string)
    requires Named(resource, identity, event)
    requires |Changes(DiffScript(Lines(from), Lines(to)))| < PowerOfTen(340)
    ensures var shown := Display(Changes(DiffScript(Lines(from), Lines(to))));
      var header := Header(resource, identity, event, [CONFLICT_TEXT] + shown);
      |header| == 3 + |shown| && header[2] == "// " + CONFLICT_TEXT &&
      forall i :: 0 <= i < |shown| ==> header[3 + i] == "// " + shown[i]
  {
    hide Display, DiffScript, Changes, Lines, FirstLine, Header, ShortLine;
    var changes := Changes(DiffScript(Lines(from), Lines(to)));
    DiffHasNoNewline(from, to);
    ShownHaveNoNewline(changes);
    DisplayIsBounded(changes);
    NoticeAndLines(resource, identity, event, Display(changes));
  }

  lemma ShortHeader(start: seq<string>, lines: seq<string>)
    requires |Join(start)| <= 300 && |lines| <= 81
    requires forall i :: 0 <= i < |lines| ==> |lines[i]| <= LINE_LIMIT + 3
    ensures |Join(start + lines)| <= HEADER_LIMIT
  {
    JoinParts(start, lines);
    JoinIsShort(lines, LINE_LIMIT + 3);
    assert |lines| * (LINE_LIMIT + 4) <= 81 * (LINE_LIMIT + 4);
  }

  lemma {:induction false} JoinParts(a: seq<string>, b: seq<string>)
    ensures |Join(a + b)| == |Join(a)| + |Join(b)|
    decreases |b|
  {
    if b == [] {
      assert a + b == a;
    } else {
      JoinParts(a, b[..|b| - 1]);
      JoinOne(a + b[..|b| - 1], b[|b| - 1]);
      assert a + b == a + b[..|b| - 1] + [b[|b| - 1]];
    }
  }
}
