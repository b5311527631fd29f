/** Finding, installing and removing the managed block of an instruction file (cmd/kata/agent_instructions.go). */
module Instructions {
  import opened MarkedLines
  import opened Options

  /** The lines that delimit a block. `begin` differs between Markdown and
      YAML files; `fence`, when not empty, is the line written before it. */
  datatype Style = Style(begin: string, end: string, added: string, fence: string)

  predicate Usable(style: Style) {
    && IsLine(style.begin) && IsLine(style.end) && IsLine(style.added)
    && style.begin != style.end && style.begin != style.added && style.end != style.added
    && (style.fence == "" || (IsLine(style.fence) && style.fence != style.begin && style.fence != style.end))
  }

  const BEGIN_COMMENT := "<!-- BEGIN KATA " + "HOOKLESS MUSE -->"
  const BEGIN_YAML := "# BEGIN KATA " + "HOOKLESS MUSE"
  const END := "<!-- END KATA " + "HOOKLESS MUSE -->"
  const ADDED := "<!-- KATA HOOKLESS " + ("MUSE ADDED PREFIX " + "NEWLINE -->")

  const MARKDOWN := Style(BEGIN_COMMENT, END, ADDED, "")
  const YAML := Style(BEGIN_YAML, END, ADDED, "---")

  lemma MarkersAreUsable()
    ensures Usable(MARKDOWN) && Usable(YAML)
  {
    BeginIsLine();
    BeginYamlIsLine();
    EndIsLine();
    AddedIsLine();
    FenceIsLine();
    DifferentLengths();
  }

  lemma BeginIsLine()
    ensures IsLine(BEGIN_COMMENT)
  {
    LineOfTwo("<!-- BEGIN KATA ", "HOOKLESS MUSE -->");
  }

  lemma BeginYamlIsLine()
    ensures IsLine(BEGIN_YAML)
  {
    LineOfTwo("# BEGIN KATA ", "HOOKLESS MUSE");
  }

  lemma EndIsLine()
    ensures IsLine(END)
  {
    LineOfTwo("<!-- END KATA ", "HOOKLESS MUSE -->");
  }

  lemma AddedIsLine()
    ensures IsLine(ADDED)
  {
    LineOfTwo("MUSE ADDED PREFIX ", "NEWLINE -->");
    LineOfTwo("<!-- KATA HOOKLESS ", "MUSE ADDED PREFIX " + "NEWLINE -->");
  }

  lemma FenceIsLine()
    ensures IsLine("---")
  {
  }

  lemma LineOfTwo(a: string, b: string)
    requires IsLine(a) && IsLine(b)
    ensures IsLine(a + b)
  {
  }

  lemma DifferentLengths()
    ensures |BEGIN_COMMENT| == 33 && |END| == 31 && |ADDED| == 48 && |BEGIN_YAML| == 26 && |YAML.fence| == 3
  {
  }

  // ---------------------------------------------------------------------
  // Finding the block
  // ---------------------------------------------------------------------

  datatype Found = NoBlock | Block(begin: nat, end: nat) | Malformed

  function TrimSuffix(s: string, c: char): (r: string)
    ensures |r| <= |s| && r == s[..|r|]
  {
    if s != "" && s[|s| - 1] == c then s[..|s| - 1] else s
  }

  /** The start of the last line of `s`. */
  function LastLineStart(s: string): (n: nat)
    ensures n <= |s| && (n == 0 || s[n - 1] == '\n') && '\n' !in s[n..]
  {
    if s == "" then 0
    else if s[|s| - 1] == '\n' then |s|
    else
      var n := LastLineStart(s[..|s| - 1]);
      assert s[n..] == s[..|s| - 1][n..] + [s[|s| - 1]];
      n
  }

  /** managedBlockStart, given the text before the begin marker. */
  function BlockStart(before: string, fence: string, addedNewline: bool): (r: Option<nat>)
    ensures r.Some? ==> r.value <= |before|
  {
    var preceding := TrimSuffix(TrimSuffix(before, '\n'), '\r');
    if fence == "" then
      if preceding != "" && preceding[|preceding| - 1] != '\n' && !addedNewline then Some(|before|)
      else Some(|preceding|)
    else
      var lineStart := LastLineStart(preceding);
      if preceding[lineStart..] != fence then None else Some(lineStart)
  }

  /** instructionBlockSpan. */
  function BlockSpan(content: string, style: Style): (r: Found)
    ensures r.Block? ==> r.begin <= r.end <= |content|
  {
    var begins := Scan(content, "", style.begin, 0);
    var ends := Scan(content, "", style.end, 0);
    ScanInside(content, "", style.begin, 0);
    ScanInside(content, "", style.end, 0);
    if begins.Nil? && ends.Nil? then NoBlock
    else if begins.Nil? || ends.Nil? || begins.tail.Cons? || ends.tail.Cons? then Malformed
    else BlockBetween(content, begins.head, ends.head, style)
  }

  function BlockBetween(content: string, first: Span, last: Span, style: Style): (r: Found)
    requires first.start <= first.end <= |content| && last.start <= last.end <= |content|
    ensures r.Block? ==> r.begin <= r.end <= |content|
  {
    if last.start < first.end then Malformed
    else
      var addedNewline := !Free(content[first.end..last.start], style.added);
      match BlockStart(content[..first.start], style.fence, addedNewline)
      case None => Malformed
      case Some(begin) => Block(begin, last.end)
  }

  predicate Inside(spans: Spans, lo: nat, hi: nat) {
    spans.Cons? ==> lo <= spans.head.start <= spans.head.end <= hi && Inside(spans.tail, lo, hi)
  }

  lemma {:induction false} ScanInside(s: string, line: string, marker: string, start: nat)
    ensures Inside(Scan(s, line, marker, start), start, start + |line| + |s|)
    decreases |s|
  {
    if s != "" {
      if s[0] == '\n' {
        ScanInside(s[1..], "", marker, start + |line| + 1);
        Wider(Scan(s[1..], "", marker, start + |line| + 1), start + |line| + 1, start, start + |line| + |s|);
      } else {
        ScanInside(s[1..], line + [s[0]], marker, start);
      }
    }
  }

  lemma {:induction spans} Wider(spans: Spans, lo: nat, lower: nat, hi: nat)
    requires Inside(spans, lo, hi) && lower <= lo
    ensures Inside(spans, lower, hi)
  {
  }

  predicate IsLineEnd(e: string) {
    e == "" || e == "\n" || e == "\r" || e == "\r\n"
  }

  /** A block is only found between the one begin marker and the one end
      marker of a file, in this order. It begins at that marker, or takes the
      line end or the fence line in front of it along. */
  lemma BlockIsTheOnlyOne(t: string, style: Style) returns (first: Span, last: Span)
    requires BlockSpan(t, style).Block?
    ensures var b := BlockSpan(t, style);
      && IsOnlyMarker(t, style.begin, first) && IsOnlyMarker(t, style.end, last) && first.end <= last.start
      && b.begin <= first.start <= last.end == b.end <= |t|
      && style.fence <= t[b.begin..first.start] && IsLineEnd(t[b.begin..first.start][|style.fence|..])
  {
    hide Scan;
    first, last := Scan(t, "", style.begin, 0).head, Scan(t, "", style.end, 0).head;
    ScanInside(t, "", style.begin, 0);
    ScanInside(t, "", style.end, 0);
    OneFound(t, style.begin, first);
    OneFound(t, style.end, last);
    InFront(t[..first.start], style.fence, !Free(t[first.end..last.start], style.added));
    assert forall i :: 0 <= i <= first.start ==> t[..first.start][i..] == t[i..first.start];
  }

  lemma InFront(before: string, fence: string, addedNewline: bool)
    requires BlockStart(before, fence, addedNewline).Some?
    ensures var lead := before[BlockStart(before, fence, addedNewline).value..];
      fence <= lead && IsLineEnd(lead[|fence|..])
  {
    var preceding := TrimSuffix(TrimSuffix(before, '\n'), '\r');
    Trimmed(before);
    if fence == "" {
      assert before[|before|..] == "";
    } else {
      var at := LastLineStart(preceding);
      assert before[at..][..|fence|] == fence && before[at..][|fence|..] == before[|preceding|..];
    }
  }

  lemma Trimmed(s: string)
    ensures var p := TrimSuffix(TrimSuffix(s, '\n'), '\r'); p <= s && IsLineEnd(s[|p|..])
  {
    var once := TrimSuffix(s, '\n');
    var p := TrimSuffix(once, '\r');
    assert s[|p|..] == (if p == once then "" else "\r") + (if once == s then "" else "\n");
  }

  /** Where there is no fence, the one begin marker in front of the one end
      marker is always found. */
  lemma SoundBlockIsFound(t: string, style: Style, first: Span, last: Span)
    requires style.fence == "" && IsOnlyMarker(t, style.begin, first) && IsOnlyMarker(t, style.end, last)
    requires first.end <= last.start
    ensures BlockSpan(t, style).Block? && BlockSpan(t, style).end == last.end
  {
    hide Scan, IsOnlyMarker;
    OneFound(t, style.begin, first);
    OneFound(t, style.end, last);
  }

  /** No block is found exactly in a file without any marker. */
  lemma NoBlockMeansNoMarker(t: string, style: Style)
    ensures BlockSpan(t, style) == NoBlock <==>
      forall span :: !IsMarkerLine(t, style.begin, span) && !IsMarkerLine(t, style.end, span)
  {
    hide Scan, IsMarkerLine;
    var begins, ends := Scan(t, "", style.begin, 0), Scan(t, "", style.end, 0);
    forall span ensures Has(begins, span) <==> IsMarkerLine(t, style.begin, span) {
      FoundAreMarkerLines(t, style.begin, span);
    }
    forall span ensures Has(ends, span) <==> IsMarkerLine(t, style.end, span) {
      FoundAreMarkerLines(t, style.end, span);
    }
    if begins.Cons? {
      assert Has(begins, begins.head);
    }
    if ends.Cons? {
      assert Has(ends, ends.head);
    }
  }

  // ---------------------------------------------------------------------
  // Installing and uninstalling
  // ---------------------------------------------------------------------

  /** What install writes: the start of the block, an optional record of an
      added newline, the instructions, and the end marker. */
  function Written(style: Style, body: string, addedNewline: bool): string {
    (if style.fence == "" then "\n" else style.fence + "\n") + style.begin + "\n"
    + (if addedNewline then style.added + "\n" else "") + body + style.end + "\n"
  }

  /** The standing instructions, the first artifact, take part of a file;
      the others own theirs. */
  datatype Artifact = Artifact(style: Style, body: string, standing: bool)

  predicate NeedsNewline(a: Artifact, prefix: string) {
    a.standing && !Ended(prefix)
  }

  datatype Plan = Plan(content: string) | Refused

  /** planInstructionArtifacts for the verb install. */
  function Install(a: Artifact, before: string): Plan {
    match BlockSpan(before, a.style)
    case Malformed => Refused
    case NoBlock =>
      if a.standing || before == "" then Plan(before + Written(a.style, a.body, NeedsNewline(a, before)))
      else Refused
    case Block(begin, end) =>
      Plan(before[..begin] + Written(a.style, a.body, NeedsNewline(a, before[..begin])) + before[end..])
  }

  /** The same for the verb uninstall. */
  function Uninstall(a: Artifact, before: string): Plan {
    match BlockSpan(before, a.style)
    case Malformed => Refused
    case NoBlock => Plan(before)
    case Block(begin, end) =>
      Plan(before[..begin] + before[end..])
  }

  // ---------------------------------------------------------------------
  // The block is found where it was put
  // ---------------------------------------------------------------------

  /** No line is a begin or end marker. */
  predicate Unmarked(s: string, style: Style) {
    Free(s, style.begin) && Free(s, style.end)
  }

  /** The instructions: whole lines, none of them a marker. */
  predicate Proper(body: string, style: Style) {
    Ended(body) && Unmarked(body, style) && Free(body, style.added)
  }

  function Middle(style: Style, body: string, addedNewline: bool): string {
    (if addedNewline then style.added + "\n" else "") + body
  }

  lemma MiddleEnded(style: Style, body: string, addedNewline: bool)
    requires Ended(body)
    ensures Ended(Middle(style, body, addedNewline))
  {
  }

  lemma FreeMiddle(style: Style, body: string, addedNewline: bool, marker: string)
    requires Usable(style) && Ended(body) && Free(body, marker)
    ensures Free(Middle(style, body, addedNewline), marker) <==> !(addedNewline && marker == style.added)
  {
    if addedNewline {
      ScanParts(style.added + "\n", "", body, marker, 0);
      SpansOfLine(style.added, marker, 0);
      FreeAnywhere(body, "", marker, 0, |style.added| + 1);
    } else {
      assert Middle(style, body, addedNewline) == body;
    }
  }

  /** A marker line in front of text is one more span. */
  lemma ScanAfterLine(m: string, rest: string, marker: string, start: nat)
    requires IsLine(m)
    ensures var tail := Scan(rest, "", marker, start + |m| + 1);
      Scan(m + "\n" + rest, "", marker, start) == if m == marker then Cons(Span(start, start + |m| + 1), tail) else tail
  {
    ScanParts(m + "\n", "", rest, marker, start);
    SpansOfLine(m, marker, start);
  }

  /** Free text in front of text adds nothing. */
  lemma ScanAfterFree(a: string, rest: string, marker: string, start: nat)
    requires Ended(a) && Free(a, marker)
    ensures Scan(a + rest, "", marker, start) == Scan(rest, "", marker, start + |a|)
  {
    ScanParts(a, "", rest, marker, start);
    FreeAnywhere(a, "", marker, 0, start);
  }

  /** A begin line, instructions, an end line and more text. */
  function Bracket(style: Style, middle: string, y: string): string {
    style.begin + "\n" + (middle + (style.end + "\n" + y))
  }

  lemma ScanBracket(style: Style, middle: string, y: string, marker: string, start: nat)
    requires Usable(style) && Ended(middle) && Free(middle, marker) && Free(y, marker)
    requires marker == style.begin || marker == style.end
    ensures Scan(Bracket(style, middle, y), "", marker, start)
      == Cons(if marker == style.begin then Span(start, start + |style.begin| + 1)
              else Span(start + |style.begin| + 1 + |middle|, start + |style.begin| + 1 + |middle| + |style.end| + 1),
              Nil)
  {
    var m := start + |style.begin| + 1;
    ScanAfterLine(style.begin, middle + (style.end + "\n" + y), marker, start);
    ScanAfterFree(middle, style.end + "\n" + y, marker, m);
    ScanAfterLine(style.end, y, marker, m + |middle|);
    FreeAnywhere(y, "", marker, 0, m + |middle| + |style.end| + 1);
  }

  lemma BracketText(head: string, style: Style, middle: string, y: string)
    ensures var t := head + Bracket(style, middle, y);
      var b := |head| + |style.begin| + 1;
      && |t| == b + |middle| + |style.end| + 1 + |y|
      && t[..|head|] == head && t[b..b + |middle|] == middle && t[b + |middle| + |style.end| + 1..] == y
  {
  }

  lemma SpanOfBlock(head: string, style: Style, body: string, addedNewline: bool, y: string)
    requires Usable(style) && Ended(head) && Unmarked(head, style) && Proper(body, style) && Unmarked(y, style)
    ensures var t := head + Bracket(style, Middle(style, body, addedNewline), y);
      BlockSpan(t, style) == match BlockStart(head, style.fence, addedNewline)
        case None => Malformed
        case Some(begin) => Block(begin, |t| - |y|)
  {
    var middle := Middle(style, body, addedNewline);
    MiddleEnded(style, body, addedNewline);
    FreeMiddle(style, body, addedNewline, style.begin);
    FreeMiddle(style, body, addedNewline, style.end);
    FreeMiddle(style, body, addedNewline, style.added);
    MarkersOfBlock(head, style, middle, y, style.begin);
    MarkersOfBlock(head, style, middle, y, style.end);
    BetweenMarkers(head, style, middle, y);
  }

  lemma BetweenMarkers(head: string, style: Style, middle: string, y: string)
    ensures var t := head + Bracket(style, middle, y);
      var b := |head| + |style.begin| + 1;
      && |t| == b + |middle| + |style.end| + 1 + |y|
      && BlockBetween(t, Span(|head|, b), Span(b + |middle|, b + |middle| + |style.end| + 1), style)
        == match BlockStart(head, style.fence, !Free(middle, style.added))
          case None => Malformed
          case Some(begin) => Block(begin, |t| - |y|)
  {
    BracketText(head, style, middle, y);
  }

  lemma MarkersOfBlock(head: string, style: Style, middle: string, y: string, marker: string)
    requires Usable(style) && Ended(head) && Ended(middle) && Free(head, marker) && Free(middle, marker) &&
      Free(y, marker)
    requires marker == style.begin || marker == style.end
    ensures Scan(head + Bracket(style, middle, y), "", marker, 0)
      == Cons(if marker == style.begin then Span(|head|, |head| + |style.begin| + 1)
              else Span(|head| + |style.begin| + 1 + |middle|,
                        |head| + |style.begin| + 1 + |middle| + |style.end| + 1),
              Nil)
  {
    ScanAfterFree(head, Bracket(style, middle, y), marker, 0);
    ScanBracket(style, middle, y, marker, |head|);
  }

  /** For standing instructions the block starts right after the text before
      it, or one byte early when that text ends in a bare carriage return. */
  lemma StandingStart(x: string)
    ensures BlockStart(x + "\n", "", !Ended(x)) == Some(if x != "" && x[|x| - 1] == '\r' then |x| - 1 else |x|)
  {
    var head := x + "\n";
    assert TrimSuffix(head, '\n') == x;
  }

  /** What uninstall makes of installed instructions followed by `y`. */
  function Kept(x: string): string {
    if x != "" && x[|x| - 1] == '\r' then x[..|x| - 1] else x
  }

  lemma WrittenText(x: string, style: Style, body: string, addedNewline: bool, y: string)
    requires style.fence == ""
    ensures x + Written(style, body, addedNewline) + y
      == x + "\n" + Bracket(style, Middle(style, body, addedNewline), y)
  {
  }

  lemma SpanOfInstalled(a: Artifact, x: string, y: string)
    requires a.standing && a.style.fence == "" && Usable(a.style) && Proper(a.body, a.style)
    requires Unmarked(x, a.style) && Unmarked(y, a.style)
    ensures var t := x + Written(a.style, a.body, NeedsNewline(a, x)) + y;
      BlockSpan(t, a.style) == Block(|Kept(x)|, |t| - |y|) && t[..|Kept(x)|] == Kept(x) && t[|t| - |y|..] == y
  {
    WrittenText(x, a.style, a.body, NeedsNewline(a, x), y);
    FreeEnded(x, "", a.style.begin, 0);
    FreeEnded(x, "", a.style.end, 0);
    SpanOfBlock(x + "\n", a.style, a.body, !Ended(x), y);
    StandingStart(x);
    Slices(x + Written(a.style, a.body, NeedsNewline(a, x)), x, y);
  }

  lemma Slices(t: string, x: string, y: string)
    requires |x| <= |t| && t[..|x|] == x
    ensures (t + y)[|t|..] == y && |t + y| - |y| == |t| && (t + y)[..|Kept(x)|] == Kept(x)
  {
  }

  lemma InstallPlain(a: Artifact, x: string)
    requires a.standing && Unmarked(x, a.style)
    ensures Install(a, x) == Plan(x + Written(a.style, a.body, NeedsNewline(a, x)))
  {
  }

  /** The round trip, exactly: uninstalling takes out what install put in,
      whatever was written after it, unless the file ended in a bare CR. */
  lemma UninstallUndoesInstall(a: Artifact, x: string, y: string)
    requires a.standing && a.style.fence == "" && Usable(a.style) && Proper(a.body, a.style)
    requires Unmarked(x, a.style) && Unmarked(y, a.style)
    ensures Install(a, x).Plan?
    ensures Uninstall(a, Install(a, x).content + y) == Plan(Kept(x) + y)
    ensures Uninstall(a, Install(a, x).content + y) == Plan(x + y) <==> x == "" || x[|x| - 1] != '\r'
  {
    InstallPlain(a, x);
    SpanOfInstalled(a, x, y);
    assert |Kept(x) + y| == |Kept(x)| + |y| && |x + y| == |x| + |y|;
  }

  /** The text without a block from `begin` on, of which `first` and `last`
      are the markers. */
  ghost predicate IsWithoutBlock(style: Style, t: string, left: string, begin: nat, first: Span, last: Span) {
    && IsOnlyMarker(t, style.begin, first) && IsOnlyMarker(t, style.end, last)
    && begin <= first.start <= first.end <= last.start <= last.end <= |t|
    && left == t[..begin] + t[last.end..]
    && style.fence <= t[begin..first.start] && IsLineEnd(t[begin..first.start][|style.fence|..])
  }

  /** Uninstalling leaves a file without markers as it is, and changes another
      only by taking out its one block. */
  lemma UninstallTakesOneBlock(a: Artifact, t: string) returns (begin: nat, first: Span, last: Span)
    ensures (forall span :: !IsMarkerLine(t, a.style.begin, span) && !IsMarkerLine(t, a.style.end, span))
      ==> Uninstall(a, t) == Plan(t)
    ensures var left := Uninstall(a, t);
      left.Plan? && left.content != t ==> IsWithoutBlock(a.style, t, left.content, begin, first, last)
  {
    hide IsMarkerLine, IsOnlyMarker, BlockSpan;
    begin, first, last := 0, Span(0, 0), Span(0, 0);
    NoBlockMeansNoMarker(t, a.style);
    if BlockSpan(t, a.style).Block? {
      begin := BlockSpan(t, a.style).begin;
      first, last := BlockIsTheOnlyOne(t, a.style);
      MarkerIsALine(t, a.style.begin, first);
      MarkerIsALine(t, a.style.end, last);
    }
  }

  lemma MarkerIsALine(t: string, marker: string, span: Span)
    requires IsOnlyMarker(t, marker, span)
    ensures span.start < span.end <= |t|
  {
    assert IsMarkerLine(t, marker, span);
  }

  /** Without fences, it refuses no file with one begin marker in front of one
      end marker. */
  lemma UninstallTakesSoundBlocks(a: Artifact, t: string, first: Span, last: Span)
    requires a.style.fence == "" && IsOnlyMarker(t, a.style.begin, first) && IsOnlyMarker(t, a.style.end, last)
    requires first.end <= last.start
    ensures Uninstall(a, t).Plan? && Uninstall(a, t).content != t
  {
    hide IsOnlyMarker, BlockSpan;
    SoundBlockIsFound(t, a.style, first, last);
    MarkerIsALine(t, a.style.begin, first);
    var f, l := BlockIsTheOnlyOne(t, a.style);
    MarkerIsALine(t, a.style.begin, f);
    MarkerIsALine(t, a.style.end, l);
    var b := BlockSpan(t, a.style);
    assert |t[..b.begin] + t[b.end..]| < |t|;
  }

  /** Installing over a block, perhaps an older one, replaces the block only. */
  lemma ReinstallReplaces(a: Artifact, b: Artifact, x: string, y: string)
    requires a.standing && b.standing && a.style == b.style && a.style.fence == "" && Usable(a.style)
    requires Proper(a.body, a.style) && Proper(b.body, b.style)
    requires Unmarked(x, a.style) && Unmarked(y, a.style)
    ensures Install(a, x).Plan? && Install(b, Kept(x)).Plan?
    ensures Install(b, Install(a, x).content + y) == Plan(Install(b, Kept(x)).content + y)
  {
    InstallPlain(a, x);
    KeptIsUnmarked(x, a.style);
    InstallPlain(b, Kept(x));
    SpanOfInstalled(a, x, y);
  }

  /** Installing twice is installing once, unless the file ended in a bare CR. */
  lemma InstallIsIdempotent(a: Artifact, x: string)
    requires a.standing && a.style.fence == "" && Usable(a.style) && Proper(a.body, a.style)
    requires Unmarked(x, a.style)
    ensures Install(a, x).Plan?
    ensures Install(a, Install(a, x).content) == Install(a, x) <==> x == "" || x[|x| - 1] != '\r'
  {
    InstallPlain(a, x);
    KeptIsUnmarked(x, a.style);
    InstallPlain(a, Kept(x));
    ReinstallReplaces(a, a, x, "");
    assert Install(a, x).content + "" == Install(a, x).content;
    assert Install(a, Kept(x)).content + "" == Install(a, Kept(x)).content;
    ShorterInstall(a, x);
  }

  lemma ShorterInstall(a: Artifact, x: string)
    requires a.standing
    ensures |Kept(x)| < |x| ==>
      |Kept(x) + Written(a.style, a.body, NeedsNewline(a, Kept(x)))|
        < |x + Written(a.style, a.body, NeedsNewline(a, x))|
  {
    WrittenLonger(a.style, a.body);
  }

  lemma WrittenLonger(style: Style, body: string)
    ensures |Written(style, body, false)| < |Written(style, body, true)|
  {
  }

  lemma KeptIsUnmarked(x: string, style: Style)
    requires Unmarked(x, style)
    ensures Unmarked(Kept(x), style)
  {
    if Kept(x) != x {
      assert x == Kept(x) + "\r";
      FreeWithoutCr(Kept(x), "", style.begin, 0);
      FreeWithoutCr(Kept(x), "", style.end, 0);
    }
  }

  // ---------------------------------------------------------------------
  // Files of their own
  // ---------------------------------------------------------------------

  lemma FencedText(x: string, style: Style, body: string, y: string)
    requires style.fence != ""
    ensures x + Written(style, body, false) + y
      == x + (style.fence + "\n") + Bracket(style, Middle(style, body, false), y)
  {
  }

  lemma FenceTrimmed(x: string, fence: string)
    requires IsLine(fence)
    ensures TrimSuffix(TrimSuffix(x + (fence + "\n"), '\n'), '\r') == x + fence
  {
    var head := x + (fence + "\n");
    assert head[..|head| - 1] == x + fence;
    assert (x + fence)[|x + fence| - 1] == fence[|fence| - 1] && fence[|fence| - 1] in fence;
  }

  lemma FencedStart(x: string, fence: string)
    requires Ended(x) && IsLine(fence)
    ensures BlockStart(x + (fence + "\n"), fence, false) == Some(|x|)
  {
    hide LastLineStart;
    FenceTrimmed(x, fence);
    LastLineIs(x, fence);
  }

  lemma {:induction false} LastLineIs(x: string, line: string)
    requires Ended(x) && '\n' !in line
    ensures LastLineStart(x + line) == |x| && (x + line)[|x|..] == line
  {
    if line == "" {
      assert x + line == x;
    } else {
      var shorter := line[..|line| - 1];
      assert (x + line)[..|x + line| - 1] == x + shorter;
      assert (x + line)[|x + line| - 1] == line[|line| - 1] && line[|line| - 1] in line;
      LastLineIs(x, shorter);
    }
  }

  lemma FenceIsUnmarked(x: string, style: Style)
    requires Usable(style) && style.fence != "" && Ended(x) && Unmarked(x, style)
    ensures Unmarked(x + (style.fence + "\n"), style)
  {
    ScanAfterFree(x, style.fence + "\n", style.begin, 0);
    ScanAfterFree(x, style.fence + "\n", style.end, 0);
    SpansOfLine(style.fence, style.begin, |x|);
    SpansOfLine(style.fence, style.end, |x|);
  }

  lemma SpanOfFenced(style: Style, body: string, x: string, y: string)
    requires Usable(style) && style.fence != "" && Proper(body, style)
    requires Ended(x) && Unmarked(x, style) && Unmarked(y, style)
    ensures var t := x + Written(style, body, false) + y; BlockSpan(t, style) == Block(|x|, |t| - |y|)
  {
    FencedText(x, style, body, y);
    FenceIsUnmarked(x, style);
    SpanOfBlock(x + (style.fence + "\n"), style, body, false, y);
    FencedStart(x, style.fence);
  }

  /** A fenced block among whole lines is taken out with its fence. */
  lemma FencedRoundTrip(a: Artifact, x: string, y: string)
    requires Usable(a.style) && a.style.fence != "" && Proper(a.body, a.style)
    requires Ended(x) && Unmarked(x, a.style) && Unmarked(y, a.style)
    ensures Uninstall(a, x + Written(a.style, a.body, false) + y) == Plan(x + y)
  {
    SpanOfFenced(a.style, a.body, x, y);
    FencedSlices(x, Written(a.style, a.body, false), y);
  }

  lemma FencedSlices(x: string, w: string, y: string)
    ensures var t := x + w + y; t[..|x|] == x && t[|t| - |y|..] == y
  {
  }

  /** The block is found whether it begins with a fence or a blank line. */
  lemma SpanOfOwned(style: Style, body: string, x: string, y: string)
    requires Usable(style) && Proper(body, style)
    requires Ended(x) && Unmarked(x, style) && Unmarked(y, style)
    ensures var t := x + Written(style, body, false) + y; BlockSpan(t, style) == Block(|x|, |t| - |y|)
  {
    if style.fence == "" {
      SpanOfInstalled(Artifact(style, body, true), x, y);
    } else {
      SpanOfFenced(style, body, x, y);
    }
  }

  /** A file of its own, fenced or not, that install created: whatever whole
      lines were put before it and whatever was put after it, uninstalling
      leaves exactly those. */
  lemma OwnedRoundTrip(a: Artifact, x: string, y: string)
    requires !a.standing && Usable(a.style) && Proper(a.body, a.style)
    requires Ended(x) && Unmarked(x, a.style) && Unmarked(y, a.style)
    ensures Install(a, "").Plan?
    ensures Uninstall(a, x + Install(a, "").content + y) == Plan(x + y)
  {
    OwnedInstall(a);
    SpanOfOwned(a.style, a.body, x, y);
    FencedSlices(x, Written(a.style, a.body, false), y);
  }

  lemma OwnedInstall(a: Artifact)
    requires !a.standing
    ensures Install(a, "") == Plan(Written(a.style, a.body, false))
  {
    assert Scan("", "", a.style.begin, 0) == Scan("", "", a.style.end, 0) == Nil;
    assert "" + Written(a.style, a.body, false) == Written(a.style, a.body, false);
  }

  /** Installing over such a file replaces the block only, and installing the
      same instructions again changes nothing. A file without a block is left
      to its owner unless it is empty. */
  lemma OwnedReinstall(a: Artifact, b: Artifact, x: string, y: string)
    requires !a.standing && !b.standing && a.style == b.style && Usable(a.style)
    requires Proper(a.body, a.style) && Proper(b.body, b.style)
    requires Ended(x) && Unmarked(x, a.style) && Unmarked(y, a.style)
    ensures Install(a, "").Plan? && Install(b, "").Plan?
    ensures Install(b, x + Install(a, "").content + y) == Plan(x + Install(b, "").content + y)
    ensures Install(a, x + Install(a, "").content + y) == Plan(x + Install(a, "").content + y)
    ensures Install(a, x) == if x == "" then Install(a, "") else Refused
  {
    OwnedInstall(a);
    OwnedInstall(b);
    SpanOfOwned(a.style, a.body, x, y);
    FencedSlices(x, Written(a.style, a.body, false), y);
  }
}
