/** The lines of a text that equal a marker, with LF or CRLF line ends or none
    at the end of the text, and where they are found in texts put together
    (cmd/kata/agent_instructions.go, markerLines). */
module MarkedLines {

  /** A line of text of its own: not empty and free of line ends. */
  predicate IsLine(m: string) {
    m != "" && '\n' !in m && '\r' !in m
  }

  datatype Span = Span(start: nat, end: nat)

  datatype Spans = Nil | Cons(head: Span, tail: Spans)

  function Join(a: Spans, b: Spans): Spans {
    match a
    case Nil => b
    case Cons(h, t) => Cons(h, Join(t, b))
  }

  lemma {:induction a} JoinAssociates(a: Spans, b: Spans, c: Spans)
    ensures Join(Join(a, b), c) == Join(a, Join(b, c))
  {
  }

  /** strings.TrimRight(line, "\r\n"). */
  function TrimRight(s: string): string {
    if s != "" && (s[|s| - 1] == '\n' || s[|s| - 1] == '\r') then TrimRight(s[..|s| - 1]) else s
  }

  /** The spans of the lines equal to `marker` in `line + s`, where the first
      line begins with `line` at `start`. */
  function Scan(s: string, line: string, marker: string, start: nat): Spans
    decreases |s|
  {
    if s == "" then
      if line != "" && TrimRight(line) == marker then Cons(Span(start, start + |line|), Nil) else Nil
    else if s[0] == '\n' then
      var rest := Scan(s[1..], "", marker, start + |line| + 1);
      if TrimRight(line) == marker then Cons(Span(start, start + |line| + 1), rest) else rest
    else Scan(s[1..], line + [s[0]], marker, start)
  }

  method MarkerLines(content: string, marker: string) returns (spans: Spans)
    ensures spans == Scan(content, "", marker, 0)
  {
    spans := Nil;
    var start := 0;
    while start < |content|
      invariant start <= |content|
      invariant Join(spans, Scan(content[start..], "", marker, start)) == Scan(content, "", marker, 0)
    {
      var end := LineEnd(content, start, marker);
      LineIs(content, start, end, marker);
      JoinAssociates(spans, Cons(Span(start, end), Nil), Scan(content[end..], "", marker, end));
      if TrimRight(content[start..end]) == marker {
        spans := Join(spans, Cons(Span(start, end), Nil));
      }
      start := end;
    }
    JoinNil(spans);
  }

  lemma {:induction a} JoinNil(a: Spans)
    ensures Join(a, Nil) == a
  {
  }

  /** strings.Lines: a line ends after its newline, or with the text. */
  method LineEnd(content: string, start: nat, ghost marker: string) returns (end: nat)
    requires start < |content|
    ensures start < end <= |content|
    ensures '\n' !in content[start..end - 1] && (content[end - 1] == '\n' || end == |content|)
    ensures Scan(content[start..], "", marker, start)
      == Scan(content[end - 1..], content[start..end - 1], marker, start)
  {
    hide Scan;
    end := start;
    assert content[start..end] == "";
    while end + 1 < |content| && content[end] != '\n'
      invariant start <= end < |content| && '\n' !in content[start..end]
      invariant Scan(content[start..], "", marker, start) == Scan(content[end..], content[start..end], marker, start)
    {
      ScanFurther(content, start, end, marker);
      end := end + 1;
    }
    end := end + 1;
  }

  lemma OneFurther(content: string, start: nat, end: nat)
    requires start <= end < |content|
    ensures content[end..][0] == content[end] && content[end..][1..] == content[end + 1..]
    ensures content[start..end] + [content[end]] == content[start..end + 1]
  {
  }

  lemma ScanFurther(content: string, start: nat, end: nat, marker: string)
    requires start <= end < |content| && content[end] != '\n' && '\n' !in content[start..end]
    ensures Scan(content[end..], content[start..end], marker, start)
      == Scan(content[end + 1..], content[start..end + 1], marker, start)
    ensures '\n' !in content[start..end + 1]
  {
    OneFurther(content, start, end);
  }

  lemma LineIs(content: string, start: nat, end: nat, marker: string)
    requires start < end <= |content|
    requires content[end - 1] == '\n' || end == |content|
    ensures Scan(content[end - 1..], content[start..end - 1], marker, start)
      == if TrimRight(content[start..end]) == marker then Cons(Span(start, end), Scan(content[end..], "", marker, end))
         else Scan(content[end..], "", marker, end)
  {
    OneFurther(content, start, end - 1);
    if content[end - 1] == '\n' {
      TrimIgnoresEnd(content[start..end - 1]);
    } else {
      assert content[end..] == "";
    }
  }

  lemma TrimIgnoresEnd(s: string)
    ensures TrimRight(s + "\n") == TrimRight(s) && TrimRight(s + "\r") == TrimRight(s)
  {
    assert (s + "\n")[..|s|] == s && (s + "\r")[..|s|] == s;
  }

  /** No line of `s` equals the marker. */
  predicate Free(s: string, marker: string) {
    Scan(s, "", marker, 0) == Nil
  }

  lemma {:induction false} FreeAnywhere(s: string, line: string, marker: string, start: nat, other: nat)
    ensures Scan(s, line, marker, start) == Nil <==> Scan(s, line, marker, other) == Nil
    decreases |s|
  {
    if s != "" {
      if s[0] == '\n' {
        FreeAnywhere(s[1..], "", marker, start + |line| + 1, other + |line| + 1);
      } else {
        FreeAnywhere(s[1..], line + [s[0]], marker, start, other);
      }
    }
  }

  predicate Ended(s: string) {
    s == "" || s[|s| - 1] == '\n'
  }

  lemma Shorter(a: string, b: string)
    requires a != ""
    ensures (a + b)[0] == a[0] && (a + b)[1..] == a[1..] + b
  {
  }

  /** Whole lines are searched one text after the other. */
  lemma {:induction false} ScanParts(a: string, line: string, b: string, marker: string, start: nat)
    requires Ended(a) && (a == "" ==> line == "")
    ensures Scan(a + b, line, marker, start)
      == Join(Scan(a, line, marker, start), Scan(b, "", marker, start + |line| + |a|))
    decreases |a|
  {
    if a == "" {
      assert a + b == b;
    } else {
      Shorter(a, b);
      if a[0] == '\n' {
        ScanParts(a[1..], "", b, marker, start + |line| + 1);
      } else {
        ScanParts(a[1..], line + [a[0]], b, marker, start);
      }
    }
  }

  lemma {:induction false} ScanLine(m: string, line: string, marker: string, start: nat)
    requires '\n' !in m
    ensures Scan(m + "\n", line, marker, start)
      == if TrimRight(line + m) == marker then Cons(Span(start, start + |line| + |m| + 1), Nil) else Nil
    decreases |m|
  {
    if m == "" {
      assert m + "\n" == "\n" && line + m == line;
    } else {
      Shorter(m, "\n");
      assert line + [m[0]] + m[1..] == line + m;
      ScanLine(m[1..], line + [m[0]], marker, start);
    }
  }

  /** A single line is found exactly when it is the marker. */
  lemma SpansOfLine(m: string, marker: string, start: nat)
    requires IsLine(m)
    ensures Scan(m + "\n", "", marker, start) == if m == marker then Cons(Span(start, start + |m| + 1), Nil) else Nil
  {
    ScanLine(m, "", marker, start);
    assert "" + m == m;
    assert m[|m| - 1] in m;
  }

  /** Ending the last line, or adding an empty one, makes no new marker. */
  lemma {:induction false} FreeEnded(s: string, line: string, marker: string, start: nat)
    requires Scan(s, line, marker, start) == Nil && marker != ""
    ensures Scan(s + "\n", line, marker, start) == Nil
    decreases |s|
  {
    if s == "" {
      assert s + "\n" == "\n";
    } else {
      Shorter(s, "\n");
      if s[0] == '\n' {
        FreeEnded(s[1..], "", marker, start + |line| + 1);
      } else {
        FreeEnded(s[1..], line + [s[0]], marker, start);
      }
    }
  }

  /** Nor does taking away a bare carriage return at the end. */
  lemma {:induction false} FreeWithoutCr(s: string, line: string, marker: string, start: nat)
    requires Scan(s + "\r", line, marker, start) == Nil
    ensures Scan(s, line, marker, start) == Nil
    decreases |s|
  {
    if s == "" {
      assert (s + "\r")[0] == '\r' && (s + "\r")[1..] == "";
      TrimIgnoresEnd(line);
    } else {
      Shorter(s, "\r");
      if s[0] == '\n' {
        FreeWithoutCr(s[1..], "", marker, start + |line| + 1);
      } else {
        FreeWithoutCr(s[1..], line + [s[0]], marker, start);
      }
    }
  }

  // ---------------------------------------------------------------------
  // What is found
  // ---------------------------------------------------------------------

  predicate Has(spans: Spans, span: Span) {
    spans.Cons? && (spans.head == span || Has(spans.tail, span))
  }

  /** A line of the text with its line end, if it has one, that is the marker. */
  predicate IsMarkerLine(t: string, marker: string, span: Span) {
    && span.start < span.end <= |t|
    && (span.start == 0 || t[span.start - 1] == '\n') && (span.end == |t| || t[span.end - 1] == '\n')
    && '\n' !in t[span.start..span.end - 1] && TrimRight(t[span.start..span.end]) == marker
  }

  lemma TwoLines(line: string, rest: string)
    requires '\n' !in line
    ensures var t, n := line + ("\n" + rest), |line| + 1;
      && |t| == n + |rest| && t[|line|] == '\n' && t[0..n] == line + "\n" && t[0..n - 1] == line
      && (forall i :: 0 <= i < |line| ==> t[i] != '\n') && forall i :: 0 <= i < |rest| ==> t[n + i] == rest[i]
  {
    var t := line + ("\n" + rest);
    assert forall i :: 0 <= i < |line| ==> t[i] == line[i];
  }

  /** The first line of a text with more than one. */
  lemma FirstLine(line: string, rest: string, marker: string, span: Span)
    requires '\n' !in line && span.start < |line| + 1
    ensures IsMarkerLine(line + ("\n" + rest), marker, span) <==>
      span == Span(0, |line| + 1) && TrimRight(line) == marker
  {
    hide TrimRight;
    var t, n := line + ("\n" + rest), |line| + 1;
    TwoLines(line, rest);
    TrimIgnoresEnd(line);
    if span.end > n && span.end <= |t| {
      assert t[span.start..span.end - 1][|line| - span.start] == '\n';
    }
  }

  lemma Behind(line: string, rest: string)
    ensures var t, n := line + ("\n" + rest), |line| + 1; t[n - 1] == '\n' && t[n..] == rest
  {
  }

  lemma Shifted(t: string, n: nat, a: nat, b: nat)
    requires n <= a <= b <= |t|
    ensures t[a..b] == t[n..][a - n..b - n] && (a > n ==> t[a - 1] == t[n..][a - n - 1])
    ensures b > n ==> t[b - 1] == t[n..][b - n - 1]
  {
  }

  lemma LineBehind(t: string, n: nat, marker: string, a: nat, b: nat)
    requires 0 < n <= |t| && n <= a && t[n - 1] == '\n'
    ensures IsMarkerLine(t, marker, Span(a, b)) <==> b >= n && IsMarkerLine(t[n..], marker, Span(a - n, b - n))
  {
    hide TrimRight;
    if a < b <= |t| {
      Shifted(t, n, a, b);
      Shifted(t, n, a, b - 1);
    }
  }

  /** The lines after it. */
  lemma LaterLine(line: string, rest: string, marker: string, span: Span)
    requires '\n' !in line && span.start >= |line| + 1
    ensures var n := |line| + 1; IsMarkerLine(line + ("\n" + rest), marker, span) <==>
      span.end >= n && IsMarkerLine(rest, marker, Span(span.start - n, span.end - n))
  {
    hide IsMarkerLine;
    Behind(line, rest);
    LineBehind(line + ("\n" + rest), |line| + 1, marker, span.start, span.end);
  }

  lemma LastLine(line: string, marker: string, span: Span)
    requires '\n' !in line
    ensures IsMarkerLine(line, marker, span) <==> line != "" && span == Span(0, |line|) && TrimRight(line) == marker
  {
    assert line[0..|line|] == line;
    assert forall i :: 0 <= i < |line| ==> line[i] != '\n';
  }

  /** The search finds exactly the lines that are the marker. */
  lemma {:induction false} ScanFinds(s: string, line: string, marker: string, start: nat, span: Span)
    requires '\n' !in line
    ensures Has(Scan(s, line, marker, start), Span(start + span.start, start + span.end)) <==>
      IsMarkerLine(line + s, marker, span)
    decreases |s|
  {
    hide IsMarkerLine, TrimRight;
    if s == "" {
      assert line + s == line;
      LastLine(line, marker, span);
    } else if s[0] == '\n' {
      var n := |line| + 1;
      assert line + s == line + ("\n" + s[1..]);
      assert "" + s[1..] == s[1..];
      if span.start < n {
        FirstLine(line, s[1..], marker, span);
        NothingBefore(s[1..], "", marker, start + n, Span(start + span.start, start + span.end));
      } else if span.end >= n {
        LaterLine(line, s[1..], marker, span);
        ScanFinds(s[1..], "", marker, start + n, Span(span.start - n, span.end - n));
      } else {
        LaterLine(line, s[1..], marker, span);
        NothingBefore(s[1..], "", marker, start + n, Span(start + span.start, start + span.end));
      }
    } else {
      assert line + s == line + [s[0]] + s[1..];
      ScanFinds(s[1..], line + [s[0]], marker, start, span);
    }
  }

  lemma {:induction false} NothingBefore(s: string, line: string, marker: string, start: nat, span: Span)
    requires span.start < start || span.end < start
    ensures !Has(Scan(s, line, marker, start), span)
    decreases |s|
  {
    if s != "" {
      if s[0] == '\n' {
        NothingBefore(s[1..], "", marker, start + |line| + 1, span);
      } else {
        NothingBefore(s[1..], line + [s[0]], marker, start, span);
      }
    }
  }

  /** The marker lines of a text are the spans found in it. */
  lemma FoundAreMarkerLines(t: string, marker: string, span: Span)
    ensures Has(Scan(t, "", marker, 0), span) <==> IsMarkerLine(t, marker, span)
  {
    hide Scan, IsMarkerLine;
    assert "" + t == t;
    ScanFinds(t, "", marker, 0, span);
  }

  /** Spans one behind the other, from `lo` on. */
  predicate Ascending(spans: Spans, lo: nat) {
    spans.Cons? ==> lo <= spans.head.start < spans.head.end && Ascending(spans.tail, spans.head.end)
  }

  lemma {:induction spans} AscendingFrom(spans: Spans, lo: nat, lower: nat)
    requires Ascending(spans, lo) && lower <= lo
    ensures Ascending(spans, lower)
  {
  }

  lemma {:induction false} ScanAscends(s: string, line: string, marker: string, start: nat)
    ensures Ascending(Scan(s, line, marker, start), start)
    decreases |s|
  {
    if s != "" {
      if s[0] == '\n' {
        ScanAscends(s[1..], "", marker, start + |line| + 1);
        AscendingFrom(Scan(s[1..], "", marker, start + |line| + 1), start + |line| + 1, start);
      } else {
        ScanAscends(s[1..], line + [s[0]], marker, start);
      }
    }
  }

  /** `span` is the one line of the text that is the marker. */
  ghost predicate IsOnlyMarker(t: string, marker: string, span: Span) {
    forall other :: IsMarkerLine(t, marker, other) <==> other == span
  }

  /** The search finds one span exactly if there is one marker line. */
  lemma OneFound(t: string, marker: string, span: Span)
    ensures Scan(t, "", marker, 0) == Cons(span, Nil) <==> IsOnlyMarker(t, marker, span)
  {
    hide Scan, IsMarkerLine;
    var spans := Scan(t, "", marker, 0);
    ScanAscends(t, "", marker, 0);
    forall other ensures Has(spans, other) <==> IsMarkerLine(t, marker, other) {
      FoundAreMarkerLines(t, marker, other);
    }
    if IsOnlyMarker(t, marker, span) {
      assert Has(spans, span) && Has(spans, spans.head);
      if spans.tail.Cons? {
        assert Has(spans, spans.tail.head);
      }
    } else if spans == Cons(span, Nil) {
      assert forall other :: Has(spans, other) <==> other == span;
    }
  }
}
