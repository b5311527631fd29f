/** JSON with comments and trailing commas: blanking both out without moving
    any byte (cmd/kata/agent_hooks_plugins.go, pluginAgentHookJSONC). */
module Jsonc {
  import opened Options

  predicate White(c: char) {
    c == ' ' || c == '\t' || c == '\r' || c == '\n'
  }

  /** Where a reader of the text is: outside strings, in one, behind a
      backslash in one, or at some place of a comment. */
  datatype Mode = Code | Quoted | Escaped | Line | Opening | Block | Closing

  datatype Stepped = Stepped(out: char, mode: Mode)

  function Head(t: string): Option<char> {
    if t == "" then None else Some(t[0])
  }

  /** What becomes of one byte, given the one after it. */
  function Blanked(m: Mode, c: char, next: Option<char>): Stepped {
    match m
    case Code =>
      if c == '"' then Stepped(c, Quoted)
      else if c == '/' && next == Some('/') then Stepped(' ', Line)
      else if c == '/' && next == Some('*') then Stepped(' ', Opening)
      else Stepped(c, Code)
    case Quoted => Stepped(c, if c == '\\' then Escaped else if c == '"' then Code else Quoted)
    case Escaped => Stepped(c, Quoted)
    case Line => if c == '\n' then Stepped(c, Code) else Stepped(' ', Line)
    case Opening => Stepped(' ', Block)
    case Block =>
      if c == '*' && next == Some('/') then Stepped(' ', Closing)
      else Stepped(if c == '\n' || c == '\r' then c else ' ', Block)
    case Closing => Stepped(' ', Code)
  }

  function Prepend(p: string, t: Option<string>): Option<string> {
    match t
    case None => None
    case Some(s) => Some(p + s)
  }

  /** Comments become blanks; an unterminated one is an error. */
  function Blank(t: string, m: Mode): (r: Option<string>)
    ensures r.Some? ==> |r.value| == |t|
  {
    if t == "" then
      if m == Opening || m == Block || m == Closing then None else Some("")
    else
      var step := Blanked(m, t[0], Head(t[1..]));
      Prepend([step.out], Blank(t[1..], step.mode))
  }

  /** The string-or-not reading of text without comments. */
  function Lexed(l: Mode, c: char): Mode {
    match l
    case Quoted => if c == '\\' then Escaped else if c == '"' then Code else Quoted
    case Escaped => Quoted
    case _ => if c == '"' then Quoted else Code
  }

  function LexRun(l: Mode, t: string): Mode
    decreases |t|
  {
    if t == "" then l else LexRun(Lexed(l, t[0]), t[1..])
  }

  /** The next byte that is not white closes an object or an array. */
  predicate Closes(t: string) {
    t != "" && if White(t[0]) then Closes(t[1..]) else t[0] == ']' || t[0] == '}'
  }

  function Kept(l: Mode, t: string): char
    requires t != ""
  {
    if l == Code && t[0] == ',' && Closes(t[1..]) then ' ' else t[0]
  }

  /** Trailing commas become blanks. */
  function Drop(t: string, l: Mode): (r: string)
    ensures |r| == |t|
  {
    if t == "" then "" else [Kept(l, t)] + Drop(t[1..], Lexed(l, t[0]))
  }

  /** The text handed to the JSON decoder. */
  function Normal(data: string): (r: Option<string>)
    ensures r.Some? ==> |r.value| == |data|
  {
    match Blank(data, Code)
    case None => None
    case Some(b) => Some(Drop(b, Code))
  }

  // ---------------------------------------------------------------------
  // The loops over the buffer
  // ---------------------------------------------------------------------

  lemma Tail(data: string, i: nat)
    requires i < |data|
    ensures data[i..] != "" && data[i..][0] == data[i] && data[i..][1..] == data[i + 1..]
    ensures Head(data[i + 1..]) == if i + 1 < |data| then Some(data[i + 1]) else None
  {
  }

  lemma PrependTwice(p: string, c: char, t: Option<string>)
    ensures Prepend(p, Prepend([c], t)) == Prepend(p + [c], t)
  {
    if t.Some? {
      assert p + ([c] + t.value) == p + [c] + t.value;
    }
  }

  /** The first `i` bytes are done; the rest is still the input. */
  ghost predicate Done(out: array<char>, data: string, i: nat, m: Mode)
    reads out
  {
    && out.Length == |data| && i <= |data|
    && out[i..] == data[i..]
    && Prepend(out[..i], Blank(data[i..], m)) == Blank(data, Code)
  }

  /** What is ahead is still the input. */
  lemma Unread(out: array<char>, data: string, i: nat, m: Mode)
    requires Done(out, data, i, m) && i < |data|
    ensures out[i] == data[i] && (i + 1 < |data| ==> out[i + 1] == data[i + 1])
  {
    assert out[i] == out[i..][0];
    assert i + 1 < |data| ==> out[i + 1] == out[i..][1];
  }

  lemma Unclosed(out: array<char>, data: string)
    requires Done(out, data, |data|, Block)
    ensures Blank(data, Code) == None
  {
    assert data[|data|..] == "";
  }

  /** One byte: read, blanked if need be, and passed. */
  method Pass(out: array<char>, ghost data: string, i: nat, ghost m: Mode, blank: bool)
    requires Done(out, data, i, m) && i < |data|
    requires Blanked(m, data[i], Head(data[i + 1..])).out == if blank then ' ' else data[i]
    modifies out
    ensures Done(out, data, i + 1, Blanked(m, data[i], Head(data[i + 1..])).mode)
  {
    ghost var before := out[..];
    Tail(data, i);
    assert out[i] == out[i..][0];
    if blank {
      out[i] := ' ';
    }
    ghost var step := Blanked(m, data[i], Head(data[i + 1..]));
    assert out[..i + 1] == before[..i] + [step.out];
    assert out[i + 1..] == before[i..][1..];
    PrependTwice(before[..i], step.out, Blank(data[i + 1..], step.mode));
  }

  /** Blank the rest of a line, from its second slash on. */
  method PassLine(out: array<char>, ghost data: string, from: nat) returns (i: nat)
    requires Done(out, data, from, Line)
    modifies out
    ensures Done(out, data, i, Line) && from <= i <= |data|
    ensures i < |data| ==> data[i] == '\n'
  {
    i := from;
    while i < out.Length && out[i] != '\n'
      invariant from <= i <= |data| && Done(out, data, i, Line)
    {
      assert out[i] == out[i..][0];
      Pass(out, data, i, Line, true);
      i := i + 1;
    }
    assert i < |data| ==> out[i] == out[i..][0];
  }

  /** Blank a block comment behind its opening, line ends apart. */
  method PassBlock(out: array<char>, ghost data: string, from: nat) returns (i: nat, closed: bool)
    requires Done(out, data, from, Block)
    modifies out
    ensures closed ==> from < i <= |data| && Done(out, data, i, Code)
    ensures !closed ==> Blank(data, Code) == None
  {
    hide Blank, Prepend;
    i := from;
    while i < out.Length
      invariant from <= i <= |data| && Done(out, data, i, Block)
    {
      Tail(data, i);
      Unread(out, data, i, Block);
      if out[i] == '*' && i + 1 < out.Length && out[i + 1] == '/' {
        Pass(out, data, i, Block, true);
        Pass(out, data, i + 1, Closing, true);
        return i + 2, true;
      }
      var white := out[i] == '\n' || out[i] == '\r';
      Pass(out, data, i, Block, !white);
      i := i + 1;
    }
    Unclosed(out, data);
    return i, false;
  }

  /** The first loop of pluginAgentHookJSONC. */
  method BlankComments(out: array<char>) returns (ok: bool)
    modifies out
    ensures if ok then Blank(old(out[..]), Code) == Some(out[..]) else Blank(old(out[..]), Code) == None
  {
    hide Blank, Prepend;
    ghost var data := out[..];
    var i, inString, escaped := 0, false, false;
    Started(out, data);
    while i < out.Length
      invariant i <= |data| && (escaped ==> inString)
      invariant Done(out, data, i, if escaped then Escaped else if inString then Quoted else Code)
    {
      var c := out[i];
      Tail(data, i);
      Unread(out, data, i, if escaped then Escaped else if inString then Quoted else Code);
      if inString {
        Pass(out, data, i, if escaped then Escaped else Quoted, false);
        if escaped {
          escaped := false;
        } else if c == '\\' {
          escaped := true;
        } else if c == '"' {
          inString := false;
        }
        i := i + 1;
      } else if c == '/' && i + 1 < out.Length && out[i + 1] == '/' {
        Pass(out, data, i, Code, true);
        i := PassLine(out, data, i + 1);
        if i < out.Length {
          Pass(out, data, i, Line, false);
          i := i + 1;
        } else {
          Finished(out, data, Line);
          return true;
        }
      } else if c == '/' && i + 1 < out.Length && out[i + 1] == '*' {
        Pass(out, data, i, Code, true);
        Pass(out, data, i + 1, Opening, true);
        var closed: bool;
        i, closed := PassBlock(out, data, i + 2);
        if !closed {
          return false;
        }
      } else {
        Pass(out, data, i, Code, false);
        inString := c == '"';
        i := i + 1;
      }
    }
    Finished(out, data, if escaped then Escaped else if inString then Quoted else Code);
    return true;
  }

  lemma Started(out: array<char>, data: string)
    requires out[..] == data
    ensures Done(out, data, 0, Code)
  {
    assert data[0..] == data && out[0..] == data && out[..0] == "";
    if Blank(data, Code).Some? {
      assert "" + Blank(data, Code).value == Blank(data, Code).value;
    }
  }

  lemma Finished(out: array<char>, data: string, m: Mode)
    requires Done(out, data, |data|, m) && !m.Opening? && !m.Block? && !m.Closing?
    ensures Blank(data, Code) == Some(out[..])
  {
    assert data[|data|..] == "" && out[..|data|] == out[..];
    assert out[..|data|] + "" == out[..|data|];
  }

  /** The look ahead of the second loop. */
  method LooksClosed(out: array<char>, i: nat) returns (closes: bool)
    requires i <= out.Length
    ensures closes == Closes(out[i..])
  {
    var j := i;
    while j < out.Length && White(out[j])
      invariant i <= j <= out.Length && Closes(out[j..]) == Closes(out[i..])
    {
      Tail(out[..], j);
      assert out[j..] == out[..][j..] && out[j + 1..] == out[..][j + 1..];
      j := j + 1;
    }
    if j < out.Length {
      Tail(out[..], j);
      assert out[j..] == out[..][j..];
    }
    return j < out.Length && (out[j] == ']' || out[j] == '}');
  }

  /** The first `i` bytes of `b` are done, and the rest untouched. */
  ghost predicate Dropped(out: array<char>, b: string, i: nat, l: Mode)
    reads out
  {
    && out.Length == |b| && i <= |b|
    && out[i..] == b[i..] && out[..i] + Drop(b[i..], l) == Drop(b, Code)
  }

  method Comma(out: array<char>, ghost b: string, i: nat)
    requires Dropped(out, b, i, Code) && i < |b|
    modifies out
    ensures Dropped(out, b, i + 1, Lexed(Code, b[i]))
  {
    var closes := LooksClosed(out, i + 1);
    Tail(b, i);
    assert out[i..][1..] == out[i + 1..] && out[i] == out[i..][0];
    Keep(out, b, i, Code, out[i] == ',' && closes);
  }

  method Keep(out: array<char>, ghost b: string, i: nat, ghost l: Mode, blank: bool)
    requires Dropped(out, b, i, l) && i < |b|
    requires Kept(l, b[i..]) == if blank then ' ' else b[i]
    modifies out
    ensures Dropped(out, b, i + 1, Lexed(l, b[i]))
  {
    ghost var before := out[..];
    Tail(b, i);
    assert out[i] == out[i..][0];
    if blank {
      out[i] := ' ';
    }
    assert out[..i + 1] == before[..i] + [Kept(l, b[i..])];
    assert out[i + 1..] == before[i..][1..];
    Regroup(before[..i], Kept(l, b[i..]), Drop(b[i + 1..], Lexed(l, b[i])));
  }

  lemma Regroup(p: string, c: char, t: string)
    ensures p + ([c] + t) == p + [c] + t
  {
  }

  /** The second loop of pluginAgentHookJSONC. */
  method BlankTrailingCommas(out: array<char>)
    modifies out
    ensures out[..] == Drop(old(out[..]), Code)
  {
    ghost var b := out[..];
    assert b[0..] == b && out[0..] == b && out[..0] + Drop(b, Code) == Drop(b, Code);
    var inString, escaped := false, false;
    for i := 0 to out.Length
      invariant escaped ==> inString
      invariant Dropped(out, b, i, if escaped then Escaped else if inString then Quoted else Code)
    {
      var c := out[i];
      Tail(b, i);
      assert c == out[i..][0];
      if inString {
        Keep(out, b, i, if escaped then Escaped else Quoted, false);
        if escaped {
          escaped := false;
        } else if c == '\\' {
          escaped := true;
        } else if c == '"' {
          inString := false;
        }
      } else {
        Comma(out, b, i);
        inString := c == '"';
      }
    }
    assert b[|b|..] == "" && out[..|b|] == out[..] && out[..] + "" == out[..];
  }

  /** pluginAgentHookJSONC, the validity of the result apart. */
  method NormalText(data: string) returns (r: Option<string>)
    ensures r == Normal(data)
  {
    var out := new char[|data|](i requires 0 <= i < |data| => data[i]);
    assert out[..] == data;
    var ok := BlankComments(out);
    if !ok {
      return None;
    }
    BlankTrailingCommas(out);
    return Some(out[..]);
  }

  // ---------------------------------------------------------------------
  // What is not blanked
  // ---------------------------------------------------------------------

  /** A byte of the decoder's text that is not white is the authored one. */
  lemma AuthoredBytes(data: string, i: nat)
    requires Normal(data).Some? && i < |data| && !White(Normal(data).value[i])
    ensures data[i] == Normal(data).value[i]
  {
    DropKeeps(Blank(data, Code).value, Code, i);
    BlankKeeps(data, Code, i);
  }

  lemma {:induction false} BlankKeeps(t: string, m: Mode, i: nat)
    requires Blank(t, m).Some? && i < |t| && !White(Blank(t, m).value[i])
    ensures t[i] == Blank(t, m).value[i]
    decreases |t|
  {
    if i > 0 {
      BlankKeeps(t[1..], Blanked(m, t[0], Head(t[1..])).mode, i - 1);
    }
  }

  lemma {:induction false} DropKeeps(t: string, l: Mode, i: nat)
    requires i < |t| && !White(Drop(t, l)[i])
    ensures t[i] == Drop(t, l)[i]
    decreases |t|
  {
    if i > 0 {
      DropKeeps(t[1..], Lexed(l, t[0]), i - 1);
    }
  }

  /** String contents are left alone: inside a string, every byte stays. */
  lemma {:induction false} StringsStay(body: string, l: Mode, rest: string)
    requires Inside(body, l)
    ensures Blank(body + rest, l) == Prepend(body, Blank(rest, Code))
    ensures Drop(body + rest, l) == body + Drop(rest, Code)
    decreases |body|
  {
    var c := body[0];
    assert (body + rest)[0] == c && (body + rest)[1..] == body[1..] + rest;
    if |body| == 1 {
      assert body == [c] && body[1..] + rest == rest;
    } else {
      StringsStay(body[1..], Lexed(l, c), rest);
      PrependCons(c, body[1..], Blank(rest, Code));
      assert body == [c] + body[1..];
      Regroup("", c, body[1..] + Drop(rest, Code));
      assert [c] + (body[1..] + Drop(rest, Code)) == body + Drop(rest, Code);
    }
  }

  /** The rest of a string token, up to its closing quote. */
  predicate Inside(body: string, l: Mode) {
    && body != "" && (l == Quoted || l == Escaped)
    && if |body| == 1 then l == Quoted && body[0] == '"'
      else !(l == Quoted && body[0] == '"') && Inside(body[1..], Lexed(l, body[0]))
  }

  lemma PrependCons(c: char, p: string, t: Option<string>)
    ensures Prepend([c], Prepend(p, t)) == Prepend([c] + p, t)
  {
    if t.Some? {
      assert [c] + (p + t.value) == [c] + p + t.value;
    }
  }

  // ---------------------------------------------------------------------
  // Inserting text
  // ---------------------------------------------------------------------

  /** What the first pass makes of `q` when `c` follows it. */
  function BlankBefore(q: string, m: Mode, c: char): string
    decreases |q|
  {
    if q == "" then ""
    else
      var step := Blanked(m, q[0], Head(q[1..] + [c]));
      [step.out] + BlankBefore(q[1..], step.mode, c)
  }

  function ModeBefore(q: string, m: Mode, c: char): Mode
    decreases |q|
  {
    if q == "" then m else ModeBefore(q[1..], Blanked(m, q[0], Head(q[1..] + [c])).mode, c)
  }

  lemma {:induction false} BlankSplits(q: string, m: Mode, c: char, s: string)
    ensures Blank(q + ([c] + s), m) == Prepend(BlankBefore(q, m, c), Blank([c] + s, ModeBefore(q, m, c)))
    ensures |BlankBefore(q, m, c)| == |q|
    decreases |q|
  {
    if q == "" {
      assert q + ([c] + s) == [c] + s;
      PrependNothing(Blank([c] + s, m));
    } else {
      FirstOf(q, c, s);
      var step := Blanked(m, q[0], Head(q[1..] + [c]));
      BlankSplits(q[1..], step.mode, c, s);
      PrependCons(step.out, BlankBefore(q[1..], step.mode, c), Blank([c] + s, ModeBefore(q, m, c)));
    }
  }

  lemma PrependNothing(t: Option<string>)
    ensures Prepend("", t) == t
  {
    if t.Some? {
      assert "" + t.value == t.value;
    }
  }

  lemma FirstOf(q: string, c: char, s: string)
    requires q != ""
    ensures (q + ([c] + s))[0] == q[0] && (q + ([c] + s))[1..] == q[1..] + ([c] + s)
    ensures Head(q[1..] + ([c] + s)) == Head(q[1..] + [c])
  {
    assert ([c] + s)[0] == c;
  }

  /** The reading of blanked text follows that of the authored text. */
  function LexOf(m: Mode): Mode {
    if m == Quoted || m == Escaped then m else Code
  }

  lemma {:induction false} ModeIsLexed(q: string, m: Mode, c: char)
    ensures LexOf(ModeBefore(q, m, c)) == LexRun(LexOf(m), BlankBefore(q, m, c))
    decreases |q|
  {
    if q != "" {
      var step := Blanked(m, q[0], Head(q[1..] + [c]));
      ModeIsLexed(q[1..], step.mode, c);
      var rest := BlankBefore(q[1..], step.mode, c);
      assert ([step.out] + rest)[0] == step.out && ([step.out] + rest)[1..] == rest;
    }
  }

  /** What the second pass makes of `b` when the byte `c`, not white, follows. */
  function DropBefore(b: string, l: Mode, c: char): string
    decreases |b|
  {
    if b == "" then "" else [Kept(l, b + [c])] + DropBefore(b[1..], Lexed(l, b[0]), c)
  }

  lemma {:induction false} ClosesEarly(b: string, c: char, s: string)
    requires !White(c)
    ensures Closes(b + ([c] + s)) == Closes(b + [c])
    decreases |b|
  {
    if b == "" {
      assert b + ([c] + s) == [c] + s && b + [c] == [c];
    } else {
      FirstOf(b, c, s);
      FirstOf(b, c, "");
      assert [c] + "" == [c];
      ClosesEarly(b[1..], c, s);
    }
  }

  lemma {:induction false} DropSplits(b: string, l: Mode, c: char, s: string)
    requires !White(c)
    ensures Drop(b + ([c] + s), l) == DropBefore(b, l, c) + Drop([c] + s, LexRun(l, b))
    ensures LexRun(l, DropBefore(b, l, c)) == LexRun(l, b) && |DropBefore(b, l, c)| == |b|
    decreases |b|
  {
    if b == "" {
      assert b + ([c] + s) == [c] + s;
    } else {
      FirstOf(b, c, s);
      FirstOf(b, c, "");
      assert [c] + "" == [c];
      ClosesEarly(b[1..], c, s);
      DropSplits(b[1..], Lexed(l, b[0]), c, s);
      var k, rest := Kept(l, b + [c]), DropBefore(b[1..], Lexed(l, b[0]), c);
      assert ([k] + rest)[0] == k && ([k] + rest)[1..] == rest;
      Regroup("", k, rest);
      assert [k] + (rest + Drop([c] + s, LexRun(l, b))) == [k] + rest + Drop([c] + s, LexRun(l, b));
    }
  }

  /** Text in which nothing is blanked, from outside strings to outside. */
  predicate Plain(t: string, l: Mode)
    decreases |t|
  {
    if t == "" then l == Code else !(l == Code && (t[0] == '/' || t[0] == ',')) && Plain(t[1..], Lexed(l, t[0]))
  }

  lemma {:induction false} PlainStays(t: string, l: Mode, s: string)
    requires Plain(t, l) && (l == Code || l == Quoted || l == Escaped)
    ensures Blank(t + s, l) == Prepend(t, Blank(s, Code)) && Drop(t + s, l) == t + Drop(s, Code)
    decreases |t|
  {
    if t == "" {
      assert t + s == s;
      PrependNothing(Blank(s, Code));
    } else {
      assert (t + s)[0] == t[0] && (t + s)[1..] == t[1..] + s;
      PlainStays(t[1..], Lexed(l, t[0]), s);
      PrependCons(t[0], t[1..], Blank(s, Code));
      assert [t[0]] + t[1..] == t;
      assert [t[0]] + (t[1..] + Drop(s, Code)) == t + Drop(s, Code);
    }
  }

  lemma {:induction false} PlainParts(a: string, b: string, l: Mode)
    requires Plain(a, l) && Plain(b, Code)
    ensures Plain(a + b, l)
    decreases |a|
  {
    if a == "" {
      assert a + b == b;
    } else {
      assert (a + b)[0] == a[0] && (a + b)[1..] == a[1..] + b;
      PlainParts(a[1..], b, Lexed(l, a[0]));
    }
  }

  lemma {:induction false} InsideIsPlain(body: string, l: Mode)
    requires Inside(body, l)
    ensures Plain(body, l)
    decreases |body|
  {
    if |body| == 1 {
      assert body[1..] == "";
    } else {
      InsideIsPlain(body[1..], Lexed(l, body[0]));
    }
  }

  lemma {:induction false} ClosesDropped(b: string)
    requires Closes(b)
    ensures Closes(Drop(b, Code))
    decreases |b|
  {
    if White(b[0]) {
      ClosesDropped(b[1..]);
    }
  }

  /** The text of a configuration around the place of an edit: `q`, then an
      opening bracket or brace read outside strings, then `s`. */
  ghost predicate Around(q: string, c: char, s: string, before: string, after: string) {
    && (c == '{' || c == '[')
    && Normal(q + ([c] + s)) == Some(before + ([c] + after))
    && |before| == |q| && LexRun(Code, before) == Code
  }

  /** The passes over the two sides do not see each other. */
  lemma SidesApart(q: string, c: char, s: string, before: string, after: string)
    requires Around(q, c, s, before, after)
    ensures ModeBefore(q, Code, c) == Code
    ensures before == DropBefore(BlankBefore(q, Code, c), Code, c)
    ensures Blank(s, Code).Some? && after == Drop(Blank(s, Code).value, Code)
    ensures LexRun(Code, BlankBefore(q, Code, c)) == Code
  {
    var bq, m := BlankBefore(q, Code, c), ModeBefore(q, Code, c);
    BlankSplits(q, Code, c, s);
    ModeIsLexed(q, Code, c);
    FirstIsKept(q, c, s, before, after);
    var b := Blank([c] + s, m).value;
    assert b == [c] + b[1..];
    DropSplits(bq, Code, c, b[1..]);
    SameSplit(DropBefore(bq, Code, c), Drop([c] + b[1..], LexRun(Code, bq)), before, [c] + after);
    BracketFirst(c, s);
    DropBracket(c, b[1..]);
    assert ([c] + after)[1..] == after && ([c] + Drop(b[1..], Code))[1..] == Drop(b[1..], Code);
  }

  /** The bracket itself is no part of a comment. */
  lemma FirstIsKept(q: string, c: char, s: string, before: string, after: string)
    requires Around(q, c, s, before, after)
    ensures var m := ModeBefore(q, Code, c);
      Blank([c] + s, m).Some? && Blank([c] + s, m).value[0] == c && m == LexOf(m)
  {
    var d, m := q + ([c] + s), ModeBefore(q, Code, c);
    BlankSplits(q, Code, c, s);
    var n := Normal(d).value;
    assert n[|q|] == c;
    DropKeeps(Blank(d, Code).value, Code, |q|);
    assert Blank(d, Code).value[|q|] == Blank([c] + s, m).value[0];
    assert ([c] + s)[0] == c;
  }

  lemma SameSplit(a: string, x: string, b: string, y: string)
    requires |a| == |b| && a + x == b + y
    ensures a == b && x == y
  {
    assert (a + x)[..|a|] == a && (b + y)[..|b|] == b;
    assert (a + x)[|a|..] == x && (b + y)[|b|..] == y;
  }

  lemma BracketFirst(c: char, s: string)
    requires c == '{' || c == '['
    ensures Blank([c] + s, Code) == Prepend([c], Blank(s, Code))
  {
    assert ([c] + s)[0] == c && ([c] + s)[1..] == s;
  }

  lemma DropBracket(c: char, b: string)
    requires c == '{' || c == '['
    ensures Drop([c] + b, Code) == [c] + Drop(b, Code)
  {
    assert ([c] + b)[0] == c && ([c] + b)[1..] == b;
  }

  /** Plain text inserted behind the bracket, with a comma where something
      follows, shows up in the decoder's text as it is and changes nothing
      else there. */
  lemma {:induction false} InsertionIsLocal(q: string, c: char, s: string, before: string, after: string, core: string,
      comma: string)
    requires Around(q, c, s, before, after) && Plain(core, Code)
    requires comma == "" || (comma == "," && !Closes(after))
    ensures Normal(q + ([c] + (core + (comma + s)))) == Some(before + ([c] + (core + (comma + after))))
  {
    SidesApart(q, c, s, before, after);
    var b := Blank(s, Code).value;
    CommaStays(comma, s);
    PlainStays(core, Code, comma + s);
    BlankSplits(q, Code, c, core + (comma + s));
    BracketFirst(c, core + (comma + s));
    var b' := [c] + (core + (comma + b));
    assert Blank(q + ([c] + (core + (comma + s))), Code) == Some(BlankBefore(q, Code, c) + b');
    DropSplits(BlankBefore(q, Code, c), Code, c, core + (comma + b));
    DropBracket(c, core + (comma + b));
    PlainStays(core, Code, comma + b);
  }

  lemma CommaStays(comma: string, s: string)
    requires Blank(s, Code).Some?
    requires comma == "" || (comma == "," && !Closes(Drop(Blank(s, Code).value, Code)))
    ensures Blank(comma + s, Code) == Some(comma + Blank(s, Code).value)
    ensures Drop(comma + Blank(s, Code).value, Code) == comma + Drop(Blank(s, Code).value, Code)
  {
    var b := Blank(s, Code).value;
    if comma == "" {
      assert comma + s == s && comma + b == b && comma + Drop(b, Code) == Drop(b, Code);
    } else {
      assert (comma + s)[0] == ',' && (comma + s)[1..] == s && (comma + b)[0] == ',' && (comma + b)[1..] == b;
      if Closes(b) {
        ClosesDropped(b);
      }
    }
  }
}
