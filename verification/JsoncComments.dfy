/** Comments in a configuration and JSON without any (cmd/kata/agent_hooks_plugins.go, pluginAgentHookJSONC). */
module JsoncComments {
  import opened Jsonc
  import opened JsoncCuts
  import opened JsonMachine
  import opened Options

  // ---------------------------------------------------------------------
  // One comment
  // ---------------------------------------------------------------------

  /** Ends with the first "*" and "/" in a row. */
  predicate Closed(t: string) {
    |t| >= 2 && if t[0] == '*' && t[1] == '/' then |t| == 2 else Closed(t[1..])
  }

  predicate HasEnd(t: string) {
    |t| >= 2 && ((t[0] == '*' && t[1] == '/') || HasEnd(t[1..]))
  }

  /** A comment with its ends: up to the end of the line, or up to the first
      closing mark. */
  predicate IsComment(c: string) {
    |c| > 2 && c[0] == '/' && ((c[1] == '/' && Ends(c[2..])) || (c[1] == '*' && Closed(c[2..])))
  }

  /** Ends with the first line end. */
  predicate Ends(t: string) {
    t != "" && if t[0] == '\n' then |t| == 1 else Ends(t[1..])
  }

  /** As many blanks, with the line ends where they were. */
  predicate BlanksFor(w: string, c: string) {
    |w| == |c| && forall i :: 0 <= i < |c| ==> White(w[i]) && (w[i] == '\n' <==> c[i] == '\n')
  }

  lemma BlanksMore(w: string, c: string, x: char, y: char)
    requires BlanksFor(w, c) && White(x) && (x == '\n' <==> y == '\n')
    ensures BlanksFor([x] + w, [y] + c)
  {
  }

  lemma FirstByte(c: string, t: string)
    requires c != ""
    ensures (c + t)[0] == c[0] && (c + t)[1..] == c[1..] + t && c == [c[0]] + c[1..]
  {
  }

  lemma Prepended(x: char, w: string, b: Option<string>)
    ensures Prepend([x], Prepend(w, b)) == Prepend([x] + w, b)
  {
    PrependCons(x, w, b);
  }

  lemma {:induction false} LineBlanks(c: string, t: string) returns (w: string)
    requires Ends(c)
    ensures BlanksFor(w, c) && Blank(c + t, Line) == Prepend(w, Blank(t, Code))
    decreases |c|
  {
    FirstByte(c, t);
    if c[0] == '\n' {
      w := "\n";
      assert c[1..] + t == t;
    } else {
      var rest := LineBlanks(c[1..], t);
      Prepended(' ', rest, Blank(t, Code));
      BlanksMore(rest, c[1..], ' ', c[0]);
      w := [' '] + rest;
    }
  }

  lemma {:induction false} BlockBlanks(c: string, t: string) returns (w: string)
    requires Closed(c)
    ensures BlanksFor(w, c) && Blank(c + t, Block) == Prepend(w, Blank(t, Code))
    decreases |c|
  {
    FirstByte(c, t);
    FirstByte(c[1..], t);
    assert Head(c[1..] + t) == Some(c[1]);
    BlankOne(c + t, Block);
    if c[0] == '*' && c[1] == '/' {
      BlankOne(c[1..] + t, Closing);
      w := [' '] + [' '];
      assert c[1..][1..] + t == t && [' '] + "" == [' '];
      Prepended(' ', [' '], Blank(t, Code));
    } else {
      var rest := BlockBlanks(c[1..], t);
      var x := if c[0] == '\n' || c[0] == '\r' then c[0] else ' ';
      Prepended(x, rest, Blank(t, Code));
      BlanksMore(rest, c[1..], x, c[0]);
      w := [x] + rest;
    }
  }

  lemma CommentBlanks(c: string, t: string) returns (w: string)
    requires IsComment(c)
    ensures BlanksFor(w, c) && Blank(c + t, Code) == Prepend(w, Blank(t, Code))
  {
    hide Blank, Closed, Ends;
    FirstByte(c, t);
    FirstByte(c[1..], t);
    assert c[1..][1..] == c[2..] && Head(c[1..] + t) == Some(c[1]);
    var rest: string;
    if c[1] == '/' {
      rest := LineBlanks(c[2..], t);
      BlankOne(c + t, Code);
      BlankOne(c[1..] + t, Line);
    } else {
      rest := BlockBlanks(c[2..], t);
      BlankOne(c + t, Code);
      BlankOne(c[1..] + t, Opening);
    }
    Prepended(' ', rest, Blank(t, Code));
    BlanksMore(rest, c[2..], ' ', c[1]);
    assert c[1..] == [c[1]] + c[2..];
    Prepended(' ', [' '] + rest, Blank(t, Code));
    BlanksMore([' '] + rest, c[1..], ' ', c[0]);
    w := [' '] + ([' '] + rest);
  }

  // ---------------------------------------------------------------------
  // Adding a comment
  // ---------------------------------------------------------------------

  /** The text with `x` put in at `i`. */
  function Put(t: string, i: nat, x: string): string
    requires i <= |t|
  {
    t[..i] + (x + t[i..])
  }

  lemma PutSlices(t: string, i: nat, x: string)
    requires 0 < i <= |t|
    ensures Put(t, i, x)[0] == t[0] && Put(t, i, x)[1..] == Put(t[1..], i - 1, x)
    ensures Put(t, i, x) == [t[0]] + Put(t[1..], i - 1, x)
    ensures i > 1 ==> Head(Put(t[1..], i - 1, x)) == Head(t[1..])
    ensures t[..i][0] == t[0] && t[..i][1..] == t[1..][..i - 1] && t[1..][i - 1..] == t[i..]
  {
  }

  /** What the first pass makes of text put in outside strings and comments. */
  lemma {:induction false} BlankPut(t: string, m: Mode, i: nat, x: string, w: string)
    requires Blank(t, m).Some? && i <= |t| && ModeAt(t, m, i) == Code
    requires i > 0 ==> Blank(t, m).value[i - 1] != '/'
    requires Blank(x + t[i..], Code) == Prepend(w, Blank(t[i..], Code)) && |w| == |x|
    ensures Blank(Put(t, i, x), m) == Some(Put(Blank(t, m).value, i, w))
    decreases i
  {
    hide Blank, Blanked, Head, Put;
    var b := Blank(t, m).value;
    if i == 0 {
      assert t[0..] == t;
      PutFirst(t, x);
      PutFirst(b, w);
    } else {
      var step := Blanked(m, t[0], Head(t[1..]));
      BlankOne(t, m);
      ModeOne(t, m, i);
      var rest := Blank(t[1..], step.mode).value;
      assert b == [step.out] + rest;
      PutSlices(t, i, x);
      PutSlices(b, i, w);
      BlankPut(t[1..], step.mode, i - 1, x, w);
      if i == 1 {
        NextMatters(m, t[0], Head(t[1..]), Head(Put(t[1..], 0, x)));
      }
      BlankOne(Put(t, i, x), m);
    }
  }

  lemma PutFirst(t: string, x: string)
    ensures Put(t, 0, x) == x + t
  {
    assert t[..0] == "" && t[0..] == t;
  }

  lemma {:induction false} ClosesPut(t: string, i: nat, w: string)
    requires i <= |t| && forall j :: 0 <= j < |w| ==> White(w[j])
    ensures Closes(Put(t, i, w)) == Closes(t)
    decreases i, |w|
  {
    if i > 0 {
      PutSlices(t, i, w);
      if White(t[0]) {
        ClosesPut(t[1..], i - 1, w);
      }
    } else if w != "" {
      PutFirst(t, w);
      PutFirst(t, w[1..]);
      FirstByte(w, t);
      assert White(w[0]);
      ClosesPut(t, 0, w[1..]);
    } else {
      PutFirst(t, w);
      assert w + t == t;
    }
  }

  lemma {:induction false} DropBlanks(w: string, t: string)
    requires forall j :: 0 <= j < |w| ==> White(w[j])
    ensures Drop(w + t, Code) == w + Drop(t, Code)
    decreases |w|
  {
    if w == "" {
      assert w + t == t && w + Drop(t, Code) == Drop(t, Code);
    } else {
      FirstByte(w, t);
      FirstByte(w, Drop(t, Code));
      assert White(w[0]);
      DropBlanks(w[1..], t);
      DropOne(w + t, Code);
      Regroup("", w[0], w[1..] + Drop(t, Code));
    }
  }

  lemma {:induction false} DropPut(b: string, l: Mode, i: nat, w: string)
    requires i <= |b| && LexRun(l, b[..i]) == Code && forall j :: 0 <= j < |w| ==> White(w[j])
    ensures Drop(Put(b, i, w), l) == Put(Drop(b, l), i, w)
    decreases i
  {
    hide Drop, Put, Closes;
    if i == 0 {
      assert b[..0] == "";
      PutFirst(b, w);
      PutFirst(Drop(b, l), w);
      DropBlanks(w, b);
    } else {
      PutSlices(b, i, w);
      DropPut(b[1..], Lexed(l, b[0]), i - 1, w);
      ClosesPut(b[1..], i - 1, w);
      DropOne(b, l);
      DropOne(Put(b, i, w), l);
      PutSlices(Drop(b, l), i, w);
    }
  }

  /** A comment put anywhere outside strings and comments, but not behind a
      slash, adds blanks to the decoder's text, and line ends where it has
      them; nothing else changes. */
  lemma CommentIsBlank(d: string, i: nat, c: string) returns (w: string)
    requires IsComment(c) && Normal(d).Some? && i <= |d| && ModeAt(d, Code, i) == Code
    requires i > 0 ==> Normal(d).value[i - 1] != '/'
    ensures BlanksFor(w, c) && Normal(Put(d, i, c)) == Some(Put(Normal(d).value, i, w))
  {
    hide Put, IsComment;
    var b := Blank(d, Code).value;
    if i > 0 && b[i - 1] == '/' {
      SlashStays(b, Code, i - 1);
    }
    w := CommentBlanks(c, d[i..]);
    BlankPut(d, Code, i, c, w);
    ModeIsRead(d, Code, i);
    DropPut(b, Code, i, w);
  }

  lemma {:induction false} ClosesComma(t: string, i: nat)
    requires i <= |t| && exists j :: 0 <= j < i && !White(t[j])
    ensures Closes(Put(t, i, ",")) == Closes(t)
    decreases i
  {
    PutSlices(t, i, ",");
    if White(t[0]) {
      var j :| 0 <= j < i && !White(t[j]);
      assert t[1..][j - 1] == t[j];
      ClosesComma(t[1..], i - 1);
    }
  }

  lemma NotPending(b: string, i: nat)
    requires 0 < i <= |b| && !PendingComma(b[..i])
    ensures !PendingComma(b[1..][..i - 1])
  {
    assert [b[0]] + b[1..][..i - 1] == b[..i];
    if PendingComma(b[1..][..i - 1]) {
      PendingBehind([b[0]], b[1..][..i - 1]);
    }
  }

  /** A comma right in front of the end of a container is dropped. */
  lemma {:induction false} DropComma(b: string, l: Mode, i: nat)
    requires i <= |b| && LexRun(l, b[..i]) == Code && Closes(b[i..]) && !PendingComma(b[..i])
    ensures Drop(Put(b, i, ","), l) == Put(Drop(b, l), i, " ")
    decreases i
  {
    hide Drop, Put, Closes;
    if i == 0 {
      assert b[..0] == "" && b[0..] == b;
      PutFirst(b, ",");
      PutFirst(Drop(b, l), " ");
      FirstByte(",", b);
      DropOne("," + b, l);
      assert "," + b != "" && ","[1..] + b == b;
    } else {
      PutSlices(b, i, ",");
      NotPending(b, i);
      DropComma(b[1..], Lexed(l, b[0]), i - 1);
      KeptWithComma(b, l, i);
      DropOne(b, l);
      DropOne(Put(b, i, ","), l);
      PutSlices(Drop(b, l), i, " ");
    }
  }

  lemma KeptWithComma(b: string, l: Mode, i: nat)
    requires 0 < i <= |b| && !PendingComma(b[..i])
    ensures Kept(l, Put(b, i, ",")) == Kept(l, b)
  {
    hide Closes, Put;
    PutSlices(b, i, ",");
    if b[0] == ',' {
      if forall j :: 0 <= j < i - 1 ==> White(b[1..][j]) {
        PendingFirst(b[..i]);
      }
      ClosesComma(b[1..], i - 1);
    }
  }

  /** A comma put in front of a closing bracket, with none there yet, is one
      more blank. */
  lemma TrailingCommaIsBlank(d: string, i: nat)
    requires Normal(d).Some? && i <= |d| && ModeAt(d, Code, i) == Code
    requires i > 0 ==> Normal(d).value[i - 1] != '/'
    requires Closes(Blank(d, Code).value[i..]) && !PendingComma(Blank(d, Code).value[..i])
    ensures Normal(Put(d, i, ",")) == Some(Put(Normal(d).value, i, " "))
  {
    hide Put, Closes;
    var b := Blank(d, Code).value;
    if i > 0 && b[i - 1] == '/' {
      SlashStays(b, Code, i - 1);
    }
    FirstByte(",", d[i..]);
    BlankOne("," + d[i..], Code);
    assert ","[1..] + d[i..] == d[i..];
    BlankPut(d, Code, i, ",", ",");
    ModeIsRead(d, Code, i);
    DropComma(b, Code, i);
  }

  lemma {:induction false} NoEndStays(t: string)
    requires !HasEnd(t)
    ensures Blank(t, Block) == None
    decreases |t|
  {
    if t != "" {
      NoEndStays(t[1..]);
    }
  }

  /** A block comment that is not closed makes the text unreadable. */
  lemma UnclosedIsRefused(q: string, t: string)
    requires ModeBefore(q, Code, '/') == Code && !HasEnd(t)
    ensures Normal(q + ("/*" + t)) == None
  {
    hide Blank;
    var rest := ['*'] + t;
    assert "/*" + t == ['/'] + rest && rest[1..] == t;
    BlankSplits(q, Code, '/', rest);
    BlankOne(['/'] + rest, Code);
    assert (['/'] + rest)[1..] == rest;
    BlankOne(rest, Opening);
    NoEndStays(t);
  }

  // ---------------------------------------------------------------------
  // JSON without comments
  // ---------------------------------------------------------------------

  lemma SlashIsRefused(lib: Library, s: State, t: string)
    requires PlainScalars(lib) && LexState(s) == Code && t != "" && t[0] == '/'
    ensures !Accepts(lib, Run(lib, s, t))
  {
    SlashBare(lib, Step(lib, s, '/'), t[1..]);
  }

  lemma {:induction false} SlashBare(lib: Library, s: State, t: string)
    requires PlainScalars(lib) && (s == Fail || (s.Bare? && '/' in s.text))
    ensures !Accepts(lib, Run(lib, s, t))
    decreases |t|
  {
    if t != "" {
      SlashBare(lib, Step(lib, s, t[0]), t[1..]);
    }
  }

  /** In JSON no comma is followed by the end of its container. */
  lemma {:induction false} CommaIsFollowed(lib: Library, k: Stack, need: Need, t: string)
    requires (need == Value || need == NextKey) && Accepts(lib, Run(lib, Want(k, need), t))
    ensures !Closes(t)
    decreases |t|
  {
    if t != "" {
      if White(t[0]) {
        CommaIsFollowed(lib, k, need, t[1..]);
      } else {
        FailStays(lib, t[1..]);
      }
    }
  }

  lemma CommaStep(lib: Library, s: State)
    requires LexState(s) == Code
    ensures var next := Step(lib, s, ','); next == Fail || (next.Want? && (next.need == Value || next.need == NextKey))
  {
  }

  lemma {:induction false} PlainBlank(lib: Library, s: State, t: string)
    requires PlainScalars(lib) && Accepts(lib, Run(lib, s, t))
    ensures Blank(t, LexState(s)) == Some(t) && Drop(t, LexState(s)) == t
    decreases |t|
  {
    hide Accepts, Closes;
    if t == "" {
      EndIsOutside(lib, s);
    } else {
      var l := LexState(s);
      if Step(lib, s, t[0]) == Fail {
        FailStays(lib, t[1..]);
        FailIsNoEnd(lib);
      }
      StepIsLexed(lib, s, t[0]);
      PlainBlank(lib, Step(lib, s, t[0]), t[1..]);
      if l == Code && t[0] == '/' {
        SlashIsRefused(lib, s, t);
      }
      if l == Code && t[0] == ',' {
        CommaStep(lib, s);
        CommaIsFollowed(lib, Step(lib, s, t[0]).k, Step(lib, s, t[0]).need, t[1..]);
      }
      assert [t[0]] + t[1..] == t;
    }
  }

  lemma EndIsOutside(lib: Library, s: State)
    requires Accepts(lib, s)
    ensures LexState(s) == Code
  {
  }

  lemma FailIsNoEnd(lib: Library)
    ensures !Accepts(lib, Fail)
  {
  }

  lemma StepIsLexed(lib: Library, s: State, c: char)
    requires Step(lib, s, c) != Fail
    ensures LexState(Step(lib, s, c)) == Lexed(LexState(s), c)
  {
  }

  /** JSON is its own normal text. */
  lemma PlainJsonStays(lib: Library, t: string)
    requires PlainScalars(lib) && Valid(lib, t)
    ensures Normal(t) == Some(t)
  {
    PlainBlank(lib, START, t);
  }
}
