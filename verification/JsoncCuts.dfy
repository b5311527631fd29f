/** Taking a stretch out of JSON with comments and trailing commas
    (cmd/kata/agent_hooks_plugins.go). */
module JsoncCuts {
  import opened Jsonc
  import opened Options

  /** The reading of comments after `i` bytes. */
  function ModeAt(t: string, m: Mode, i: nat): Mode
    requires i <= |t|
    decreases i
  {
    if i == 0 then m else ModeAt(t[1..], Blanked(m, t[0], Head(t[1..])).mode, i - 1)
  }

  lemma {:induction false} ModeIsRead(t: string, m: Mode, i: nat)
    requires Blank(t, m).Some? && i <= |t|
    ensures LexOf(ModeAt(t, m, i)) == LexRun(LexOf(m), Blank(t, m).value[..i])
    decreases i
  {
    if i > 0 {
      var step := Blanked(m, t[0], Head(t[1..]));
      var b, rest := Blank(t, m).value, Blank(t[1..], step.mode).value;
      ModeIsRead(t[1..], step.mode, i - 1);
      assert b == [step.out] + rest;
      assert b[..i][0] == step.out && b[..i][1..] == rest[..i - 1];
    } else {
      assert Blank(t, m).value[..0] == "";
    }
  }

  /** A byte that is not white belongs to no comment. */
  lemma {:induction false} KeptIsCode(t: string, m: Mode, i: nat)
    requires Blank(t, m).Some? && i < |t| && !White(Blank(t, m).value[i])
    ensures ModeAt(t, m, i) == LexOf(ModeAt(t, m, i)) && ModeAt(t, m, i + 1) == LexOf(ModeAt(t, m, i + 1))
    decreases i
  {
    var step := Blanked(m, t[0], Head(t[1..]));
    var rest := Blank(t[1..], step.mode).value;
    assert Blank(t, m).value == [step.out] + rest;
    assert ModeAt(t, m, i + 1) == ModeAt(t[1..], step.mode, i);
    if i > 0 {
      KeptIsCode(t[1..], step.mode, i - 1);
    }
  }

  lemma {:induction false} BlankFrom(t: string, m: Mode, i: nat)
    requires Blank(t, m).Some? && i <= |t|
    ensures Blank(t[i..], ModeAt(t, m, i)) == Some(Blank(t, m).value[i..])
    decreases i
  {
    if i == 0 {
      assert t[0..] == t && Blank(t, m).value[0..] == Blank(t, m).value;
    } else {
      var step := Blanked(m, t[0], Head(t[1..]));
      BlankFrom(t[1..], step.mode, i - 1);
      assert t[1..][i - 1..] == t[i..];
      assert Blank(t, m).value == [step.out] + Blank(t[1..], step.mode).value;
      assert ([step.out] + Blank(t[1..], step.mode).value)[i..] == Blank(t[1..], step.mode).value[i - 1..];
    }
  }

  /** What stands behind a byte matters only where a comment could begin. */
  lemma NextMatters(m: Mode, c: char, next: Option<char>, other: Option<char>)
    requires Blanked(m, c, next).mode == Code && Blanked(m, c, next).out != '/'
    ensures Blanked(m, c, other) == Blanked(m, c, next)
  {
  }

  lemma CutSlices(b: string, s: nat, e: nat)
    requires 0 < s <= e <= |b|
    ensures var cut, rest := b[..s] + b[e..], b[1..];
      && cut[0] == b[0] && cut[1..] == rest[..s - 1] + rest[e - 1..]
      && b[..s][0] == b[0] && b[..s][1..] == rest[..s - 1] && b[..e][0] == b[0] && b[..e][1..] == rest[..e - 1]
      && rest[s - 1..] == b[s..] && rest[e - 1..] == b[e..]
  {
  }

  lemma Consed(c: char, p: string, s: nat, e: nat)
    requires 0 < s <= e <= |p| + 1
    ensures ([c] + p)[..s] + ([c] + p)[e..] == [c] + (p[..s - 1] + p[e - 1..])
  {
  }

  lemma BlankOne(t: string, m: Mode)
    requires t != ""
    ensures var step := Blanked(m, t[0], Head(t[1..])); Blank(t, m) == Prepend([step.out], Blank(t[1..], step.mode))
  {
  }

  lemma ModeOne(t: string, m: Mode, i: nat)
    requires 0 < i <= |t|
    ensures ModeAt(t, m, i) == ModeAt(t[1..], Blanked(m, t[0], Head(t[1..])).mode, i - 1)
  {
  }

  /** What the first pass makes of the byte in front of a cut. */
  lemma BlankedCut(t: string, m: Mode, s: nat, e: nat)
    requires 0 < s <= e < |t| && ModeAt(t, m, s) == Code
    requires s == 1 ==> Blanked(m, t[0], Head(t[1..])).out != '/'
    ensures Blanked(m, t[0], Head(t[1..][..s - 1] + t[1..][e - 1..])) == Blanked(m, t[0], Head(t[1..]))
  {
    if s == 1 {
      NextMatters(m, t[0], Head(t[1..]), Head(t[1..][..s - 1] + t[1..][e - 1..]));
    }
  }

  /** The first pass does not see a cut from outside comments to outside. */
  lemma {:induction false} BlankCut(t: string, m: Mode, s: nat, e: nat)
    requires Blank(t, m).Some? && s <= e < |t|
    requires ModeAt(t, m, s) == Code && ModeAt(t, m, e) == Code
    requires s > 0 ==> Blank(t, m).value[s - 1] != '/'
    ensures Blank(t[..s] + t[e..], m) == Some(Blank(t, m).value[..s] + Blank(t, m).value[e..])
    decreases s
  {
    hide Blank, Blanked, Head;
    var b := Blank(t, m).value;
    if s == 0 {
      BlankFrom(t, m, e);
      assert t[..s] + t[e..] == t[e..] && b[..s] + b[e..] == b[e..];
    } else {
      var step := Blanked(m, t[0], Head(t[1..]));
      BlankOne(t, m);
      ModeOne(t, m, s);
      ModeOne(t, m, e);
      var rest := Blank(t[1..], step.mode).value;
      assert b == [step.out] + rest;
      CutSlices(t, s, e);
      BlankCut(t[1..], step.mode, s - 1, e - 1);
      BlankedCut(t, m, s, e);
      BlankOne(t[..s] + t[e..], m);
      Consed(step.out, rest, s, e);
    }
  }

  /** The last byte that is not white is a comma. */
  predicate PendingComma(p: string) {
    p != "" && if White(p[|p| - 1]) then PendingComma(p[..|p| - 1]) else p[|p| - 1] == ','
  }

  lemma {:induction false} DropIsRead(b: string, l: Mode, i: nat)
    requires i <= |b|
    ensures LexRun(l, Drop(b, l)[..i]) == LexRun(l, b[..i])
    decreases i
  {
    if i > 0 {
      DropIsRead(b[1..], Lexed(l, b[0]), i - 1);
      var n := Drop(b, l);
      assert n[..i][0] == n[0] && n[..i][1..] == n[1..][..i - 1];
      assert b[..i][0] == b[0] && b[..i][1..] == b[1..][..i - 1];
    } else {
      assert Drop(b, l)[..0] == "" && b[..0] == "";
    }
  }

  lemma {:induction false} DropFrom(b: string, l: Mode, i: nat)
    requires i <= |b|
    ensures Drop(b, l)[i..] == Drop(b[i..], LexRun(l, b[..i]))
    decreases i
  {
    if i == 0 {
      assert b[0..] == b && b[..0] == "" && Drop(b, l)[0..] == Drop(b, l);
    } else {
      DropFrom(b[1..], Lexed(l, b[0]), i - 1);
      assert b[1..][i - 1..] == b[i..] && b[..i][0] == b[0] && b[..i][1..] == b[1..][..i - 1];
      assert Drop(b, l)[i..] == Drop(b, l)[1..][i - 1..];
    }
  }

  /** A comma further in front is decided before the cut. */
  lemma {:induction false} ClosesCut(t: string, s: nat, e: nat)
    requires s <= e <= |t|
    requires (forall i :: 0 <= i < s ==> White(t[i])) ==> (Closes(t[s..]) <==> Closes(t[e..]))
    ensures Closes(t[..s] + t[e..]) <==> Closes(t)
    decreases s
  {
    if s == 0 {
      assert t[..0] + t[e..] == t[e..] && t[0..] == t;
    } else {
      var cut := t[..s] + t[e..];
      assert cut[0] == t[0] && cut[1..] == t[1..][..s - 1] + t[1..][e - 1..];
      if White(t[0]) {
        assert t[1..][s - 1..] == t[s..] && t[1..][e - 1..] == t[e..];
        ClosesCut(t[1..], s - 1, e - 1);
      }
    }
  }

  lemma {:induction false} PendingFirst(p: string)
    requires p != "" && p[0] == ',' && forall i :: 1 <= i < |p| ==> White(p[i])
    ensures PendingComma(p)
  {
    if |p| > 1 {
      PendingFirst(p[..|p| - 1]);
    }
  }

  lemma {:induction false} PendingBehind(p: string, x: string)
    requires PendingComma(x)
    ensures PendingComma(p + x)
  {
    var t := p + x;
    assert t[|t| - 1] == x[|x| - 1];
    if White(x[|x| - 1]) {
      PendingBehind(p, x[..|x| - 1]);
      assert t[..|t| - 1] == p + x[..|x| - 1];
    }
  }

  lemma DropOne(b: string, l: Mode)
    requires b != ""
    ensures Drop(b, l) == [Kept(l, b)] + Drop(b[1..], Lexed(l, b[0]))
  {
  }

  /** The byte in front of a cut further behind is kept or dropped as before. */
  lemma KeptCut(b: string, l: Mode, s: nat, e: nat)
    requires 0 < s <= e <= |b| && (PendingComma(b[..s]) ==> (Closes(b[s..]) <==> Closes(b[e..])))
    ensures Kept(l, b[..s] + b[e..]) == Kept(l, b)
  {
    hide Closes;
    CutSlices(b, s, e);
    if b[0] == ',' {
      if forall i :: 0 <= i < s - 1 ==> White(b[1..][i]) {
        PendingFirst(b[..s]);
      }
      ClosesCut(b[1..], s - 1, e - 1);
    }
  }

  /** Nor does the second, unless it changes what a comma in front is for. */
  lemma {:induction false} DropCut(b: string, l: Mode, s: nat, e: nat)
    requires s <= e <= |b| && LexRun(l, b[..s]) == Code && LexRun(l, b[..e]) == Code
    requires PendingComma(b[..s]) ==> (Closes(b[s..]) <==> Closes(b[e..]))
    ensures Drop(b[..s] + b[e..], l) == Drop(b, l)[..s] + Drop(b, l)[e..]
    decreases s
  {
    hide Drop, Kept, Closes;
    if s == 0 {
      DropFrom(b, l, e);
      assert b[..0] == "" && b[..s] + b[e..] == b[e..] && Drop(b, l)[..s] + Drop(b, l)[e..] == Drop(b, l)[e..];
    } else {
      CutSlices(b, s, e);
      if PendingComma(b[1..][..s - 1]) {
        PendingBehind([b[0]], b[1..][..s - 1]);
        assert [b[0]] + b[1..][..s - 1] == b[..s];
      }
      DropCut(b[1..], Lexed(l, b[0]), s - 1, e - 1);
      KeptCut(b, l, s, e);
      DropOne(b, l);
      DropOne(b[..s] + b[e..], l);
      Consed(Kept(l, b), Drop(b[1..], Lexed(l, b[0])), s, e);
    }
  }

  /** A comma that is the last thing before text that does not close anything is
      there for the decoder too. */
  lemma {:induction false} PendingStays(b: string, s: nat)
    requires s <= |b| && PendingComma(b[..s]) && !Closes(b[s..])
    ensures PendingComma(Drop(b, Code)[..s])
    decreases s
  {
    var n, i := Drop(b, Code), s - 1;
    assert b[..s][i] == b[i] && b[..s][..i] == b[..i];
    assert n[..s][i] == n[i] && n[..s][..i] == n[..i];
    DropFrom(b, Code, i);
    assert n[i] == n[i..][0] && b[i..][0] == b[i] && b[i..][1..] == b[s..];
    if White(b[i]) {
      assert White(n[i]);
      PendingStays(b, i);
    }
  }

  /** Where a byte that is not white begins a cut, or one ends it, both passes
      read code exactly where the decoder does. */
  lemma CodeAt(d: string, n: string, s: nat, e: nat)
    requires Normal(d) == Some(n) && s < e <= |n| && !White(n[s]) && !White(n[e - 1])
    requires LexRun(Code, n[..s]) == Code && LexRun(Code, n[..e]) == Code
    ensures var b := Blank(d, Code).value;
      && ModeAt(d, Code, s) == Code && ModeAt(d, Code, e) == Code
      && LexRun(Code, b[..s]) == Code && LexRun(Code, b[..e]) == Code && b[s] == n[s] && b[e - 1] == n[e - 1]
  {
    var b := Blank(d, Code).value;
    DropKeeps(b, Code, s);
    DropKeeps(b, Code, e - 1);
    DropIsRead(b, Code, s);
    DropIsRead(b, Code, e);
    ModeIsRead(d, Code, s);
    ModeIsRead(d, Code, e);
    KeptIsCode(d, Code, s);
    KeptIsCode(d, Code, e - 1);
  }

  lemma SlashStays(b: string, l: Mode, i: nat)
    requires i < |b| && b[i] == '/'
    ensures Drop(b, l)[i] == '/'
  {
    DropFrom(b, l, i);
    assert b[i..][0] == '/';
    assert Drop(b, l)[i..][0] == Drop(b, l)[i];
  }

  /** Cutting authored text from one byte that is not white to another, both
      outside strings, cuts the decoder's text likewise. A comma left in front
      must go on standing before something. */
  lemma CutIsLocal(d: string, n: string, s: nat, e: nat)
    requires Normal(d) == Some(n) && s < e < |n| && !White(n[e - 1])
    requires (n[s] == '"' || n[s] == ',') && (s > 0 ==> n[s - 1] != '/')
    requires LexRun(Code, n[..s]) == Code && LexRun(Code, n[..e]) == Code
    requires PendingComma(n[..s]) ==> n[e - 1] == ','
    ensures Normal(d[..s] + d[e..]) == Some(n[..s] + n[e..])
  {
    var b := Blank(d, Code).value;
    CodeAt(d, n, s, e);
    if s > 0 && b[s - 1] == '/' {
      SlashStays(b, Code, s - 1);
    }
    BlankCut(d, Code, s, e);
    assert b[s..][0] == b[s] && !Closes(b[s..]);
    if PendingComma(b[..s]) {
      PendingStays(b, s);
      CommaKept(b, n, e - 1);
    }
    DropCut(b, Code, s, e);
  }

  lemma {:induction false} LexKinds(l: Mode, t: string)
    requires l == Code || l == Quoted || l == Escaped
    ensures LexRun(l, t) == Code || LexRun(l, t) == Quoted || LexRun(l, t) == Escaped
    decreases |t|
  {
    if t != "" {
      LexKinds(Lexed(l, t[0]), t[1..]);
    }
  }

  lemma CommaKept(b: string, n: string, i: nat)
    requires n == Drop(b, Code) && i < |b| && n[i] == ',' && LexRun(Code, b[..i + 1]) == Code
    ensures !Closes(b[i + 1..])
  {
    hide Drop, LexRun, Closes;
    DropFrom(b, Code, i);
    DropKeeps(b, Code, i);
    LexOneMore(b, Code, i);
    LexKinds(Code, b[..i]);
    assert b[i..][0] == b[i] && b[i..][1..] == b[i + 1..] && n[i..][0] == n[i];
    DropOne(b[i..], Code);
  }

  lemma {:induction false} LexOneMore(b: string, l: Mode, i: nat)
    requires i < |b|
    ensures LexRun(l, b[..i + 1]) == Lexed(LexRun(l, b[..i]), b[i])
    decreases i
  {
    assert b[..i + 1][0] == b[0] && b[..i + 1][1..] == b[1..][..i];
    if i > 0 {
      assert b[..i][0] == b[0] && b[..i][1..] == b[1..][..i - 1];
      LexOneMore(b[1..], Lexed(l, b[0]), i - 1);
    } else {
      assert b[..0] == "" && b[1..][..0] == "";
    }
  }
}
