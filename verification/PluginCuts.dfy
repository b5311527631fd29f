/** Taking one item out of an array, or one member out of an object
    (cmd/kata/agent_hooks_plugins.go). */
module PluginCuts {
  import opened Jsonc
  import opened JsoncCuts
  import opened JsonMachine
  import opened Options
  import opened PluginConfig
  import opened PluginEdits
  import opened PluginItems

  // ---------------------------------------------------------------------
  // What follows a part
  // ---------------------------------------------------------------------

  /** How many blanks a text begins with. */
  function Skip(t: string): (i: nat)
    ensures i <= |t| && AllBlank(t[..i]) && (i < |t| ==> !White(t[i]))
    decreases |t|
  {
    if t == "" || !White(t[0]) then 0
    else
      var i := Skip(t[1..]);
      assert t[..i + 1] == [t[0]] + t[1..][..i];
      i + 1
  }

  /** The text behind the next comma, if a comma is what comes next. */
  function BehindComma(t: string): string
    requires Skip(t) < |t|
  {
    t[Skip(t) + 1..]
  }

  lemma SplitAt(t: string, i: nat)
    requires i < |t|
    ensures t == t[..i] + ([t[i]] + t[i + 1..])
  {
  }

  lemma CommaSplits(t: string)
    requires Skip(t) < |t| && t[Skip(t)] == ','
    ensures t == t[..Skip(t)] + ([','] + BehindComma(t))
  {
    hide Skip;
    SplitAt(t, Skip(t));
  }

  /** A number or a literal that is not the last thing in the text. */
  predicate Terminated(s: State, t: string) {
    s.Bare? ==> t != "" && (White(t[0]) || t[0] == ',' || t[0] == ']' || t[0] == '}')
  }

  lemma EndedAlike(lib: Library, s: State, k: Stack, t: string)
    requires Ended(lib, s, k) && Terminated(s, t)
    ensures Run(lib, s, t) == Run(lib, Want(k, After), t)
  {
  }

  function NextNeed(list: bool): Need {
    if list then Value else NextKey
  }

  /** A part is followed by a comma or by the end of its container. */
  lemma {:induction false} Follows(lib: Library, k: Stack, t: string)
    requires k.Push? && Accepts(lib, Run(lib, Want(k, After), t))
    ensures Skip(t) < |t| && (t[Skip(t)] == ',' || Closes(t))
    ensures t[Skip(t)] == ',' ==>
      Run(lib, Want(k, After), t) == Run(lib, Want(k, NextNeed(k.top.InArray?)), BehindComma(t))
    decreases |t|
  {
    if t != "" {
      if White(t[0]) {
        Follows(lib, k, t[1..]);
      } else {
        FailStays(lib, t[1..]);
      }
    }
  }

  /** Reading on behind a comma as if no part had been before. */
  lemma {:induction false} FirstAlike(lib: Library, k: Stack, z: string)
    requires k.Push? && Accepts(lib, Run(lib, Want(k, Value), z))
    ensures Run(lib, Want(k, FirstItem), z) == Run(lib, Want(k, Value), z)
    decreases |z|
  {
    if z != "" {
      if White(z[0]) {
        FirstAlike(lib, k, z[1..]);
      } else if z[0] == ']' {
        FailStays(lib, z[1..]);
      }
    }
  }

  // ---------------------------------------------------------------------
  // The range that is taken out
  // ---------------------------------------------------------------------

  lemma {:induction false} RightSkips(n: string, end: nat, limit: nat)
    requires end <= |n| && end + Skip(n[end..]) < limit <= |n|
    ensures Right(n, end, limit) == end + Skip(n[end..])
    decreases |n| - end
  {
    if White(n[end]) {
      Rest(n, end);
      RightSkips(n, end + 1, limit);
    }
  }

  lemma {:induction false} LeftSkips(n: string, i: int, floor: int, to: int)
    requires -1 <= floor <= to <= i < |n| && (forall j :: to < j <= i ==> White(n[j]))
    requires to >= 0 && !White(n[to])
    ensures Left(n, i, floor) == to
    decreases i
  {
    if i > to {
      assert White(n[i]);
      LeftSkips(n, i - 1, floor, to);
    }
  }

  /** The comma after the part goes with it. */
  lemma WidensAfter(n: string, d: string, start: nat, end: nat, floor: int, limit: nat)
    requires Normal(d) == Some(n) && -1 <= floor < start <= end <= |n|
    requires end + Skip(n[end..]) < limit <= |n| && n[end + Skip(n[end..])] == ','
    ensures Widen(n, d, start, end, floor, limit) == Range(start, end + Skip(n[end..]) + 1)
  {
    RightSkips(n, end, limit);
    AuthoredBytes(d, end + Skip(n[end..]));
  }

  /** Without one, the comma before the part, if there is one. */
  lemma WidensBefore(n: string, d: string, start: nat, end: nat, floor: int, limit: nat, to: nat)
    requires Normal(d) == Some(n) && -1 <= floor <= to < start <= end <= limit <= |n|
    requires Closes(n[end..]) && !White(n[to]) && (forall j :: to < j < start ==> White(n[j]))
    ensures Widen(n, d, start, end, floor, limit) == if n[to] == ',' then Range(to, end) else Range(start, end)
  {
    RightCloses(n, end, limit);
    var r := Right(n, end, limit);
    if r < limit {
      AuthoredBytes(d, r);
    }
    LeftSkips(n, start - 1, floor, to);
    AuthoredBytes(d, to);
  }

  // ---------------------------------------------------------------------
  // Cutting the text
  // ---------------------------------------------------------------------

  lemma NoSlash(lib: Library, s: State, head: string)
    requires PlainScalars(lib) && s.Want? && head != ""
    requires Run(lib, s, head).Want? || (Run(lib, s, head).Bare? && lib.scalar(Run(lib, s, head).text))
    ensures head[|head| - 1] != '/'
  {
    hide Run;
    RunLast(lib, s, head);
  }

  /** Behind a comma outside strings there is no end of a part. */
  lemma {:induction false} CommaPends(lib: Library, s: State, head: string)
    requires PendingComma(head)
    ensures var q := Run(lib, s, head); !q.Bare? && (q.Want? ==> q.need == Value || q.need == NextKey)
    decreases |head|
  {
    hide Run;
    RunLast(lib, s, head);
    if White(head[|head| - 1]) {
      CommaPends(lib, s, head[..|head| - 1]);
    }
  }

  lemma Slices(head: string, gone: string, z: string)
    requires gone != ""
    ensures var n := head + (gone + z); var s, e := |head|, |head| + |gone|;
      && n[..s] == head && n[..e] == head + gone && n[e..] == z && n[s..] == gone + z
      && n[s] == gone[0] && n[e - 1] == gone[|gone| - 1] && (head != "" ==> n[s - 1] == head[|head| - 1])
  {
  }

  /** Outside strings, where the text may be cut. */
  predicate Outside(lib: Library, s: State) {
    s.Want? || (s.Bare? && lib.scalar(s.text))
  }

  /** The bytes between two places outside strings can be cut out of the
      authored text. */
  lemma CutsText(lib: Library, d: string, head: string, gone: string, z: string)
    requires PlainScalars(lib) && Normal(d) == Some(head + (gone + z)) && gone != "" && z != ""
    requires (gone[0] == '"' || gone[0] == ',') && !White(gone[|gone| - 1])
    requires Outside(lib, Run(lib, START, head)) && Outside(lib, Run(lib, START, head + gone))
    requires PendingComma(head) ==> gone[|gone| - 1] == ','
    ensures |d| == |head| + |gone| + |z|
    ensures Normal(d[..|head|] + d[|head| + |gone|..]) == Some(head + z)
  {
    hide Run, Normal, PendingComma;
    Slices(head, gone, z);
    RunIsLexed(lib, START, head);
    RunIsLexed(lib, START, head + gone);
    if head != "" {
      NoSlash(lib, START, head);
    }
    CutIsLocal(d, head + (gone + z), |head|, |head| + |gone|);
  }

  // ---------------------------------------------------------------------
  // Taking one part out
  // ---------------------------------------------------------------------

  /** A container of the text `pre + x`, which opens with the last byte of
      `pre` and reads on from `s`. */
  ghost predicate Container(lib: Library, pre: string, x: string, s: State, below: Stack, list: bool) {
    && pre != "" && Opens(pre[|pre| - 1]) && Run(lib, START, pre) == s && Accepts(lib, Run(lib, s, x))
    && Fresh(s) && Linked(s, NOTHING, below, list)
  }

  /** One part of it: `u` stands before the part and `t` behind; `m` is the
      part without its blanks. */
  ghost predicate Part(lib: Library, s: State, u: string, core: string, t: string, m: string, k: Stack) {
    && Fresh(Run(lib, s, u)) && Between(Reads(NOTHING, u))
    && core != "" && core[0] == '"' && !White(core[|core| - 1])
    && Ended(lib, Run(lib, s, u + core), k) && k.Push? && Terminated(Run(lib, s, u + core), t)
    && m != "" && Reads(Reads(NOTHING, u), core) == Reads(NOTHING, u).(last := m)
  }

  /** What is taken out: all between `front` and `rest`. */
  datatype Excision = Excision(front: string, gone: string, rest: string)

  /** The part with blanks, and one comma at most. */
  ghost predicate OneComma(gone: string, core: string) {
    gone == core || exists w: string :: AllBlank(w) && (gone == core + (w + [',']) || gone == [','] + (w + core))
  }

  ghost predicate Taken(d: string, pre: string, x: string, core: string, m: string, before: seq<string>,
      behind: seq<string>, ex: Excision)
  {
    && x == ex.front + (ex.gone + ex.rest) && OneComma(ex.gone, core)
    && |pre| + |ex.front| + |ex.gone| <= |d|
    && Normal(d[..|pre| + |ex.front|] + d[|pre| + |ex.front| + |ex.gone|..]) == Some(pre + ex.front + ex.rest)
    && PartsOf(x) == before + [m] + behind && PartsOf(ex.front + ex.rest) == before + behind
  }

  lemma TwoRuns(lib: Library, pre: string, u: string, s: State)
    requires Run(lib, START, pre) == s
    ensures Run(lib, START, pre + u) == Run(lib, s, u)
  {
    RunParts(lib, START, pre, u);
  }

  lemma PartAccepted(lib: Library, s: State, u: string, core: string, t: string, m: string, k: Stack)
    requires Part(lib, s, u, core, t, m, k) && Accepts(lib, Run(lib, s, u + core + t))
    ensures Accepts(lib, Run(lib, Want(k, After), t)) && Skip(t) < |t| && (t[Skip(t)] == ',' || Closes(t))
    ensures t[Skip(t)] == ',' ==> Run(lib, s, u + core + t[..Skip(t)] + [',']) == Want(k, NextNeed(k.top.InArray?))
    ensures t[Skip(t)] == ',' ==> Accepts(lib, Run(lib, Want(k, NextNeed(k.top.InArray?)), BehindComma(t)))
  {
    hide Run, Accepts, Reads;
    RunParts(lib, s, u + core, t);
    EndedAlike(lib, Run(lib, s, u + core), k, t);
    Follows(lib, k, t);
    if t[Skip(t)] == ',' {
      CommaSplits(t);
      CommaRun(lib, Run(lib, s, u + core), k, t);
      RunParts(lib, s, u + core, t[..Skip(t)] + [',']);
      assert u + core + t[..Skip(t)] + [','] == u + core + (t[..Skip(t)] + [',']);
    }
  }

  lemma CommaRun(lib: Library, s: State, k: Stack, t: string)
    requires Ended(lib, s, k) && Terminated(s, t) && k.Push? && Skip(t) < |t| && t[Skip(t)] == ','
    ensures Run(lib, s, t[..Skip(t)] + [',']) == Want(k, NextNeed(k.top.InArray?))
  {
    hide Run, Skip, Step, AfterValue;
    var w := t[..Skip(t)];
    FirstStays(w, ',', t);
    EndedAlike(lib, s, k, w + [',']);
    RunParts(lib, Want(k, After), w, [',']);
    BlanksRun(lib, Want(k, After), w);
    CommaStep(lib, k);
  }

  lemma FirstStays(w: string, c: char, t: string)
    requires |w| < |t| && w == t[..|w|] && t[|w|] == c
    ensures (w + [c])[0] == t[0]
  {
  }

  lemma CommaStep(lib: Library, k: Stack)
    requires k.Push?
    ensures Run(lib, Want(k, After), [',']) == Want(k, NextNeed(k.top.InArray?))
  {
    One(',', "");
    assert [','] + "" == [','];
  }

  lemma PartsInFront(u: string, y: string)
    ensures PartsOf(u + y) == All(Reads(Reads(NOTHING, u), y))
  {
    ReadsParts(NOTHING, u, y);
  }

  lemma Placed(pre: string, u: string, core: string, t: string)
    ensures var n := pre + (u + core + t); |n| == |pre| + |u| + |core| + |t| && n[|pre| + |u| + |core|..] == t
  {
  }

  lemma WithComma(u: string, core: string, w: string, z: string)
    ensures u + core + (w + ([','] + z)) == u + ((core + (w + [','])) + z)
    ensures u + core + (w + ([','] + z)) == u + (core + (w + ([','] + z)))
    ensures u + core + w + [','] == u + (core + (w + [',']))
  {
  }

  lemma Headed(pre: string, front: string, gone: string, z: string)
    ensures pre + (front + (gone + z)) == pre + front + (gone + z)
    ensures pre + front + gone == pre + (front + gone)
  {
  }

  /** The part goes with the comma behind it. */
  lemma TakenAfter(lib: Library, d: string, pre: string, s: State, below: Stack, list: bool, u: string, core: string,
      t: string, m: string, k: Stack)
    returns (ex: Excision)
    requires PlainScalars(lib) && Normal(d) == Some(pre + (u + core + t))
    requires Container(lib, pre, u + core + t, s, below, list) && Part(lib, s, u, core, t, m, k)
    requires Skip(t) < |t| && t[Skip(t)] == ','
    ensures ex == Excision(u, core + (t[..Skip(t)] + [',']), BehindComma(t))
    ensures Taken(d, pre, u + core + t, core, m, Reads(NOTHING, u).parts, PartsOf(ex.rest), ex)
  {
    hide Run, Normal, Accepts, Reads, PartsOf, All, Linked;
    var w, z := t[..Skip(t)], BehindComma(t);
    var gone := core + (w + [',']);
    ex := Excision(u, gone, z);
    CommaSplits(t);
    WithComma(u, core, w, z);
    PartAccepted(lib, s, u, core, t, m, k);
    NotYet(lib, k, z);
    TwoRuns(lib, pre, u, s);
    TwoRuns(lib, pre, u + gone, s);
    Headed(pre, u, gone, z);
    assert gone[0] == core[0] && gone[|gone| - 1] == ',';
    CutsText(lib, d, pre + u, gone, z);
    PartBeforeComma(Reads(NOTHING, u), core, m, w, z);
    PartsInFront(u, core + (w + ([','] + z)));
    PartsInFront(u, z);
    assert |pre + u| == |pre| + |u|;
  }

  /** Neither a part nor the container's end is missing. */
  lemma NotYet(lib: Library, k: Stack, z: string)
    requires k.Push?
    ensures Accepts(lib, Run(lib, Want(k, NextNeed(k.top.InArray?)), z)) || Closes(z) ==> z != ""
  {
  }

  lemma EndIsOutside(lib: Library, s: State, k: Stack)
    requires Ended(lib, s, k)
    ensures Outside(lib, s) && LexState(s) == Code
  {
  }

  /** The last part goes with the comma in front of it. */
  lemma TakenBefore(lib: Library, d: string, pre: string, s: State, below: Stack, list: bool, u: string, core: string,
      t: string, m: string, k: Stack, front: string, w: string)
    returns (ex: Excision)
    requires PlainScalars(lib) && Normal(d) == Some(pre + (u + core + t))
    requires Container(lib, pre, u + core + t, s, below, list) && Part(lib, s, u, core, t, m, k)
    requires Closes(t) && u == front + ([','] + w) && AllBlank(w)
    requires Ended(lib, Run(lib, s, front), Run(lib, s, u).k)
    requires Linked(Run(lib, s, front), Reads(NOTHING, front), below, list) && Reads(NOTHING, front).depth == 0
    requires Reads(NOTHING, front).last != "" && Reads(NOTHING, u) == Feed(Reads(NOTHING, front), ',')
    ensures ex == Excision(front, [','] + (w + core), t)
    ensures Taken(d, pre, u + core + t, core, m, Reads(NOTHING, u).parts, [], ex)
  {
    hide Run, Normal, Accepts, Reads, All, Closes, PendingComma, PartsOf;
    var gone := [','] + (w + core);
    ex := Excision(front, gone, t);
    assert u + core + t == front + (gone + t) && u + core == front + gone;
    assert gone + t == [','] + (w + (core + t));
    TwoRuns(lib, pre, front, s);
    TwoRuns(lib, pre, front + gone, s);
    Headed(pre, front, gone, t);
    assert gone[0] == ',' && gone[|gone| - 1] == core[|core| - 1];
    EndIsOutside(lib, Run(lib, s, front), Run(lib, s, u).k);
    EndIsOutside(lib, Run(lib, s, u + core), k);
    if PendingComma(pre + front) {
      CommaPends(lib, START, pre + front);
    }
    NotYet(lib, k, t);
    CutsText(lib, d, pre + front, gone, t);
    PartAfterComma(Reads(NOTHING, front), w, core, m, t);
    PartsInFront(front, gone + t);
    PartsInFront(front, t);
    assert |pre + front| == |pre| + |front|;
  }

  lemma {:induction false} PendsInFront(p: string, w: string)
    requires AllBlank(w) && PendingComma(p + w) && p != "" && !White(p[|p| - 1])
    ensures p[|p| - 1] == ','
    decreases |w|
  {
    var y := p + w;
    if w == "" {
      assert y == p;
    } else {
      assert White(w[|w| - 1]) && y[|y| - 1] == w[|w| - 1] && y[..|y| - 1] == p + w[..|w| - 1];
      PendsInFront(p, w[..|w| - 1]);
    }
  }

  /** The only part goes alone. */
  lemma TakenAlone(lib: Library, d: string, pre: string, s: State, below: Stack, list: bool, u: string, core: string,
      t: string, m: string, k: Stack)
    returns (ex: Excision)
    requires PlainScalars(lib) && Normal(d) == Some(pre + (u + core + t))
    requires Container(lib, pre, u + core + t, s, below, list) && Part(lib, s, u, core, t, m, k)
    requires Closes(t) && AllBlank(u)
    ensures ex == Excision(u, core, t)
    ensures Taken(d, pre, u + core + t, core, m, Reads(NOTHING, u).parts, [], ex)
  {
    hide Run, Normal, Accepts, Reads, All, Closes, PendingComma, PartsOf, Linked;
    ex := Excision(u, core, t);
    assert u + core + t == u + (core + t);
    TwoRuns(lib, pre, u, s);
    TwoRuns(lib, pre, u + core, s);
    Headed(pre, u, core, t);
    EndIsOutside(lib, Run(lib, s, u + core), k);
    if PendingComma(pre + u) {
      PendsInFront(pre, u);
    }
    NotYet(lib, k, t);
    CutsText(lib, d, pre + u, core, t);
    PartAlone(Reads(NOTHING, u), core, m, t);
    PartsInFront(u, core + t);
    PartsInFront(u, t);
    assert |pre + u| == |pre| + |u|;
  }

  lemma BeforeComma(pre: string, front: string, w: string, y: string)
    requires AllBlank(w)
    ensures var n := pre + (front + ([','] + w) + y); var at := |pre| + |front|;
      |n| > at + |w| && n[at] == ',' && forall j :: at < j <= at + |w| ==> White(n[j])
  {
    var n, at := pre + (front + ([','] + w) + y), |pre| + |front|;
    forall j | at < j <= at + |w| ensures White(n[j]) {
      assert n[j] == w[j - at - 1];
    }
  }

  lemma WidthAfter(d: string, pre: string, u: string, core: string, t: string, floor: int, limit: nat)
    requires pre != "" && Normal(d) == Some(pre + (u + core + t)) && -1 <= floor < |pre|
    requires core != "" && |pre| + |u| + |core| + Skip(t) < limit <= |d|
    requires Skip(t) < |t| && t[Skip(t)] == ','
    ensures Widen(pre + (u + core + t), d, |pre| + |u|, |pre| + |u| + |core|, floor, limit)
      == Range(|pre| + |u|, |pre| + |u| + |core + (t[..Skip(t)] + [','])|)
  {
    hide Widen, Normal, Skip;
    var n, end := pre + (u + core + t), |pre| + |u| + |core|;
    Placed(pre, u, core, t);
    assert n[end + Skip(t)] == n[end..][Skip(t)];
    WidensAfter(n, d, |pre| + |u|, end, floor, limit);
  }

  lemma WidthAlone(d: string, pre: string, u: string, core: string, t: string, floor: int, limit: nat)
    requires pre != "" && Normal(d) == Some(pre + (u + core + t)) && -1 <= floor < |pre|
    requires |pre| + |u| + |core| <= limit <= |d| && Closes(t) && AllBlank(u) && Opens(pre[|pre| - 1])
    ensures Widen(pre + (u + core + t), d, |pre| + |u|, |pre| + |u| + |core|, floor, limit)
      == Range(|pre| + |u|, |pre| + |u| + |core|)
  {
    hide Widen, Normal, Closes;
    var n := pre + (u + core + t);
    Placed(pre, u, core, t);
    forall j | |pre| - 1 < j < |pre| + |u| ensures White(n[j]) {
      assert n[j] == u[j - |pre|];
    }
    WidensBefore(n, d, |pre| + |u|, |pre| + |u| + |core|, floor, limit, |pre| - 1);
  }

  lemma WidthBefore(d: string, pre: string, front: string, w: string, core: string, t: string, floor: int, limit: nat)
    requires var u := front + ([','] + w);
      && Normal(d) == Some(pre + (u + core + t)) && -1 <= floor < |pre|
      && |pre| + |u| + |core| <= limit <= |d| && Closes(t) && AllBlank(w)
    ensures var u := front + ([','] + w);
      Widen(pre + (u + core + t), d, |pre| + |u|, |pre| + |u| + |core|, floor, limit)
        == Range(|pre| + |front|, |pre| + |front| + |[','] + (w + core)|)
  {
    hide Widen, Normal, Closes;
    var u := front + ([','] + w);
    Placed(pre, u, core, t);
    BeforeComma(pre, front, w, core + t);
    assert u + core + t == u + (core + t);
    WidensBefore(pre + (u + core + t), d, |pre| + |u|, |pre| + |u| + |core|, floor, limit, |pre| + |front|);
  }

  /** Where reading goes on behind the cut: behind the comma that went, or in
      front of the container's end. */
  ghost predicate GoesOn(lib: Library, s: State, u: string, t: string, k: Stack, ex: Excision)
    requires Fresh(Run(lib, s, u)) && k.Push?
  {
    ex.front <= u &&
    if Skip(t) < |t| && t[Skip(t)] == ',' then
      ex.front == u && ex.rest == BehindComma(t) && Accepts(lib, Run(lib, Want(k, NextNeed(k.top.InArray?)), ex.rest))
    else
      && ex.rest == t && Closes(t) && Accepts(lib, Run(lib, Want(k, After), t))
      && (Ended(lib, Run(lib, s, ex.front), Run(lib, s, u).k) || (ex.front == u && Run(lib, s, u) == s))
  }

  /** The range that the removal widens to is such a cut. */
  lemma TakesOut(lib: Library, d: string, pre: string, s: State, below: Stack, list: bool, u: string, core: string,
      t: string, m: string, k: Stack, floor: int, limit: nat)
    returns (ex: Excision, behind: seq<string>)
    requires PlainScalars(lib) && Normal(d) == Some(pre + (u + core + t)) && |d| == |pre + (u + core + t)|
    requires Container(lib, pre, u + core + t, s, below, list) && Part(lib, s, u, core, t, m, k) && k.Push?
    requires -1 <= floor < |pre| && |pre| + |u| + |core| + Skip(t) < limit <= |d|
    ensures Taken(d, pre, u + core + t, core, m, Reads(NOTHING, u).parts, behind, ex) && GoesOn(lib, s, u, t, k, ex)
    ensures Widen(pre + (u + core + t), d, |pre| + |u|, |pre| + |u| + |core|, floor, limit)
      == Range(|pre| + |ex.front|, |pre| + |ex.front| + |ex.gone|)
  {
    hide Run, Normal, Accepts, Reads, All, Closes, PartsOf, Widen, Taken, Skip, AllBlank;
    PartAccepted(lib, s, u, core, t, m, k);
    if t[Skip(t)] == ',' {
      ex := TakenAfter(lib, d, pre, s, below, list, u, core, t, m, k);
      behind := PartsOf(ex.rest);
      WidthAfter(d, pre, u, core, t, floor, limit);
    } else {
      behind := [];
      var front, w, first := PartBegins(lib, s, NOTHING, below, list, u);
      if first {
        ex := TakenAlone(lib, d, pre, s, below, list, u, core, t, m, k);
        WidthAlone(d, pre, u, core, t, floor, limit);
      } else {
        ex := TakenBefore(lib, d, pre, s, below, list, u, core, t, m, k, front, w);
        WidthBefore(d, pre, front, w, core, t, floor, limit);
      }
    }
  }
}
