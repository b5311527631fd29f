/** The items of an array and the members of an object, told apart by quotes,
    brackets and commas alone (cmd/kata/agent_hooks_plugins.go). */
module PluginItems {
  import opened Jsonc
  import opened JsonMachine
  import opened Options
  import opened PluginConfig

  /** What was read of a container: the parts before the last comma, the part
      since, and where the reading is. Blanks outside strings are left out. */
  datatype Reading = Reading(parts: seq<string>, last: string, mode: Mode, depth: nat, closed: bool)

  const NOTHING := Reading([], "", Code, 0, false)

  predicate Opens(c: char) {
    c == '[' || c == '{'
  }

  predicate Shuts(c: char) {
    c == ']' || c == '}'
  }

  function Feed(r: Reading, c: char): Reading {
    if r.closed then r
    else if r.mode != Code then r.(last := r.last + [c], mode := Lexed(r.mode, c))
    else if White(c) then r
    else if r.depth == 0 && Shuts(c) then r.(closed := true)
    else if r.depth == 0 && c == ',' then r.(parts := r.parts + [r.last], last := "")
    else Reading(r.parts, r.last + [c], Lexed(Code, c),
        if Opens(c) then r.depth + 1 else if Shuts(c) then r.depth - 1 else r.depth, false)
  }

  function Reads(r: Reading, t: string): Reading
    decreases |t|
  {
    if t == "" then r else Reads(Feed(r, t[0]), t[1..])
  }

  function All(r: Reading): seq<string> {
    if r.last == "" then r.parts else r.parts + [r.last]
  }

  /** The parts of a container whose bracket opens in front of `t`. */
  function PartsOf(t: string): seq<string> {
    All(Reads(NOTHING, t))
  }

  /** An item that is a string standing for `value`. */
  predicate Stands(lib: Library, item: string, value: string) {
    item != "" && item[0] == '"' && lib.decode(item) == Some(value)
  }

  predicate Without(lib: Library, items: seq<string>, value: string) {
    forall i :: 0 <= i < |items| ==> !Stands(lib, items[i], value)
  }

  // ---------------------------------------------------------------------
  // Reading in parts
  // ---------------------------------------------------------------------

  lemma {:induction false} ReadsParts(r: Reading, a: string, b: string)
    ensures Reads(r, a + b) == Reads(Reads(r, a), b)
    decreases |a|
  {
    if a == "" {
      assert a + b == b;
    } else {
      assert (a + b)[0] == a[0] && (a + b)[1..] == a[1..] + b;
      ReadsParts(Feed(r, a[0]), a[1..], b);
    }
  }

  lemma ReadsLast(r: Reading, u: string)
    requires u != ""
    ensures Reads(r, u) == Feed(Reads(r, u[..|u| - 1]), u[|u| - 1])
  {
    assert u == u[..|u| - 1] + [u[|u| - 1]];
    ReadsParts(r, u[..|u| - 1], [u[|u| - 1]]);
    assert [u[|u| - 1]][1..] == "";
  }

  lemma RunLast(lib: Library, s: State, u: string)
    requires u != ""
    ensures Run(lib, s, u) == Step(lib, Run(lib, s, u[..|u| - 1]), u[|u| - 1])
  {
    assert u == u[..|u| - 1] + [u[|u| - 1]];
    RunParts(lib, s, u[..|u| - 1], [u[|u| - 1]]);
    assert [u[|u| - 1]][1..] == "";
  }

  lemma {:induction false} ClosedStays(r: Reading, t: string)
    requires r.closed
    ensures Reads(r, t) == r
    decreases |t|
  {
    if t != "" {
      ClosedStays(r, t[1..]);
    }
  }

  predicate AllBlank(w: string) {
    forall i :: 0 <= i < |w| ==> White(w[i])
  }

  lemma {:induction false} BlanksRead(r: Reading, w: string)
    requires r.mode == Code && AllBlank(w)
    ensures Reads(r, w) == r
    decreases |w|
  {
    if w != "" {
      assert White(w[0]);
      BlanksRead(r, w[1..]);
    }
  }

  lemma {:induction false} BlanksRun(lib: Library, s: State, w: string)
    requires s.Want? && AllBlank(w)
    ensures Run(lib, s, w) == s
    decreases |w|
  {
    if w != "" {
      assert White(w[0]);
      BlanksRun(lib, s, w[1..]);
    }
  }

  /** The parts read earlier have no say in what follows. */
  lemma {:induction false} EarlierParts(r: Reading, t: string)
    ensures Reads(r, t) == Reads(r.(parts := []), t).(parts := r.parts + Reads(r.(parts := []), t).parts)
    decreases |t|
  {
    if t == "" {
      assert r.parts + [] == r.parts;
    } else {
      var r1, r2 := Feed(r, t[0]), Feed(r.(parts := []), t[0]);
      EarlierParts(r1, t[1..]);
      EarlierParts(r2, t[1..]);
      assert r1.(parts := []) == r2.(parts := []);
      assert r1.parts == r.parts + r2.parts;
      var rest := Reads(r1.(parts := []), t[1..]).parts;
      assert r.parts + r2.parts + rest == r.parts + (r2.parts + rest);
    }
  }

  lemma {:induction false} ClosesReads(r: Reading, t: string)
    requires r.mode == Code && r.depth == 0 && !r.closed && Closes(t)
    ensures Reads(r, t) == r.(closed := true)
    decreases |t|
  {
    if White(t[0]) {
      ClosesReads(r, t[1..]);
    } else {
      ClosedStays(r.(closed := true), t[1..]);
    }
  }

  // ---------------------------------------------------------------------
  // Cutting one part out
  // ---------------------------------------------------------------------

  /** Between two parts, or before the first. */
  predicate Between(r: Reading) {
    r.last == "" && r.mode == Code && r.depth == 0 && !r.closed
  }

  lemma Grouped(p: seq<string>, rest: seq<string>, m: string)
    ensures p + rest + [m] == p + (rest + [m])
  {
  }

  lemma AllBehind(r: Reading, t: string)
    requires Between(r)
    ensures All(Reads(r, t)) == r.parts + PartsOf(t)
  {
    hide Reads;
    EarlierParts(r, t);
    assert r.(parts := []) == NOTHING;
    Grouped(r.parts, Reads(NOTHING, t).parts, Reads(NOTHING, t).last);
  }

  /** A part that goes with the comma after it. */
  lemma PartBeforeComma(r: Reading, core: string, m: string, w: string, z: string)
    requires Between(r) && Reads(r, core) == r.(last := m) && AllBlank(w)
    ensures All(Reads(r, core + (w + ([','] + z)))) == r.parts + [m] + PartsOf(z)
    ensures All(Reads(r, z)) == r.parts + PartsOf(z)
  {
    hide PartsOf, All;
    var s := r.(last := m);
    ReadsParts(r, core, w + ([','] + z));
    ReadsParts(s, w, [','] + z);
    BlanksRead(s, w);
    One(',', z);
    AllBehind(Feed(s, ','), z);
    AllBehind(r, z);
  }

  /** The last part, which goes with the comma before it. */
  lemma PartAfterComma(q: Reading, w: string, core: string, m: string, z: string)
    requires q.last != "" && q.mode == Code && q.depth == 0 && !q.closed && m != ""
    requires AllBlank(w) && Reads(Feed(q, ','), core) == Feed(q, ',').(last := m) && Closes(z)
    ensures All(Reads(q, [','] + (w + (core + z)))) == q.parts + [q.last] + [m]
    ensures All(Reads(q, z)) == q.parts + [q.last]
  {
    hide Closes;
    var r := Feed(q, ',');
    One(',', w + (core + z));
    ReadsParts(r, w, core + z);
    BlanksRead(r, w);
    ReadsParts(r, core, z);
    ClosesReads(r.(last := m), z);
    ClosesReads(q, z);
  }

  /** The only part. */
  lemma PartAlone(r: Reading, core: string, m: string, z: string)
    requires Between(r) && m != "" && Reads(r, core) == r.(last := m) && Closes(z)
    ensures All(Reads(r, core + z)) == r.parts + [m] && All(Reads(r, z)) == r.parts
  {
    hide Closes;
    ReadsParts(r, core, z);
    ClosesReads(r.(last := m), z);
    ClosesReads(r, z);
  }

  // ---------------------------------------------------------------------
  // The decoder reads the same parts
  // ---------------------------------------------------------------------

  /** `depth` frames on top of the container, which stands on `below`. */
  predicate Rests(k: Stack, depth: nat, below: Stack, list: bool) {
    k.Push? && if depth == 0 then k.below == below && (k.top.InArray? <==> list)
      else Rests(k.below, depth - 1, below, list)
  }

  function Height(k: Stack): nat {
    match k
    case Bottom => 0
    case Push(_, below) => Height(below) + 1
  }

  lemma {:induction false} RestsAbove(k: Stack, depth: nat, below: Stack, list: bool)
    requires Rests(k, depth, below, list)
    ensures Height(k) == Height(below) + depth + 1
    decreases depth
  {
    if depth > 0 {
      RestsAbove(k.below, depth - 1, below, list);
    }
  }

  /** No part of the container has begun since the bracket or the comma. */
  predicate Fresh(s: State) {
    s.Want? && s.k.Push? &&
    (s.need == FirstItem || s.need == FirstKey || s.need == NextKey || (s.need == Value && s.k.top.InArray?))
  }

  /** What every state holds that reading leads to. */
  predicate Sound(s: State) {
    match s
    case Fail => true
    case Want(k, need) =>
      (need == FirstItem ==> k.Push? && k.top.InArray?) &&
      (need == FirstKey || need == NextKey || need == Colon ==> k.Push? && k.top.InObject?)
    case Quote(k, isKey, raw, _) => raw != "" && raw[0] == '"' && (isKey ==> k.Push? && k.top.InObject?)
    case Bare(_, text) => text != "" && text[0] != '"'
  }

  /** The decoder and the reading stand at the same place of the container. */
  predicate Linked(s: State, r: Reading, below: Stack, list: bool) {
    && s != Fail && Sound(s) && !r.closed && r.mode == LexState(s) && Rests(s.k, r.depth, below, list)
    && (r.last == "" <==> r.depth == 0 && Fresh(s))
  }

  lemma LinkedStep(lib: Library, s: State, r: Reading, below: Stack, list: bool, c: char)
    requires Linked(s, r, below, list) && Step(lib, s, c) != Fail
    ensures Feed(r, c).closed ==> Step(lib, s, c) == Want(below, After)
    ensures !Feed(r, c).closed ==> Linked(Step(lib, s, c), Feed(r, c), below, list)
  {
    match s
    case Want(k, need) =>
      if !White(c) {
        match need
        case Value => LinkedStart(k, r, below, list, c);
        case FirstItem =>
          if c != ']' {
            LinkedStart(k, r, below, list, c);
          }
        case After => LinkedAfter(k, r, below, list, c);
        case _ =>
      }
    case Quote(k, isKey, raw, escaped) =>
    case Bare(k, text) =>
      if c == ',' || c == ']' || c == '}' {
        LinkedAfter(k, r, below, list, c);
      }
  }

  lemma LinkedStart(k: Stack, r: Reading, below: Stack, list: bool, c: char)
    requires !White(c) && StartValue(k, c) != Fail && !r.closed && r.mode == Code && Rests(k, r.depth, below, list)
    ensures Linked(StartValue(k, c), Feed(r, c), below, list)
  {
  }

  lemma LinkedAfter(k: Stack, r: Reading, below: Stack, list: bool, c: char)
    requires !White(c) && AfterValue(k, c) != Fail && !r.closed && r.mode == Code && Rests(k, r.depth, below, list)
    requires r.last != ""
    ensures Feed(r, c).closed ==> AfterValue(k, c) == Want(below, After)
    ensures !Feed(r, c).closed ==> Linked(AfterValue(k, c), Feed(r, c), below, list)
  {
  }

  lemma {:induction false} LinkedRun(lib: Library, s: State, r: Reading, below: Stack, list: bool, t: string)
    requires Linked(s, r, below, list) && Run(lib, s, t) != Fail && !Reads(r, t).closed
    ensures Linked(Run(lib, s, t), Reads(r, t), below, list)
    decreases |t|
  {
    hide Linked, Step, Feed;
    if t != "" {
      if Step(lib, s, t[0]) == Fail {
        FailStays(lib, t[1..]);
      } else {
        LinkedStep(lib, s, r, below, list, t[0]);
        if Feed(r, t[0]).closed {
          ClosedStays(Feed(r, t[0]), t[1..]);
        } else {
          LinkedRun(lib, Step(lib, s, t[0]), Feed(r, t[0]), below, list, t[1..]);
        }
      }
    }
  }

  // ---------------------------------------------------------------------
  // The search for the registration
  // ---------------------------------------------------------------------

  /** Reading the items of an array, none of which stood for `value` so far. */
  predicate Searching(lib: Library, s: State, r: Reading, below: Stack, value: string) {
    && Linked(s, r, below, true) && Without(lib, r.parts, value)
    && if r.depth > 0 then Opens(r.last[0])
      else if s.Quote? then !s.isKey && r.last == s.raw
      else if s.Bare? then r.last == s.text
      else Fresh(s) || (s.need == After && !Stands(lib, r.last, value))
  }

  predicate Finds(lib: Library, s: State, c: char, below: Stack, value: string) {
    EndsToken(lib, s, c, value) && !s.isKey && s.k == Push(InArray, below)
  }

  lemma SearchingStep(lib: Library, s: State, r: Reading, below: Stack, value: string, c: char)
    requires Searching(lib, s, r, below, value) && Step(lib, s, c) != Fail && !Finds(lib, s, c, below, value)
    ensures Feed(r, c).closed ==> Without(lib, All(r), value) && Step(lib, s, c) == Want(below, After)
    ensures !Feed(r, c).closed ==> Searching(lib, Step(lib, s, c), Feed(r, c), below, value)
  {
    LinkedStep(lib, s, r, below, true, c);
    RestsAbove(s.k, r.depth, below, true);
  }

  /** Where the search ends: the closing quote of a token. */
  lemma {:induction false} ItemWalk(lib: Library, s: State, r: Reading, t: string, below: Stack, value: string)
    returns (u: string, raw: string)
    requires Searching(lib, s, r, below, value) && ItemAt(lib, s, t, below, value).Some?
    ensures var cut := ItemAt(lib, s, t, below, value).value;
      && t == u + ['"'] + cut.rest && cut.size == |raw| + 1
      && cut.state == Want(Push(InArray, below), After) && lib.decode(raw + ['"']) == Some(value)
      && Run(lib, s, u) == Quote(Push(InArray, below), false, raw, false)
      && Searching(lib, Run(lib, s, u), Reads(r, u), below, value)
    decreases |t|
  {
    hide Searching, Feed;
    if Finds(lib, s, t[0], below, value) {
      u, raw := "", s.raw;
      assert t == "" + [t[0]] + t[1..];
    } else {
      var s', r' := Step(lib, s, t[0]), Feed(r, t[0]);
      SearchingStep(lib, s, r, below, value, t[0]);
      var rest: string;
      rest, raw := ItemWalk(lib, s', r', t[1..], below, value);
      u := [t[0]] + rest;
      One(t[0], rest);
      assert t == [t[0]] + t[1..];
      assert t == u + ['"'] + ItemAt(lib, s, t, below, value).value.rest;
    }
  }

  lemma SameAll(r: Reading, c: char)
    requires !r.closed && Feed(r, c).closed
    ensures All(Feed(r, c)) == All(r)
  {
  }

  lemma Nothing(lib: Library, s: State, r: Reading)
    ensures Run(lib, s, "") == s && Reads(r, "") == r
  {
  }

  /** A search that finds nothing has seen every item. */
  lemma {:induction false} NothingFound(lib: Library, s: State, r: Reading, t: string, below: Stack, value: string)
    requires Searching(lib, s, r, below, value) && ItemAt(lib, s, t, below, value) == None
    requires Accepts(lib, Run(lib, s, t))
    ensures Without(lib, All(Reads(r, t)), value)
    decreases |t|
  {
    hide Feed, All, Without;
    RestsAbove(s.k, r.depth, below, true);
    if t != "" && Step(lib, s, t[0]) == Fail {
      FailStays(lib, t[1..]);
    } else if t != "" {
      SearchingStep(lib, s, r, below, value, t[0]);
      if Feed(r, t[0]).closed {
        ClosedStays(Feed(r, t[0]), t[1..]);
        SameAll(r, t[0]);
      } else {
        NothingFound(lib, Step(lib, s, t[0]), Feed(r, t[0]), t[1..], below, value);
      }
    }
  }

  // ---------------------------------------------------------------------
  // What stands in front of a token and behind it
  // ---------------------------------------------------------------------

  /** A state in which a string token may begin, and as what. */
  predicate Before(s: State, isKey: bool) {
    s.Want? && if isKey then s.need == FirstKey || s.need == NextKey else s.need == Value || s.need == FirstItem
  }

  lemma QuoteStep(lib: Library, s: State, c: char)
    requires Step(lib, s, c).Quote?
    ensures var q := Step(lib, s, c);
      if s.Quote? then s.k == q.k && s.isKey == q.isKey && q.raw == s.raw + [c]
      else Before(s, q.isKey) && s.k == q.k && q.raw == ['"'] && c == '"'
    ensures LexState(Step(lib, s, c)) == Lexed(LexState(s), c)
  {
  }

  /** The reading of a token, one byte on. */
  lemma TokenFed(r: Reading, raw: string, l: Mode, c: char)
    requires !r.closed && (l == Quoted || l == Escaped)
    ensures Feed(r.(last := r.last + raw, mode := l), c) == r.(last := r.last + (raw + [c]), mode := Lexed(l, c))
  {
    assert r.last + raw + [c] == r.last + (raw + [c]);
  }

  /** An open string began with its quote, where one may begin. */
  lemma {:induction false} TokenBegins(lib: Library, s: State, u: string, r: Reading) returns (front: string)
    requires s.Want? && Run(lib, s, u).Quote?
    ensures var q := Run(lib, s, u);
      u == front + q.raw && q.raw != "" && q.raw[0] == '"'
      && Before(Run(lib, s, front), q.isKey) && Run(lib, s, front).k == q.k
    ensures var at, q := Reads(r, front), Run(lib, s, u);
      !at.closed && at.mode == Code ==> Reads(r, u) == at.(last := at.last + q.raw, mode := LexState(q))
    decreases |u|
  {
    hide Run, Reads, Step, Before, Feed;
    Nothing(lib, s, r);
    var v, c := u[..|u| - 1], u[|u| - 1];
    RunLast(lib, s, u);
    ReadsLast(r, u);
    assert u == v + [c];
    var q := Run(lib, s, v);
    QuoteStep(lib, q, c);
    if q.Quote? {
      front := TokenBegins(lib, s, v, r);
      assert front + q.raw + [c] == front + (q.raw + [c]);
      if !Reads(r, front).closed && Reads(r, front).mode == Code {
        TokenFed(Reads(r, front), q.raw, LexState(q), c);
      }
    } else {
      front := v;
      if !Reads(r, v).closed && Reads(r, v).mode == Code {
        QuoteFed(Reads(r, v));
      }
    }
  }

  lemma QuoteFed(r: Reading)
    requires !r.closed && r.mode == Code
    ensures Feed(r, '"') == r.(last := r.last + ['"'], mode := Quoted)
  {
  }

  /** What ended a part, as the decoder sees it. */
  predicate Ended(lib: Library, s: State, k: Stack) {
    s == Want(k, After) || (s.Bare? && s.k == k && lib.scalar(s.text))
  }

  /** In front of a part there is a comma, behind an earlier part, or the
      container's bracket. */
  lemma {:induction false} PartBegins(lib: Library, s: State, r: Reading, below: Stack, list: bool, u: string)
    returns (front: string, w: string, first: bool)
    requires Fresh(s) && Linked(s, r, below, list) && r.depth == 0
    requires Fresh(Run(lib, s, u)) && !Reads(r, u).closed && Reads(r, u).depth == 0
    ensures AllBlank(w)
    ensures first ==> u == w && Run(lib, s, u) == s && Reads(r, u) == r
    ensures !first ==> u == front + ([','] + w) && Ended(lib, Run(lib, s, front), Run(lib, s, u).k)
    ensures !first ==> Run(lib, s, u) == Want(Run(lib, s, u).k, if list then Value else NextKey)
    ensures !first ==> Linked(Run(lib, s, front), Reads(r, front), below, list) && Reads(r, front).depth == 0
    ensures !first ==> Reads(r, front).last != "" && Reads(r, u) == Feed(Reads(r, front), ',')
    decreases |u|
  {
    hide Run, Reads, Linked;
    if u == "" {
      front, w, first := "", "", true;
      Nothing(lib, s, r);
    } else {
      var v, c := u[..|u| - 1], u[|u| - 1];
      RunLast(lib, s, u);
      ReadsLast(r, u);
      assert u == v + [c];
      assert !Reads(r, v).closed;
      LinkedRun(lib, s, r, below, list, v);
      if White(c) {
        PartBlank(lib, Run(lib, s, v), Reads(r, v), below, list, c);
        front, w, first := PartBegins(lib, s, r, below, list, v);
        w := w + [c];
        if !first {
          assert u == front + ([','] + w);
        }
      } else {
        PartComma(lib, Run(lib, s, v), Reads(r, v), below, list, c);
        front, w, first := v, "", false;
        assert u == front + ([','] + "");
      }
    }
  }

  lemma PartBlank(lib: Library, s: State, r: Reading, below: Stack, list: bool, c: char)
    requires Linked(s, r, below, list) && White(c) && Fresh(Step(lib, s, c))
    ensures s == Step(lib, s, c) && Feed(r, c) == r
  {
  }

  lemma PartComma(lib: Library, s: State, r: Reading, below: Stack, list: bool, c: char)
    requires Linked(s, r, below, list) && !White(c) && Fresh(Step(lib, s, c))
    requires !Feed(r, c).closed && Feed(r, c).depth == 0
    ensures c == ',' && Ended(lib, s, Step(lib, s, c).k) && r.depth == 0 && r.last != ""
    ensures Step(lib, s, c) == Want(Step(lib, s, c).k, if list then Value else NextKey)
  {
  }
}
