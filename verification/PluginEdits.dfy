/** What single edits do to an authored configuration, and where the finders
    look for a property and its items afterwards
    (cmd/kata/agent_hooks_plugins.go). */
module PluginEdits {
  import opened Jsonc
  import opened JsonMachine
  import opened Options
  import opened PluginConfig

  // ---------------------------------------------------------------------
  // String tokens under the finders
  // ---------------------------------------------------------------------

  lemma {:induction false} KeyInside(lib: Library, k: Stack, raw: string, escaped: bool, body: string, rest: string)
    requires Inside(body, if escaped then Escaped else Quoted)
    requires k.Push? && k.below == Bottom && lib.decode(raw + body) == Some(NAME)
    ensures KeyAt(lib, Quote(k, true, raw, escaped), body + rest)
      == Some(Cut(|raw| + |body|, EndString(lib, k, true, raw + body), rest))
    decreases |body|
  {
    var c := body[0];
    assert (body + rest)[0] == c && (body + rest)[1..] == body[1..] + rest;
    if |body| == 1 {
      assert body == [c] && body[1..] + rest == rest;
    } else {
      assert raw + [c] + body[1..] == raw + body;
      KeyInside(lib, k, raw + [c], Lexed(if escaped then Escaped else Quoted, c) == Escaped, body[1..], rest);
    }
  }

  lemma {:induction false} ItemInside(lib: Library, k: Stack, raw: string, escaped: bool, body: string, rest: string,
      registration: string)
    requires Inside(body, if escaped then Escaped else Quoted)
    requires lib.decode(raw + body) == Some(registration)
    ensures ItemAt(lib, Quote(Push(InArray, k), false, raw, escaped), body + rest, k, registration)
      == Some(Cut(|raw| + |body|, EndString(lib, Push(InArray, k), false, raw + body), rest))
    decreases |body|
  {
    var c := body[0];
    assert (body + rest)[0] == c && (body + rest)[1..] == body[1..] + rest;
    if |body| == 1 {
      assert body == [c] && body[1..] + rest == rest;
    } else {
      assert raw + [c] + body[1..] == raw + body;
      var next := Lexed(if escaped then Escaped else Quoted, c) == Escaped;
      ItemInside(lib, k, raw + [c], next, body[1..], rest, registration);
    }
  }

  lemma {:induction false} EndInside(lib: Library, j: Stack, raw: string, escaped: bool, body: string, rest: string,
      k: Stack)
    requires Inside(body, if escaped then Escaped else Quoted)
    ensures ValueEnd(lib, Quote(j, false, raw, escaped), body + rest, k)
      == ValueEnd(lib, EndString(lib, j, false, raw + body), rest, k)
    decreases |body|
  {
    var c := body[0];
    assert (body + rest)[0] == c && (body + rest)[1..] == body[1..] + rest;
    if |body| == 1 {
      assert body == [c] && body[1..] + rest == rest;
    } else {
      assert raw + [c] + body[1..] == raw + body;
      EndInside(lib, j, raw + [c], Lexed(if escaped then Escaped else Quoted, c) == Escaped, body[1..], rest, k);
    }
  }

  lemma FirstKeyFound(lib: Library, token: string, rest: string)
    requires IsToken(token) && lib.decode(token) == Some(NAME)
    ensures KeyAt(lib, OPEN, token + rest) == Some(Cut(|token|, Want(Push(InObject({NAME}), Bottom), Colon), rest))
  {
    assert (token + rest)[0] == '"' && (token + rest)[1..] == token[1..] + rest;
    assert ['"'] + token[1..] == token;
    KeyInside(lib, ROOT, ['"'], false, token[1..], rest);
    assert {} + {NAME} == {NAME};
  }

  lemma FirstItemFound(lib: Library, k: Stack, token: string, rest: string, registration: string)
    requires IsToken(token) && lib.decode(token) == Some(registration)
    ensures ItemAt(lib, Want(Push(InArray, k), FirstItem), token + rest, k, registration)
      == Some(Cut(|token|, Want(Push(InArray, k), After), rest))
  {
    assert (token + rest)[0] == '"' && (token + rest)[1..] == token[1..] + rest;
    assert ['"'] + token[1..] == token;
    ItemInside(lib, k, ['"'], false, token[1..], rest, registration);
  }

  // ---------------------------------------------------------------------
  // Where the finders stop
  // ---------------------------------------------------------------------

  lemma OneMore(lib: Library, s: State, c: char, u: string)
    ensures Run(lib, s, [c] + u) == Run(lib, Step(lib, s, c), u)
  {
    assert ([c] + u)[0] == c && ([c] + u)[1..] == u;
  }

  lemma Longer(t: string, u: string, rest: string)
    requires t != "" && t[1..] == u + rest
    ensures t == [t[0]] + u + rest
  {
    assert t == [t[0]] + t[1..];
  }

  /** The finder is in the state that reading up to there leads to. */
  lemma {:induction false} KeyAtRuns(lib: Library, s: State, t: string) returns (u: string)
    requires KeyAt(lib, s, t).Some?
    ensures var cut := KeyAt(lib, s, t).value; t == u + cut.rest && Run(lib, s, u) == cut.state
    decreases |t|
  {
    var s' := Step(lib, s, t[0]);
    if EndsToken(lib, s, t[0], NAME) && s.isKey && s.k.Push? && s.k.below == Bottom {
      u := "";
    } else {
      u := KeyAtRuns(lib, s', t[1..]);
    }
    OneMore(lib, s, t[0], u);
    Longer(t, u, KeyAt(lib, s, t).value.rest);
    u := [t[0]] + u;
  }

  lemma {:induction false} ValueAtRuns(lib: Library, s: State, t: string) returns (u: string)
    ensures var v := ValueAt(lib, s, t); t == u + v.rest && Run(lib, s, u) == v.state
    decreases |t|
  {
    if t != "" && (t[0] == ':' || White(t[0])) {
      u := ValueAtRuns(lib, Step(lib, s, t[0]), t[1..]);
      OneMore(lib, s, t[0], u);
      Longer(t, u, ValueAt(lib, s, t).rest);
      u := [t[0]] + u;
    } else {
      u := "";
    }
  }

  lemma Dropped(t: string, y: string)
    requires t != ""
    ensures (t + y)[0] == t[0] && (t + y)[1..] == t[1..] + y
  {
  }

  /** What comes after the property's value has no say in finding it. */
  lemma {:induction false} KeyAtSwap(lib: Library, s: State, t: string, y: string, z: string)
    requires KeyAt(lib, s, t + y).Some? && |KeyAt(lib, s, t + y).value.rest| >= |y|
    ensures var cut := KeyAt(lib, s, t + y).value; var kept := cut.rest[..|cut.rest| - |y|];
      cut.rest == kept + y && KeyAt(lib, s, t + z) == Some(Cut(cut.size, cut.state, kept + z))
    decreases |t|
  {
    var cut := KeyAt(lib, s, t + y).value;
    if t == "" {
      assert t + y == y;
      Shrinks(lib, s, y);
    } else {
      Dropped(t, y);
      Dropped(t, z);
      if EndsToken(lib, s, t[0], NAME) && s.isKey && s.k.Push? && s.k.below == Bottom {
        assert (t[1..] + y)[..|t| - 1] == t[1..];
      } else {
        KeyAtSwap(lib, Step(lib, s, t[0]), t[1..], y, z);
      }
    }
  }

  lemma {:induction false} Shrinks(lib: Library, s: State, t: string)
    ensures KeyAt(lib, s, t).Some? ==> |KeyAt(lib, s, t).value.rest| < |t|
    decreases |t|
  {
    if t != "" {
      Shrinks(lib, Step(lib, s, t[0]), t[1..]);
    }
  }

  lemma {:induction false} ValueAtSwap(lib: Library, s: State, t: string, c: char, y: string, z: string)
    requires c == '[' && ValueAt(lib, s, t + ([c] + y)).rest == [c] + y
    ensures ValueAt(lib, s, t + ([c] + z)) == Place(ValueAt(lib, s, t + ([c] + y)).state, [c] + z)
    decreases |t|
  {
    if t == "" {
      assert t + ([c] + y) == [c] + y && t + ([c] + z) == [c] + z;
    } else {
      Dropped(t, [c] + y);
      Dropped(t, [c] + z);
      assert |t + ([c] + y)| > |[c] + y|;
      if t[0] == ':' || White(t[0]) {
        ValueAtSwap(lib, Step(lib, s, t[0]), t[1..], c, y, z);
      }
    }
  }

  // ---------------------------------------------------------------------
  // One more name in the root object
  // ---------------------------------------------------------------------

  /** The same stack with the plugins property already seen in the root. */
  function WithName(k: Stack): Stack {
    match k
    case Bottom => Bottom
    case Push(InObject(seen), Bottom) => Push(InObject(seen + {NAME}), Bottom)
    case Push(top, below) => Push(top, WithName(below))
  }

  /** The same state once the property stands in front. */
  function Lifted(s: State): State {
    match s
    case Fail => Fail
    case Want(k, need) => Want(WithName(k), if need == FirstKey && k.Push? && k.below == Bottom then NextKey else need)
    case Quote(k, isKey, raw, escaped) => Quote(WithName(k), isKey, raw, escaped)
    case Bare(k, text) => Bare(WithName(k), text)
  }

  /** The root is an object, and a first key may still be an end. */
  predicate Rooted(k: Stack) {
    k.Push? ==> if k.below == Bottom then k.top.InObject? else Rooted(k.below)
  }

  predicate AtFirstKey(s: State) {
    s.Want? && s.need == FirstKey && s.k.Push? && s.k.below == Bottom
  }

  /** Inside the root object, or behind it. */
  predicate InRoot(s: State) {
    Rooted(StackOf(s)) && (StackOf(s) == Bottom ==> s == Want(Bottom, After))
  }

  lemma AfterLifted(k: Stack, c: char)
    requires Rooted(k)
    ensures AfterValue(WithName(k), c) == Lifted(AfterValue(k, c))
    ensures AfterValue(k, c) != Fail ==> InRoot(AfterValue(k, c)) && !AtFirstKey(AfterValue(k, c))
  {
  }

  lemma StartLifted(k: Stack, c: char)
    requires Rooted(k) && k.Push?
    ensures StartValue(WithName(k), c) == Lifted(StartValue(k, c))
    ensures StartValue(k, c) != Fail ==> InRoot(StartValue(k, c)) && !AtFirstKey(StartValue(k, c))
  {
  }

  lemma StringLifted(lib: Library, k: Stack, isKey: bool, token: string)
    requires Rooted(k) && k.Push?
    requires !(lib.decode(token) == Some(NAME) && isKey && k.below == Bottom)
    requires EndString(lib, k, isKey, token) != Fail
    ensures EndString(lib, WithName(k), isKey, token) == Lifted(EndString(lib, k, isKey, token))
    ensures InRoot(EndString(lib, k, isKey, token)) && !AtFirstKey(EndString(lib, k, isKey, token))
  {
    if isKey && k.below == Bottom {
      var name := lib.decode(token).value;
      assert k.top.seen + {name} + {NAME} == k.top.seen + {NAME} + {name};
    }
  }

  lemma WantLifted(lib: Library, k: Stack, need: Need, c: char)
    requires InRoot(Want(k, need)) && !White(c) && Step(lib, Want(k, need), c) != Fail
    requires AtFirstKey(Want(k, need)) ==> c != '}'
    ensures Step(lib, Lifted(Want(k, need)), c) == Lifted(Step(lib, Want(k, need), c))
    ensures InRoot(Step(lib, Want(k, need), c)) && !AtFirstKey(Step(lib, Want(k, need), c))
  {
    match need
    case Value => StartLifted(k, c);
    case FirstItem => StartLifted(k, c);
    case After => AfterLifted(k, c);
    case _ =>
  }

  lemma BareLifted(lib: Library, k: Stack, text: string, c: char)
    requires InRoot(Bare(k, text)) && Step(lib, Bare(k, text), c) != Fail
    ensures Step(lib, Bare(WithName(k), text), c) == Lifted(Step(lib, Bare(k, text), c))
    ensures InRoot(Step(lib, Bare(k, text), c)) && !AtFirstKey(Step(lib, Bare(k, text), c))
  {
    AfterLifted(k, c);
  }

  /** Every step but the end of an empty root is the same one name later. */
  lemma StepLifted(lib: Library, s: State, c: char)
    requires InRoot(s) && Step(lib, s, c) != Fail
    requires !(EndsToken(lib, s, c, NAME) && s.isKey && s.k.Push? && s.k.below == Bottom)
    requires AtFirstKey(s) ==> c != '}'
    ensures Step(lib, Lifted(s), c) == Lifted(Step(lib, s, c))
    ensures InRoot(Step(lib, s, c))
    ensures AtFirstKey(Step(lib, s, c)) ==> s == Step(lib, s, c) && White(c)
  {
    match s
    case Fail =>
    case Want(k, need) =>
      if !White(c) {
        WantLifted(lib, k, need, c);
      }
    case Quote(k, isKey, raw, escaped) =>
      if !escaped && c == '"' {
        StringLifted(lib, k, isKey, raw + [c]);
      }
    case Bare(k, text) => BareLifted(lib, k, text, c);
  }

  /** If the root has no plugins property yet, one may stand in front. */
  lemma {:induction false} RunLifted(lib: Library, s: State, t: string)
    requires InRoot(s) && KeyAt(lib, s, t) == None && Accepts(lib, Run(lib, s, t))
    requires AtFirstKey(s) ==> !Closes(t)
    ensures Accepts(lib, Run(lib, Lifted(s), t))
    decreases |t|
  {
    if t != "" {
      if Step(lib, s, t[0]) == Fail {
        FailStays(lib, t[1..]);
      } else {
        StepLifted(lib, s, t[0]);
        RunLifted(lib, Step(lib, s, t[0]), t[1..]);
      }
    }
  }

  // ---------------------------------------------------------------------
  // The text around the place of the edit
  // ---------------------------------------------------------------------

  predicate AllWhite(a: string) {
    a == "" || (White(a[0]) && AllWhite(a[1..]))
  }

  /** What stands before the brace of the root object. */
  lemma {:induction false} BeforeBrace(lib: Library, n: string) returns (a: string)
    requires AfterBrace(n).Some?
    ensures n == a + (['{'] + AfterBrace(n).value) && AllWhite(a) && Run(lib, START, a) == START
    decreases |n|
  {
    if White(n[0]) {
      a := BeforeBrace(lib, n[1..]);
      OneMore(lib, START, n[0], a);
      Longer(n, a, ['{'] + AfterBrace(n).value);
      assert ([n[0]] + a)[1..] == a;
      a := [n[0]] + a;
    } else {
      a := "";
      assert n == [n[0]] + n[1..];
    }
  }

  lemma {:induction false} BraceFound(a: string, x: string)
    requires AllWhite(a)
    ensures AfterBrace(a + (['{'] + x)) == Some(x)
    decreases |a|
  {
    if a == "" {
      assert a + (['{'] + x) == ['{'] + x;
      One('{', x);
    } else {
      Dropped(a, ['{'] + x);
      BraceFound(a[1..], x);
    }
  }

  /** The authored text around a bracket of the decoder's text. */
  lemma AuthoredAround(lib: Library, data: string, before: string, c: char, after: string)
    returns (q: string, s: string)
    requires c == '{' || c == '['
    requires Normal(data) == Some(before + ([c] + after))
    requires Run(lib, START, before).Want?
    ensures data == q + ([c] + s) && Around(q, c, s, before, after)
  {
    var n := before + ([c] + after);
    q, s := data[..|before|], data[|before| + 1..];
    assert n[|before|] == c;
    AuthoredBytes(data, |before|);
    assert data == q + ([c] + s);
    RunIsLexed(lib, START, before);
  }

  // ---------------------------------------------------------------------
  // A new property
  // ---------------------------------------------------------------------

  const P := Push(InObject({NAME}), Bottom)

  /** The property with the given items. */
  function Core(items: string): string {
    NAME_TOKEN + ([':'] + (['['] + (items + [']'])))
  }

  lemma CoreText(items: string, x: string)
    ensures Core(items) + x == NAME_TOKEN + ([':'] + (['['] + (items + ([']'] + x))))
  {
  }

  lemma NameIsToken()
    ensures IsToken(NAME_TOKEN) && |NAME_TOKEN| == 9
  {
    var t := NAME_TOKEN;
    assert t[8..] == "\"";
    assert Inside(t[8..], Quoted);
    assert Inside(t[7..], Quoted) by { assert t[7..][1..] == t[8..]; }
    assert Inside(t[6..], Quoted) by { assert t[6..][1..] == t[7..]; }
    assert Inside(t[5..], Quoted) by { assert t[5..][1..] == t[6..]; }
    assert Inside(t[4..], Quoted) by { assert t[4..][1..] == t[5..]; }
    assert Inside(t[3..], Quoted) by { assert t[3..][1..] == t[4..]; }
    assert Inside(t[2..], Quoted) by { assert t[2..][1..] == t[3..]; }
    assert Inside(t[1..], Quoted) by { assert t[1..][1..] == t[2..]; }
  }

  /** An empty list of items, or the registration alone. */
  predicate Items(lib: Library, items: string) {
    items == "" || (IsToken(items) && lib.decode(items).Some?)
  }

  lemma RunItems(lib: Library, items: string, x: string)
    requires Items(lib, items)
    ensures Run(lib, Want(Push(InArray, P), FirstItem), items + ([']'] + x)) == Run(lib, Want(P, After), x)
  {
    One(']', x);
    if items == "" {
      assert items + ([']'] + x) == [']'] + x;
    } else {
      RunToken(lib, Want(Push(InArray, P), FirstItem), items, [']'] + x);
    }
  }

  lemma RunCore(lib: Library, items: string, x: string)
    requires lib.decode(NAME_TOKEN) == Some(NAME) && Items(lib, items)
    ensures Run(lib, OPEN, Core(items) + x) == Run(lib, Want(P, After), x)
  {
    CoreText(items, x);
    NameIsToken();
    var inner := items + ([']'] + x);
    RunToken(lib, OPEN, NAME_TOKEN, [':'] + (['['] + inner));
    assert {} + {NAME} == {NAME};
    One(':', ['['] + inner);
    One('[', inner);
    RunItems(lib, items, x);
  }

  lemma CoreIsPlain(lib: Library, items: string)
    requires Items(lib, items)
    ensures Plain(Core(items), Code)
  {
    NameIsToken();
    TokenIsPlain(NAME_TOKEN);
    if items != "" {
      TokenIsPlain(items);
    }
    One(']', "");
    assert [']'] + "" == [']'] && Plain([']'], Code);
    PlainParts(items, [']'], Code);
    One('[', items + [']']);
    One(':', ['['] + (items + [']']));
    PlainParts(NAME_TOKEN, [':'] + (['['] + (items + [']'])), Code);
  }

  /** The rest of the root object goes on behind the new property. */
  lemma RestIsRead(lib: Library, body: string)
    requires lib.decode(NAME_TOKEN) == Some(NAME)
    requires Accepts(lib, Run(lib, OPEN, body)) && KeyAt(lib, OPEN, body) == None
    ensures Accepts(lib, Run(lib, Want(P, After), Separator(!Closes(body)) + body))
  {
    if Closes(body) {
      assert Separator(false) + body == body;
      ClosingAlike(lib, ROOT, P, body);
    } else {
      One(',', body);
      assert Separator(true) == [','];
      RunLifted(lib, OPEN, body);
      assert {} + {NAME} == {NAME};
    }
  }

  /** The configuration after an insertion behind a bracket. */
  function Inserted(q: string, c: char, core: string, sep: string, s: string): string {
    q + ([c] + (core + (sep + s)))
  }

  /** An object, split at its brace, that has no plugins property. */
  ghost predicate Lacking(lib: Library, q: string, s: string, a: string, body: string) {
    && Around(q, '{', s, a, body) && AllWhite(a) && Run(lib, START, a) == START
    && Accepts(lib, Run(lib, OPEN, body)) && KeyAt(lib, OPEN, body) == None
    && lib.decode(NAME_TOKEN) == Some(NAME)
  }

  lemma NewPropertyParses(lib: Library, q: string, s: string, a: string, body: string, items: string)
    requires Lacking(lib, q, s, a, body) && Items(lib, items)
    ensures var sep := Separator(!Closes(body)); var n := Inserted(a, '{', Core(items), sep, body);
      Parse(lib, Inserted(q, '{', Core(items), sep, s)) == Some(n) && AfterBrace(n) == Some(Core(items) + (sep + body))
    ensures |q| == |a|
  {
    var sep := Separator(!Closes(body));
    CoreIsPlain(lib, items);
    InsertionIsLocal(q, '{', s, a, body, Core(items), sep);
    BraceFound(a, Core(items) + (sep + body));
    RunParts(lib, START, a, ['{'] + (Core(items) + (sep + body)));
    One('{', Core(items) + (sep + body));
    RunCore(lib, items, sep + body);
    RestIsRead(lib, body);
  }

  lemma NewValueEnds(lib: Library, items: string, tail: string)
    requires Items(lib, items)
    ensures ValueEnd(lib, Want(P, Value), ['['] + (items + ([']'] + tail)), P) == Place(Want(P, After), tail)
  {
    var j := Push(InArray, P);
    One('[', items + ([']'] + tail));
    One(']', tail);
    if items == "" {
      assert items + ([']'] + tail) == [']'] + tail;
    } else {
      TokenEnds(lib, j, items, [']'] + tail, P);
    }
    assert ValueEnd(lib, Want(P, After), tail, P) == Place(Want(P, After), tail);
  }

  lemma TokenEnds(lib: Library, j: Stack, token: string, rest: string, k: Stack)
    requires IsToken(token) && lib.decode(token).Some? && j != k
    ensures ValueEnd(lib, Want(j, FirstItem), token + rest, k) == ValueEnd(lib, Want(j, After), rest, k)
  {
    assert (token + rest)[0] == '"' && (token + rest)[1..] == token[1..] + rest;
    assert ['"'] + token[1..] == token;
    EndInside(lib, j, ['"'], false, token[1..], rest, k);
  }

  lemma FindIs(lib: Library, n: string, t: string, p: Property)
    requires AfterBrace(n) == Some(t) && KeyAt(lib, OPEN, t) == Some(p.key)
    requires ValueAt(lib, p.key.state, p.key.rest) == p.value
    requires ValueEnd(lib, p.value.state, p.value.rest, StackOf(p.value.state)) == p.end
    ensures Find(lib, n) == Some(p)
  {
    hide KeyAt, ValueAt, ValueEnd, AfterBrace, StackOf;
  }

  lemma ColonPassed(lib: Library, k: Stack, value: string)
    requires value != "" && value[0] == '['
    ensures ValueAt(lib, Want(k, Colon), [':'] + value) == Place(Want(k, Value), value)
  {
    One(':', value);
    assert ValueAt(lib, Want(k, Value), value) == Place(Want(k, Value), value);
  }

  /** The new property, with `tail` behind it. */
  function NewProperty(items: string, tail: string): Property {
    var value := ['['] + (items + ([']'] + tail));
    Property(Cut(|NAME_TOKEN|, Want(P, Colon), [':'] + value), Place(Want(P, Value), value),
      Place(Want(P, After), tail))
  }

  lemma NewPropertyFound(lib: Library, n: string, items: string, tail: string)
    requires lib.decode(NAME_TOKEN) == Some(NAME) && Items(lib, items)
    requires AfterBrace(n) == Some(Core(items) + tail)
    ensures Find(lib, n) == Some(NewProperty(items, tail))
  {
    hide KeyAt, ValueAt, ValueEnd, Find, Core, Items;
    NewKeyFound(lib, items, tail);
    var value := ['['] + (items + ([']'] + tail));
    assert value[0] == '[';
    ColonPassed(lib, P, value);
    NewValueEnds(lib, items, tail);
    FindIs(lib, n, Core(items) + tail, NewProperty(items, tail));
  }

  lemma NewPropertyPlace(a: string, items: string, tail: string)
    ensures var n := |a + (['{'] + (Core(items) + tail))|; var p := NewProperty(items, tail);
      && Fits(p, n) && Start(p, n) == |a| + 1 && ValueStart(p, n) == |a| + 11 && End(p, n) == |a| + 1 + |Core(items)|
  {
  }

  lemma NewKeyFound(lib: Library, items: string, tail: string)
    requires lib.decode(NAME_TOKEN) == Some(NAME)
    ensures KeyAt(lib, OPEN, Core(items) + tail)
      == Some(Cut(|NAME_TOKEN|, Want(P, Colon), [':'] + (['['] + (items + ([']'] + tail)))))
  {
    CoreText(items, tail);
    NameIsToken();
    FirstKeyFound(lib, NAME_TOKEN, [':'] + (['['] + (items + ([']'] + tail))));
  }

  lemma RightCloses(n: string, i: nat, limit: nat)
    requires i <= limit <= |n| && Closes(n[i..])
    ensures var r := Right(n, i, limit); r < limit ==> n[r] == ']' || n[r] == '}'
    decreases limit - i
  {
    if i < limit && White(n[i]) {
      assert n[i..][0] == n[i] && n[i..][1..] == n[i + 1..];
      RightCloses(n, i + 1, limit);
    }
  }

  /** Nothing but the item goes when a bracket stands on both sides. */
  lemma WidensByNothing(data: string, n: string, start: nat, end: nat, floor: int, limit: nat)
    requires Normal(data) == Some(n) && -1 <= floor < start <= end <= limit <= |n| && start > 0
    requires n[start - 1] == '{' || n[start - 1] == '['
    requires Closes(n[end..])
    ensures Widen(n, data, start, end, floor, limit) == Range(start, end)
  {
    RightCloses(n, end, limit);
    var r := Right(n, end, limit);
    if r < limit {
      AuthoredBytes(data, r);
    }
    AuthoredBytes(data, start - 1);
  }

  /** A comma that follows at once goes along. */
  lemma WidensByComma(data: string, n: string, start: nat, end: nat, floor: int, limit: nat)
    requires Normal(data) == Some(n) && -1 <= floor < start <= end < limit <= |n|
    requires n[end] == ','
    ensures Widen(n, data, start, end, floor, limit) == Range(start, end + 1)
  {
    AuthoredBytes(data, end);
  }

  // ---------------------------------------------------------------------
  // Splices
  // ---------------------------------------------------------------------

  lemma SpliceIn(q: string, c: char, s: string, core: string, sep: string)
    ensures Splice(q + ([c] + s), |q| + 1, |q| + 1, core + sep) == Inserted(q, c, core, sep, s)
  {
    var d := q + ([c] + s);
    assert d[..|q| + 1] == q + [c] && d[|q| + 1..] == s;
  }

  lemma SpliceOut(x: string, y: string, z: string)
    ensures Splice(x + (y + z), |x|, |x| + |y|, "") == x + z
  {
    var d := x + (y + z);
    assert d[..|x|] == x && d[|x| + |y|..] == z;
  }

  lemma CoreAround(q: string, items: string, rest: string)
    ensures q + (['{'] + (Core(items) + rest))
      == q + (['{'] + (NAME_TOKEN + ([':'] + ['[']))) + (items + ([']'] + rest))
  {
    CoreText(items, rest);
  }

  /** What editing comes to once the item is found. */
  lemma EditRemoves(lib: Library, d: string, n: string, p: Property, item: Cut, registration: string, encoded: string,
      r: Range)
    requires d != "" && Parse(lib, d) == Some(n) && Find(lib, n) == Some(p)
    requires p.value.rest != "" && p.value.rest[0] == '['
    requires var k := StackOf(p.value.state);
      ItemAt(lib, Want(Push(InArray, k), FirstItem), p.value.rest[1..], k, registration) == Some(item)
    requires |n| - |item.rest| <= End(p, |n|)
    requires r == Widen(n, d, |n| - |item.rest| - item.size, |n| - |item.rest|, ValueStart(p, |n|), End(p, |n|))
    ensures EditOf(lib, d, registration, encoded, false, true) == Edited(Splice(d, r.start, r.end, ""), true, false)
  {
    hide Find, ItemAt, Parse, Widen, Splice, AfterBrace;
  }

  /** The item of a new property is removed alone. */
  lemma ItemRemoved(lib: Library, q: string, s: string, a: string, body: string, registration: string, encoded: string)
    requires Lacking(lib, q, s, a, body) && IsToken(encoded) && lib.decode(encoded) == Some(registration)
    ensures var sep := Separator(!Closes(body));
      EditOf(lib, Inserted(q, '{', Core(encoded), sep, s), registration, encoded, false, true)
        == Edited(Inserted(q, '{', Core(""), sep, s), true, false)
  {
    hide KeyAt, Find, ItemAt, AfterBrace, Core, Parse, EditOf, Widen, Splice, Closes, Around;
    var sep := Separator(!Closes(body));
    var d, n := Inserted(q, '{', Core(encoded), sep, s), Inserted(a, '{', Core(encoded), sep, body);
    var tail := sep + body;
    var p := NewProperty(encoded, tail);
    NewPropertyParses(lib, q, s, a, body, encoded);
    NewPropertyFound(lib, n, encoded, tail);
    NewPropertyPlace(a, encoded, tail);
    One('[', encoded + ([']'] + tail));
    FirstItemFound(lib, P, encoded, [']'] + tail, registration);
    BetweenBrackets(a, encoded, tail);
    var r := Range(|a| + 12, |a| + 12 + |encoded|);
    WidensByNothing(d, n, r.start, r.end, |a| + 11, |a| + 1 + |Core(encoded)|);
    EditRemoves(lib, d, n, p, Cut(|encoded|, Want(Push(InArray, P), After), [']'] + tail), registration, encoded, r);
    ItemSpliced(q, encoded, sep + s);
  }

  lemma ItemSpliced(q: string, items: string, rest: string)
    ensures |q| + 12 + |items| <= |q + (['{'] + (Core(items) + rest))|
    ensures Splice(q + (['{'] + (Core(items) + rest)), |q| + 12, |q| + 12 + |items|, "")
      == q + (['{'] + (Core("") + rest))
  {
    hide Core, Splice;
    CoreAround(q, items, rest);
    CoreAround(q, "", rest);
    BeforeItems(q);
    var x := q + (['{'] + (NAME_TOKEN + ([':'] + ['['])));
    SpliceOut(x, items, [']'] + rest);
    assert "" + ([']'] + rest) == [']'] + rest;
  }

  lemma BeforeItems(q: string)
    ensures |q + (['{'] + (NAME_TOKEN + ([':'] + ['['])))| == |q| + 12
  {
    NameIsToken();
  }

  lemma BetweenBrackets(a: string, items: string, tail: string)
    ensures var n := a + (['{'] + (Core(items) + tail));
      && |Core(items)| == 12 + |items| && n[|a| + 11] == '[' && Closes(n[|a| + 12 + |items|..])
  {
    NameIsToken();
    CoreAround(a, items, tail);
    var x := a + (['{'] + (NAME_TOKEN + ([':'] + ['['])));
    var n := x + (items + ([']'] + tail));
    assert n[|x| - 1] == '[';
    assert n[|x| + |items|..] == [']'] + tail;
    One(']', tail);
  }

  /** What removing comes to once the property is found. */
  lemma RemovalIs(lib: Library, d: string, n: string, p: Property, r: Range)
    requires Parse(lib, d) == Some(n) && Find(lib, n) == Some(p) && NoItems(p.value.rest)
    requires r == Widen(n, d, Start(p, |n|), End(p, |n|), -1, |n|)
    ensures RemoveEmptyOf(lib, d) == Edited(Splice(d, r.start, r.end, ""), true, false)
  {
    hide Find, Parse, Widen, Splice, AfterBrace, NoItems;
  }

  /** The emptied new property is removed with what was added for it. */
  lemma PropertyRemoved(lib: Library, q: string, s: string, a: string, body: string)
    requires Lacking(lib, q, s, a, body)
    ensures RemoveEmptyOf(lib, Inserted(q, '{', Core(""), Separator(!Closes(body)), s))
      == Edited(q + (['{'] + s), true, false)
  {
    hide KeyAt, Find, AfterBrace, Core, Parse, RemoveEmptyOf, Widen, Splice, Closes, Around;
    var sep := Separator(!Closes(body));
    var d, n := Inserted(q, '{', Core(""), sep, s), Inserted(a, '{', Core(""), sep, body);
    NewPropertyParses(lib, q, s, a, body, "");
    NewPropertyFound(lib, n, "", sep + body);
    NewPropertyPlace(a, "", sep + body);
    EmptyItems(sep + body);
    PropertyWidens(d, n, a, Core(""), body);
    var end := |a| + 1 + |Core("")|;
    RemovalIs(lib, d, n, NewProperty("", sep + body), Range(|a| + 1, end + |sep|));
    OutOfObject(q, Core(""), sep, s);
  }

  lemma PropertyWidens(d: string, n: string, a: string, core: string, body: string)
    requires n == Inserted(a, '{', core, Separator(!Closes(body)), body) && Normal(d) == Some(n)
    ensures |a| + 1 + |core| <= |n| == |d|
    ensures Widen(n, d, |a| + 1, |a| + 1 + |core|, -1, |n|)
      == Range(|a| + 1, |a| + 1 + |core| + |Separator(!Closes(body))|)
  {
    hide Normal, Widen, Closes;
    var start, end := |a| + 1, |a| + 1 + |core|;
    var tail := Separator(!Closes(body)) + body;
    BehindCore(a, core, tail);
    if Closes(body) {
      assert tail == body;
      WidensByNothing(d, n, start, end, -1, |n|);
    } else {
      assert tail[0] == ',' && n[end] == n[end..][0];
      WidensByComma(d, n, start, end, -1, |n|);
    }
  }

  lemma BehindCore(a: string, core: string, tail: string)
    ensures var n := a + (['{'] + (core + tail));
      && |n| == |a| + 1 + |core| + |tail| && n[|a|] == '{' && n[|a| + 1 + |core|..] == tail
  {
  }

  lemma EmptyItems(tail: string)
    ensures NoItems(['['] + ("" + ([']'] + tail)))
  {
    assert "" + ([']'] + tail) == [']'] + tail;
    One('[', [']'] + tail);
    One(']', tail);
  }

  lemma OutOfObject(q: string, core: string, sep: string, s: string)
    ensures Splice(Inserted(q, '{', core, sep, s), |q| + 1, |q| + 1 + |core| + |sep|, "") == q + (['{'] + s)
  {
    SpliceOut(q + ['{'], core + sep, s);
    assert Inserted(q, '{', core, sep, s) == q + ['{'] + (core + sep + s);
    assert q + ['{'] + s == q + (['{'] + s);
  }
}
