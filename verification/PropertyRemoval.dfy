/** Removing the emptied property leaves everything else alone (cmd/kata/agent_hooks_plugins.go). */
module PropertyRemoval {
  import opened Jsonc
  import opened JsonMachine
  import opened Options
  import opened PluginConfig
  import opened PluginCuts
  import opened PluginEdits
  import opened PluginItems
  import opened PluginRemoval
  import opened PluginRoundTrip

  // ---------------------------------------------------------------------
  // The key
  // ---------------------------------------------------------------------

  lemma {:induction false} NoKeyBehind(lib: Library, t: string)
    ensures KeyAt(lib, Want(Bottom, After), t) == None
    decreases |t|
  {
    if t != "" && White(t[0]) {
      NoKeyBehind(lib, t[1..]);
    }
  }

  predicate FindsKey(lib: Library, s: State, c: char) {
    EndsToken(lib, s, c, NAME) && s.isKey && s.k.Push? && s.k.below == Bottom
  }

  /** The key of the property is a token of the root object. */
  lemma {:induction false} KeyWalk(lib: Library, s: State, r: Reading, t: string) returns (u: string, raw: string,
      k: Stack)
    requires Linked(s, r, Bottom, false) && KeyAt(lib, s, t).Some?
    ensures var cut := KeyAt(lib, s, t).value;
      && t == u + ['"'] + cut.rest && cut.size == |raw| + 1 && lib.decode(raw + ['"']) == Some(NAME)
      && k.Push? && k.below == Bottom && cut.state == EndString(lib, k, true, raw + ['"'])
      && Run(lib, s, u) == Quote(k, true, raw, false) && Linked(Run(lib, s, u), Reads(r, u), Bottom, false)
    decreases |t|
  {
    hide Linked, Feed;
    if FindsKey(lib, s, t[0]) {
      u, raw, k := "", s.raw, s.k;
      assert t == "" + [t[0]] + t[1..];
    } else {
      var s', r' := Step(lib, s, t[0]), Feed(r, t[0]);
      KeyStep(lib, s, r, t);
      var rest: string;
      rest, raw, k := KeyWalk(lib, s', r', t[1..]);
      u := [t[0]] + rest;
      One(t[0], rest);
      assert t == [t[0]] + t[1..];
      assert t == u + ['"'] + KeyAt(lib, s, t).value.rest;
    }
  }

  lemma KeyStep(lib: Library, s: State, r: Reading, t: string)
    requires Linked(s, r, Bottom, false) && KeyAt(lib, s, t).Some? && t != "" && !FindsKey(lib, s, t[0])
    ensures KeyAt(lib, Step(lib, s, t[0]), t[1..]) == KeyAt(lib, s, t)
    ensures Linked(Step(lib, s, t[0]), Feed(r, t[0]), Bottom, false)
  {
    hide Linked, Feed, Step;
    LinkedStep(lib, s, r, Bottom, false, t[0]);
    NoKeyBehind(lib, t[1..]);
  }

  /** The root object with its names seen so far, before and behind the key. */
  function Seen(names: set<string>): Stack {
    Push(InObject(names), Bottom)
  }

  lemma OneFed(r: Reading, c: char, y: string)
    ensures Reads(r, [c] + y) == Reads(Feed(r, c), y)
  {
    One(c, y);
  }

  lemma ByteFed(r: Reading, c: char)
    requires r.mode == Code && !r.closed && !(Structural(c) && c != ':')
    ensures Feed(r, c) == r.(last := r.last + (if White(c) then "" else [c]))
  {
    assert r.last + "" == r.last;
  }

  predicate OnlyColons(u: string) {
    forall i :: 0 <= i < |u| ==> u[i] == ':' || White(u[i])
  }

  lemma {:induction false} ColonsRead(u: string, r: Reading) returns (m: string)
    requires r.mode == Code && !r.closed && OnlyColons(u)
    ensures Reads(r, u) == r.(last := r.last + m)
    decreases |u|
  {
    hide Feed;
    if u != "" {
      ByteFed(r, u[0]);
      m := ColonsRead(u[1..], Feed(r, u[0]));
      var c := if White(u[0]) then "" else [u[0]];
      assert r.last + c + m == r.last + (c + m);
      m := c + m;
    } else {
      m := "";
      assert r.last + "" == r.last;
    }
  }

  lemma {:induction false} ColonsBefore(lib: Library, s: State, u: string, t: string)
    requires ValueAt(lib, s, u + t).rest == t
    ensures OnlyColons(u)
    decreases |u|
  {
    if u != "" {
      PluginEdits.Dropped(u, t);
      assert |u + t| > |t|;
      ColonsBefore(lib, Step(lib, s, u[0]), u[1..], t);
    }
  }

  /** Past the colon, the reading has a little more of the member. */
  lemma ValueReads(lib: Library, s: State, t: string, r: Reading) returns (u: string, m: string)
    requires r.mode == Code && !r.closed
    ensures var v := ValueAt(lib, s, t); t == u + v.rest && Run(lib, s, u) == v.state
    ensures Reads(r, u) == r.(last := r.last + m)
  {
    hide Run, Reads, ValueAt;
    u := ValueAtRuns(lib, s, t);
    ColonsBefore(lib, s, u, ValueAt(lib, s, t).rest);
    m := ColonsRead(u, r);
  }

  // ---------------------------------------------------------------------
  // The value that counts as empty
  // ---------------------------------------------------------------------

  lemma {:induction false} LiteralEnds(lib: Library, k: Stack, text: string, t: string, r: Reading)
    returns (v: string)
    requires k.Push? && Accepts(lib, Run(lib, Bare(k, text), t)) && r.mode == Code && !r.closed
    ensures var e := ValueEnd(lib, Bare(k, text), t, k);
      && t == v + e.rest && Run(lib, Bare(k, text), v) == e.state && e.state == Bare(k, text + v)
      && Ended(lib, e.state, k) && Terminated(e.state, e.rest)
    ensures Reads(r, v) == r.(last := r.last + v) && forall i :: 0 <= i < |v| ==> !White(v[i])
    decreases |t|
  {
    hide Feed, Reads, Run, ValueEnd, Accepts;
    LiteralGoesOn(lib, k, text, t);
    if EndsLiteral(t[0]) {
      v := "";
      Nothing(lib, Bare(k, text), r);
      assert text + "" == text && r.last + "" == r.last;
    } else {
      ByteFed(r, t[0]);
      var y := LiteralEnds(lib, k, text + [t[0]], t[1..], Feed(r, t[0]));
      v := [t[0]] + y;
      OneMore(lib, Bare(k, text), t[0], y);
      OneFed(r, t[0], y);
      Longer(t, y, ValueEnd(lib, Bare(k, text), t, k).rest);
      assert text + [t[0]] + y == text + v && r.last + [t[0]] + y == r.last + v;
    }
  }

  predicate EndsLiteral(c: char) {
    White(c) || c == ',' || c == ']' || c == '}'
  }

  /** One byte of a number or a literal, or what ends it. */
  lemma LiteralGoesOn(lib: Library, k: Stack, text: string, t: string)
    requires k.Push? && Accepts(lib, Run(lib, Bare(k, text), t))
    ensures t != ""
    ensures EndsLiteral(t[0]) ==> lib.scalar(text) && ValueEnd(lib, Bare(k, text), t, k) == Place(Bare(k, text), t)
    ensures !EndsLiteral(t[0]) ==> !Structural(t[0]) && Step(lib, Bare(k, text), t[0]) == Bare(k, text + [t[0]])
    ensures !EndsLiteral(t[0]) ==> Run(lib, Bare(k, text), t) == Run(lib, Bare(k, text + [t[0]]), t[1..])
    ensures !EndsLiteral(t[0]) ==>
      ValueEnd(lib, Bare(k, text), t, k) == ValueEnd(lib, Bare(k, text + [t[0]]), t[1..], k)
  {
    if t != "" {
      FailStays(lib, t[1..]);
    }
  }

  lemma {:induction false} EmptyEnds(lib: Library, k: Stack, t: string, r: Reading) returns (v: string)
    requires k.Push? && Closes(t) && r.mode == Code && !r.closed && r.depth > 0
    requires Accepts(lib, Run(lib, Want(Push(InArray, k), FirstItem), t))
    ensures var e := ValueEnd(lib, Want(Push(InArray, k), FirstItem), t, k);
      && t == v + e.rest && Run(lib, Want(Push(InArray, k), FirstItem), v) == e.state && e.state == Want(k, After)
    ensures v != "" && v[|v| - 1] == ']' && Reads(r, v) == r.(last := r.last + [']'], depth := r.depth - 1)
    decreases |t|
  {
    var j := Push(InArray, k);
    assert j != k by { Taller(k); }
    if White(t[0]) {
      var y := EmptyEnds(lib, k, t[1..], r);
      v := [t[0]] + y;
      One(t[0], y);
      Longer(t, y, ValueEnd(lib, Want(j, FirstItem), t, k).rest);
    } else {
      FailStays(lib, t[1..]);
      v := [t[0]];
      assert [t[0]][1..] == "" && t == [t[0]] + t[1..];
    }
  }

  /** Where a value without items ends, and what it adds to its member. */
  lemma EmptyValue(lib: Library, k: Stack, t: string, r: Reading) returns (v: string, m: string)
    requires k.Push? && NoItems(t) && Accepts(lib, Run(lib, Want(k, Value), t)) && r.mode == Code && !r.closed
    ensures var e := ValueEnd(lib, Want(k, Value), t, k);
      && t == v + e.rest && Run(lib, Want(k, Value), v) == e.state
      && Ended(lib, e.state, k) && Terminated(e.state, e.rest)
    ensures v != "" && !White(v[|v| - 1]) && Reads(r, v) == r.(last := r.last + m)
  {
    hide Reads, Run, ValueEnd, Accepts, Closes, Feed;
    ValueBegins(lib, k, t);
    var y: string;
    if t[0] == 'n' {
      ByteFed(r, t[0]);
      y := LiteralEnds(lib, k, [t[0]], t[1..], Feed(r, t[0]));
      m := [t[0]] + y;
      assert r.last + [t[0]] + y == r.last + m;
    } else {
      BracketFed(r);
      y := EmptyEnds(lib, k, t[1..], Feed(r, t[0]));
      m := [t[0]] + [']'];
      assert r.last + [t[0]] + [']'] == r.last + m;
    }
    v := [t[0]] + y;
    OneFed(r, t[0], y);
    OneMore(lib, Want(k, Value), t[0], y);
    Longer(t, y, ValueEnd(lib, Want(k, Value), t, k).rest);
  }

  lemma ValueBegins(lib: Library, k: Stack, t: string)
    requires NoItems(t)
    ensures t[0] == 'n' || (t[0] == '[' && Closes(t[1..]))
    ensures var s := Step(lib, Want(k, Value), t[0]);
      && s == (if t[0] == 'n' then Bare(k, ['n']) else Want(Push(InArray, k), FirstItem))
      && Run(lib, Want(k, Value), t) == Run(lib, s, t[1..])
      && ValueEnd(lib, Want(k, Value), t, k) == ValueEnd(lib, s, t[1..], k)
  {
    hide Closes;
  }

  lemma BracketFed(r: Reading)
    requires r.mode == Code && !r.closed
    ensures Feed(r, '[') == r.(last := r.last + ['['], depth := r.depth + 1)
  {
  }

  // ---------------------------------------------------------------------
  // The member
  // ---------------------------------------------------------------------

  /** The property as a member of the root object: the text in front of it,
      its own text and the text behind; `m` is the member without blanks. */
  datatype Member = Member(u: string, core: string, t: string, m: string, names: set<string>)

  ghost predicate IsMember(lib: Library, body: string, p: Property, mem: Member) {
    && body == mem.u + mem.core + mem.t && NAME !in mem.names
    && Before(Run(lib, OPEN, mem.u), true) && Run(lib, OPEN, mem.u).k == Seen(mem.names)
    && Part(lib, OPEN, mem.u, mem.core, mem.t, mem.m, Seen(mem.names + {NAME}))
    && |p.key.rest| + p.key.size == |mem.core| + |mem.t| && p.end.rest == mem.t
    && KeyAt(lib, OPEN, body) == Some(p.key) && |p.key.rest| < |mem.core + mem.t|
    && p.key.size <= |mem.m| && lib.decode(mem.m[..p.key.size]) == Some(NAME)
  }

  lemma RootBegins()
    ensures Fresh(OPEN) && Linked(OPEN, NOTHING, Bottom, false)
  {
  }

  lemma BetweenMembers(s: State, r: Reading)
    requires Linked(s, r, Bottom, false) && s.Want? && s.k.Push? && s.k.below == Bottom && Before(s, true)
    ensures Fresh(s) && Between(r) && s.k.top.InObject?
  {
    RestsAbove(s.k, r.depth, Bottom, false);
  }

  /** The key token as read from behind the last part. */
  lemma KeyCloses(lib: Library, k: Stack, r: Reading, raw: string, q: Reading)
    requires Between(r) && q == r.(last := r.last + raw, mode := Quoted)
    ensures Run(lib, Quote(k, true, raw, false), ['"']) == EndString(lib, k, true, raw + ['"'])
    ensures Reads(q, ['"']) == r.(last := raw + ['"'])
  {
    assert ['"'][1..] == "" && "" + raw == raw;
  }

  /** The key and where it stands. */
  lemma FoundKey(lib: Library, body: string) returns (u: string, token: string, names: set<string>)
    requires KeyAt(lib, OPEN, body).Some? && Accepts(lib, Run(lib, OPEN, body))
    ensures var key := KeyAt(lib, OPEN, body).value;
      && body == u + (token + key.rest) && key.size == |token| && token != "" && token[0] == '"'
      && lib.decode(token) == Some(NAME) && key.state == Want(Seen(names + {NAME}), Colon)
      && Run(lib, OPEN, u + token) == key.state
    ensures NAME !in names && Before(Run(lib, OPEN, u), true) && Run(lib, OPEN, u).k == Seen(names)
    ensures Between(Reads(NOTHING, u)) && Reads(Reads(NOTHING, u), token) == Reads(NOTHING, u).(last := token)
    ensures Fresh(Run(lib, OPEN, u))
  {
    hide Run, Reads, Linked, KeyAt;
    RootBegins();
    var u1, raw, k := KeyWalk(lib, OPEN, NOTHING, body);
    LinkedIsOpen(Run(lib, OPEN, u1), Reads(NOTHING, u1));
    u := TokenBegins(lib, OPEN, u1, NOTHING);
    FrontIsOpen(NOTHING, u, raw);
    LinkedRun(lib, OPEN, NOTHING, Bottom, false, u);
    BetweenMembers(Run(lib, OPEN, u), Reads(NOTHING, u));
    token := raw + ['"'];
    KeyCloses(lib, k, Reads(NOTHING, u), raw, Reads(NOTHING, u1));
    ReadsParts(Reads(NOTHING, u), raw, ['"']);
    RunParts(lib, OPEN, u1, ['"']);
    assert u + token == u1 + ['"'];
    var rest := KeyAt(lib, OPEN, body).value.rest;
    assert body == u + token + rest;
    assert u + token + rest == u + (token + rest);
    RunParts(lib, OPEN, u + token, rest);
    KeyIsNew(lib, k, token, rest);
    names := k.top.seen;
  }

  lemma LinkedIsOpen(s: State, r: Reading)
    requires Linked(s, r, Bottom, false)
    ensures !r.closed
  {
  }

  /** In valid text the key ends as the first of its name. */
  lemma KeyIsNew(lib: Library, k: Stack, token: string, rest: string)
    requires k.Push? && k.below == Bottom && k.top.InObject? && lib.decode(token) == Some(NAME)
    requires Accepts(lib, Run(lib, EndString(lib, k, true, token), rest))
    ensures NAME !in k.top.seen && k == Seen(k.top.seen)
    ensures EndString(lib, k, true, token) == Want(Seen(k.top.seen + {NAME}), Colon)
  {
    FailStays(lib, rest);
  }

  /** In valid text, a value that begins with a bracket or a letter begins
      behind the colon. */
  lemma ValueIsBehindColon(lib: Library, k: Stack, s: State, t: string)
    requires s == Want(k, Colon) || s == Want(k, Value) || s == Fail
    requires NoItems(t) && Accepts(lib, Run(lib, s, t))
    ensures s == Want(k, Value)
  {
    FailStays(lib, t[1..]);
    FailStays(lib, t);
  }

  lemma FindSays(lib: Library, n: string, body: string, p: Property)
    requires AfterBrace(n) == Some(body) && Find(lib, n) == Some(p)
    ensures KeyAt(lib, OPEN, body) == Some(p.key) && ValueAt(lib, p.key.state, p.key.rest) == p.value
    ensures p.end == ValueEnd(lib, p.value.state, p.value.rest, StackOf(p.value.state))
  {
    hide KeyAt, ValueAt, ValueEnd, AfterBrace;
  }

  lemma FoundMember(lib: Library, n: string, body: string, p: Property) returns (mem: Member)
    requires AfterBrace(n) == Some(body) && Find(lib, n) == Some(p) && NoItems(p.value.rest)
    requires Accepts(lib, Run(lib, OPEN, body))
    ensures IsMember(lib, body, p, mem)
  {
    hide Run, Reads, KeyAt, ValueAt, ValueEnd, AfterBrace, Find, NoItems;
    FindSays(lib, n, body, p);
    var u, token, names := FoundKey(lib, body);
    var k, r := Seen(names + {NAME}), Reads(NOTHING, u);
    var kept, m1 := ValueReads(lib, p.key.state, p.key.rest, r.(last := token));
    RunParts(lib, OPEN, u + token, kept + p.value.rest);
    assert body == u + token + (kept + p.value.rest);
    RunParts(lib, p.key.state, kept, p.value.rest);
    ColonOrValue(lib, k, p.key.state, p.key.rest);
    ValueIsBehindColon(lib, k, p.value.state, p.value.rest);
    var v, m2 := EmptyValue(lib, k, p.value.rest, r.(last := token + m1));
    var core := token + kept + v;
    mem := Member(u, core, p.end.rest, token + m1 + m2, names);
    assert body == u + core + p.end.rest;
    ReadsParts(r, token + kept, v);
    ReadsParts(r, token, kept);
    assert u + core == u + token + kept + v;
    RunParts(lib, OPEN, u + token + kept, v);
    RunParts(lib, OPEN, u + token, kept);
    assert (token + m1 + m2)[..|token|] == token;
  }

  // ---------------------------------------------------------------------
  // The root object with one name less
  // ---------------------------------------------------------------------

  lemma StringLowered(lib: Library, k: Stack, isKey: bool, token: string)
    requires Rooted(k) && k.Push? && EndString(lib, WithName(k), isKey, token) != Fail
    ensures EndString(lib, WithName(k), isKey, token) == Lifted(EndString(lib, k, isKey, token))
    ensures InRoot(EndString(lib, k, isKey, token))
    ensures !(lib.decode(token) == Some(NAME) && isKey && k.below == Bottom)
  {
    if isKey && k.below == Bottom {
      var name := lib.decode(token).value;
      assert k.top.seen + {name} + {NAME} == k.top.seen + {NAME} + {name};
    }
  }

  lemma WantLowered(lib: Library, k: Stack, need: Need, c: char)
    requires InRoot(Want(k, need)) && !White(c) && Step(lib, Lifted(Want(k, need)), c) != Fail
    ensures Step(lib, Lifted(Want(k, need)), c) == Lifted(Step(lib, Want(k, need), c))
    ensures InRoot(Step(lib, Want(k, need), c))
  {
    match need
    case Value => StartLifted(k, c);
    case FirstItem => StartLifted(k, c);
    case After => AfterLifted(k, c);
    case _ =>
  }

  /** Every step that is possible after the name is possible without it, and
      is not the end of that name. */
  lemma StepLowered(lib: Library, s: State, c: char)
    requires InRoot(s) && Step(lib, Lifted(s), c) != Fail
    ensures Step(lib, Lifted(s), c) == Lifted(Step(lib, s, c)) && InRoot(Step(lib, s, c)) && !FindsKey(lib, s, c)
  {
    match s
    case Fail =>
    case Want(k, need) =>
      if !White(c) {
        WantLowered(lib, k, need, c);
      }
    case Quote(k, isKey, raw, escaped) =>
      if !escaped && c == '"' {
        StringLowered(lib, k, isKey, raw + [c]);
      }
    case Bare(k, text) => AfterLifted(k, c);
  }

  lemma LoweredAccepts(lib: Library, s: State)
    requires InRoot(s) && Accepts(lib, Lifted(s))
    ensures Accepts(lib, s)
  {
  }

  /** What may follow the property may stand without it, and has no other
      property of its name. */
  lemma {:induction false} RunLowered(lib: Library, s: State, t: string)
    requires InRoot(s) && Accepts(lib, Run(lib, Lifted(s), t))
    ensures Accepts(lib, Run(lib, s, t)) && KeyAt(lib, s, t) == None
    decreases |t|
  {
    hide InRoot, Lifted, Step, Accepts;
    if t == "" {
      LoweredAccepts(lib, s);
    } else if Step(lib, Lifted(s), t[0]) == Fail {
      FailStays(lib, t[1..]);
      FailIsNoEnd(lib);
    } else {
      StepLowered(lib, s, t[0]);
      RunLowered(lib, Step(lib, s, t[0]), t[1..]);
    }
  }

  lemma FailIsNoEnd(lib: Library)
    ensures !Accepts(lib, Fail)
  {
  }

  // ---------------------------------------------------------------------
  // The root object without the member
  // ---------------------------------------------------------------------

  /** No key is found in a text that ends before the first. */
  lemma {:induction false} KeyNotYet(lib: Library, s: State, u: string, y: string, z: string)
    requires KeyAt(lib, s, u + y).Some? && |KeyAt(lib, s, u + y).value.rest| < |y|
    ensures KeyAt(lib, s, u + z) == KeyAt(lib, Run(lib, s, u), z)
    decreases |u|
  {
    if u == "" {
      assert u + z == z;
    } else {
      PluginEdits.Dropped(u, y);
      PluginEdits.Dropped(u, z);
      KeyNotYet(lib, Step(lib, s, u[0]), u[1..], y, z);
    }
  }

  lemma NoKeyInFail(lib: Library, t: string)
    ensures KeyAt(lib, Fail, t) == None
  {
  }

  lemma {:induction false} NoKeyAtEnd(lib: Library, k: Stack, need: Need, t: string)
    requires k.Push? && k.below == Bottom && Closes(t) && (need == FirstKey || need == After)
    ensures KeyAt(lib, Want(k, need), t) == None
    decreases |t|
  {
    if White(t[0]) {
      NoKeyAtEnd(lib, k, need, t[1..]);
    } else {
      NoKeyBehind(lib, t[1..]);
      NoKeyInFail(lib, t[1..]);
    }
  }

  lemma {:induction false} LiteralHasNoKey(lib: Library, s: State, k: Stack, t: string)
    requires Ended(lib, s, k) && Terminated(s, t)
    ensures KeyAt(lib, s, t) == KeyAt(lib, Want(k, After), t)
  {
  }

  lemma SeenLifted(names: set<string>, need: Need)
    requires need == FirstKey || need == NextKey || need == After
    ensures Lifted(Want(Seen(names), need)) == Want(Seen(names + {NAME}), if need == After then After else NextKey)
    ensures InRoot(Want(Seen(names), need))
  {
  }

  /** Without the member the root object is read to its end, and has no
      property of that name. */
  lemma RootGoesOn(lib: Library, body: string, p: Property, mem: Member, ex: Excision)
    requires IsMember(lib, body, p, mem) && body == ex.front + (ex.gone + ex.rest)
    requires GoesOn(lib, OPEN, mem.u, mem.t, Seen(mem.names + {NAME}), ex)
    ensures Accepts(lib, Run(lib, OPEN, ex.front + ex.rest)) && KeyAt(lib, OPEN, ex.front + ex.rest) == None
  {
    hide Run, Reads, Accepts, Closes, Skip, KeyAt, Lifted, InRoot;
    var f, k := Run(lib, OPEN, ex.front), Seen(mem.names + {NAME});
    RunParts(lib, OPEN, ex.front, ex.rest);
    FrontIsBefore(lib, body, p, mem, ex);
    KeyNotYet(lib, OPEN, ex.front, ex.gone + ex.rest, ex.rest);
    if Skip(mem.t) < |mem.t| && mem.t[Skip(mem.t)] == ',' {
      SeenLifted(mem.names, f.need);
      RunLowered(lib, f, ex.rest);
    } else if Ended(lib, f, Seen(mem.names)) {
      ClosingTerminates(f, ex.rest);
      EndedAlike(lib, f, Seen(mem.names), ex.rest);
      LiteralHasNoKey(lib, f, Seen(mem.names), ex.rest);
      SeenLifted(mem.names, After);
      RunLowered(lib, Want(Seen(mem.names), After), ex.rest);
    } else {
      ClosingAlike(lib, ROOT, k, ex.rest);
      NoKeyAtEnd(lib, ROOT, FirstKey, ex.rest);
    }
  }

  lemma FrontIsBefore(lib: Library, body: string, p: Property, mem: Member, ex: Excision)
    requires IsMember(lib, body, p, mem) && body == ex.front + (ex.gone + ex.rest) && ex.front <= mem.u
    ensures |p.key.rest| < |ex.gone + ex.rest|
  {
    hide Run, Reads, KeyAt, Part, Before;
    assert |body| == |mem.u| + |mem.core + mem.t| && |body| == |ex.front| + |ex.gone + ex.rest|;
  }

  // ---------------------------------------------------------------------
  // The law of removing the property
  // ---------------------------------------------------------------------

  /** The members of the root object. */
  function Members(n: string): seq<string>
    requires AfterBrace(n).Some?
  {
    PartsOf(AfterBrace(n).value)
  }

  /** What was cut out of `data`, which reads as `n`, is the `i`th member,
      which is the property, with blanks and a comma at most. What is left is
      an object of the other members. */
  ghost predicate PropertyGone(lib: Library, data: string, n: string, p: Property, bytes: string, cut: Range, i: nat)
    requires AfterBrace(n).Some? && Fits(p, |n|)
  {
    && |n| == |data| && Start(p, |n|) <= End(p, |n|) && cut.start < cut.end <= |n| && i < |Members(n)|
    && bytes == data[..cut.start] + data[cut.end..]
    && OneComma(n[cut.start..cut.end], n[Start(p, |n|)..End(p, |n|)])
    && p.key.size <= |Members(n)[i]| && lib.decode(Members(n)[i][..p.key.size]) == Some(NAME)
    && var n' := n[..cut.start] + n[cut.end..];
      && Parse(lib, bytes) == Some(n') && Find(lib, n') == None
      && Members(n') == Members(n)[..i] + Members(n)[i + 1..]
  }

  /** The configuration parses without the member, and lacks the property. */
  lemma RootParses(lib: Library, d: string, a: string, x: string)
    requires AllWhite(a) && Run(lib, START, a) == START && Normal(d) == Some(a + ['{'] + x)
    requires Accepts(lib, Run(lib, OPEN, x)) && KeyAt(lib, OPEN, x) == None
    ensures AfterBrace(a + ['{'] + x) == Some(x) && Parse(lib, d) == Some(a + ['{'] + x)
    ensures Find(lib, a + ['{'] + x) == None
  {
    hide Run, Accepts, AfterBrace, Normal, KeyAt;
    assert a + ['{'] + x == a + (['{'] + x);
    BraceFound(a, x);
    RunParts(lib, START, a, ['{'] + x);
    OneMore(lib, START, '{', x);
  }

  lemma RootOpens(lib: Library, n: string) returns (a: string)
    requires Valid(lib, n) && AfterBrace(n).Some?
    ensures AllWhite(a) && Run(lib, START, a) == START && n == a + ['{'] + AfterBrace(n).value
    ensures Container(lib, a + ['{'], AfterBrace(n).value, OPEN, Bottom, false)
  {
    hide AfterBrace, Run, Accepts, AllWhite;
    var body := AfterBrace(n).value;
    a := BeforeBrace(lib, n);
    assert n == a + ['{'] + body;
    RunParts(lib, START, a, ['{'] + body);
    OneMore(lib, START, '{', body);
    RunParts(lib, START, a, ['{']);
    OneMore(lib, START, '{', "");
    assert ['{'] + "" == ['{'];
    Nothing(lib, OPEN, NOTHING);
  }

  lemma MemberPlaces(lib: Library, n: string, pre: string, body: string, p: Property, mem: Member)
    requires n == pre + body && IsMember(lib, body, p, mem)
    ensures Fits(p, |n|) ==> Start(p, |n|) == |pre| + |mem.u| && End(p, |n|) == |pre| + |mem.u| + |mem.core|
    ensures n[|pre| + |mem.u|..|pre| + |mem.u| + |mem.core|] == mem.core
  {
    hide Run, Reads, KeyAt, Part, Before;
    CutSlice(pre, mem.u, mem.core, mem.t);
    assert body == mem.u + (mem.core + mem.t);
  }

  lemma MemberFollowed(lib: Library, body: string, p: Property, mem: Member)
    requires IsMember(lib, body, p, mem) && Accepts(lib, Run(lib, OPEN, body))
    ensures Skip(mem.t) < |mem.t|
  {
    hide Run, Reads, Accepts, Skip, KeyAt;
    PartAccepted(lib, OPEN, mem.u, mem.core, mem.t, mem.m, Seen(mem.names + {NAME}));
  }

  lemma CutOut(pre: string, ex: Excision)
    ensures var n := pre + (ex.front + (ex.gone + ex.rest)); var s := |pre| + |ex.front|; var e := s + |ex.gone|;
      e <= |n| && n[s..e] == ex.gone && n[..s] + n[e..] == pre + (ex.front + ex.rest)
  {
    CutSlice(pre, ex.front, ex.gone, ex.rest);
    assert pre + ex.front + ex.rest == pre + (ex.front + ex.rest);
  }

  lemma TakenSays(d: string, pre: string, x: string, core: string, m: string, before: seq<string>,
      behind: seq<string>, ex: Excision)
    requires Taken(d, pre, x, core, m, before, behind, ex)
    ensures x == ex.front + (ex.gone + ex.rest) && OneComma(ex.gone, core)
    ensures |pre| + |ex.front| + |ex.gone| <= |d|
    ensures Normal(d[..|pre| + |ex.front|] + d[|pre| + |ex.front| + |ex.gone|..]) == Some(pre + ex.front + ex.rest)
    ensures PartsOf(x) == before + [m] + behind && PartsOf(ex.front + ex.rest) == before + behind
  {
    hide PartsOf, Normal, OneComma;
  }

  /** What is left without the member. */
  lemma LeftOver(lib: Library, d: string, a: string, body: string, p: Property, mem: Member, ex: Excision)
    requires AllWhite(a) && Run(lib, START, a) == START && IsMember(lib, body, p, mem)
    requires body == ex.front + (ex.gone + ex.rest) && Normal(d) == Some(a + ['{'] + ex.front + ex.rest)
    requires GoesOn(lib, OPEN, mem.u, mem.t, Seen(mem.names + {NAME}), ex)
    ensures var n := a + ['{'] + (ex.front + ex.rest);
      Parse(lib, d) == Some(n) && Find(lib, n) == None && Members(n) == PartsOf(ex.front + ex.rest)
  {
    hide Run, Accepts, Normal, Parse, Find, PartsOf, GoesOn, IsMember, AllWhite, KeyAt;
    RootGoesOn(lib, body, p, mem, ex);
    assert a + ['{'] + ex.front + ex.rest == a + ['{'] + (ex.front + ex.rest);
    RootParses(lib, d, a, ex.front + ex.rest);
  }

  lemma PropertyCut(lib: Library, data: string, n: string, p: Property, a: string, pre: string, mem: Member,
      ex: Excision, behind: seq<string>, cut: Range)
    requires Parse(lib, data) == Some(n) && pre == a + ['{'] && n == pre + AfterBrace(n).value && Fits(p, |n|)
    requires AllWhite(a) && Run(lib, START, a) == START && IsMember(lib, AfterBrace(n).value, p, mem)
    requires Taken(data, pre, AfterBrace(n).value, mem.core, mem.m, Reads(NOTHING, mem.u).parts, behind, ex)
    requires GoesOn(lib, OPEN, mem.u, mem.t, Seen(mem.names + {NAME}), ex)
    requires cut == Range(|pre| + |ex.front|, |pre| + |ex.front| + |ex.gone|)
    ensures PropertyGone(lib, data, n, p, data[..cut.start] + data[cut.end..], cut, |Reads(NOTHING, mem.u).parts|)
  {
    hide Run, Reads, Normal, Parse, Find, PartsOf, AfterBrace, GoesOn, OneComma, Start, End, AllWhite, IsMember, Valid,
      Taken, Members;
    var body := AfterBrace(n).value;
    TakenSays(data, pre, body, mem.core, mem.m, Reads(NOTHING, mem.u).parts, behind, ex);
    var bytes := data[..cut.start] + data[cut.end..];
    ParseIsNormal(lib, data, n);
    LeftOver(lib, bytes, a, body, p, mem, ex);
    CutOut(pre, ex);
    MemberIsSomething(lib, body, p, mem);
    SomethingGoes(ex.gone, mem.core);
    MemberPlaces(lib, n, pre, body, p, mem);
    MembersAre(n);
    OneItem(Reads(NOTHING, mem.u).parts, mem.m, behind, Members(n));
  }

  lemma MembersAre(n: string)
    requires AfterBrace(n).Some?
    ensures Members(n) == PartsOf(AfterBrace(n).value)
  {
  }

  lemma MemberIsSomething(lib: Library, body: string, p: Property, mem: Member)
    requires IsMember(lib, body, p, mem)
    ensures mem.core != "" && p.key.size <= |mem.m| && lib.decode(mem.m[..p.key.size]) == Some(NAME)
  {
  }

  /** Removing the property from a configuration, whoever wrote it: if it has
      no items, exactly this member goes, and otherwise nothing changes. */
  lemma PropertyRemovalIsExact(lib: Library, data: string, n: string, p: Property) returns (cut: Range, i: nat)
    requires PlainScalars(lib) && Parse(lib, data) == Some(n) && Find(lib, n) == Some(p)
    ensures var e := RemoveEmptyOf(lib, data);
      e.Edited? && if NoItems(p.value.rest) then PropertyGone(lib, data, n, p, e.bytes, cut, i) else e.bytes == data
  {
    hide Run, Reads, Accepts, Skip, Normal, Parse, Find, PartsOf, AfterBrace, Part, GoesOn, Start, End, Closes,
      KeyAt, Before, AllWhite, NoItems, Widen, Container, Valid, PropertyGone, Splice, Taken, RemoveEmptyOf;
    cut, i := Range(0, 0), 0;
    ParseIsNormal(lib, data, n);
    if NoItems(p.value.rest) {
      var body := AfterBrace(n).value;
      var a := RootOpens(lib, n);
      ContainerIsRead(lib, a + ['{'], body);
      var mem := FoundMember(lib, n, body, p);
      MemberPlaces(lib, n, a + ['{'], body, p, mem);
      MemberFollowed(lib, body, p, mem);
      var ex, behind := TakesOut(lib, data, a + ['{'], OPEN, Bottom, false, mem.u, mem.core, mem.t, mem.m,
        Seen(mem.names + {NAME}), -1, |n|);
      cut := Range(|a + ['{']| + |ex.front|, |a + ['{']| + |ex.front| + |ex.gone|);
      i := |Reads(NOTHING, mem.u).parts|;
      RemovalIs(lib, data, n, p, cut);
      PropertyCut(lib, data, n, p, a, a + ['{'], mem, ex, behind, cut);
      Spliced(data, cut);
    } else {
      PropertyKept(lib, data, n, p);
    }
  }

  lemma ContainerIsRead(lib: Library, pre: string, body: string)
    requires Container(lib, pre, body, OPEN, Bottom, false)
    ensures Accepts(lib, Run(lib, OPEN, body))
  {
  }

  lemma PropertyKept(lib: Library, data: string, n: string, p: Property)
    requires Parse(lib, data) == Some(n) && Find(lib, n) == Some(p) && !NoItems(p.value.rest)
    ensures RemoveEmptyOf(lib, data) == Edited(data, true, false)
  {
    hide Find, Parse, AfterBrace, NoItems;
  }

  // ---------------------------------------------------------------------
  // When there are no items
  // ---------------------------------------------------------------------

  lemma {:induction false} SomethingStays(r: Reading, t: string)
    requires r.parts != [] || r.last != ""
    ensures All(Reads(r, t)) != []
    decreases |t|
  {
    if t != "" {
      SomethingStays(Feed(r, t[0]), t[1..]);
    }
  }

  lemma {:induction false} SomethingBegins(lib: Library, j: Stack, x: string)
    requires j.Push? && !Closes(x) && Accepts(lib, Run(lib, Want(j, FirstItem), x))
    ensures PartsOf(x) != []
    decreases |x|
  {
    if White(x[0]) {
      SomethingBegins(lib, j, x[1..]);
    } else {
      SomethingStays(Feed(NOTHING, x[0]), x[1..]);
    }
  }

  /** An array counts as empty exactly if it has no items, and of all other
      values the one that begins with an "n". */
  lemma EmptyMeansNoItems(lib: Library, n: string, p: Property)
    requires Valid(lib, n) && AfterBrace(n).Some? && Find(lib, n) == Some(p)
    ensures NoItems(p.value.rest) <==>
      if IsArray(p) then ItemsIn(p) == [] else p.value.rest != "" && p.value.rest[0] == 'n'
  {
    hide Run, Accepts, Reads, KeyAt, ValueAt, Find, AfterBrace, Valid, Closes, AllWhite;
    if IsArray(p) {
      var c := CutsAtArray(lib, n, p);
      var x := p.value.rest[1..];
      assert x == c.x;
      if Closes(x) {
        ClosesReads(NOTHING, x);
      } else {
        SomethingBegins(lib, Push(InArray, c.k), x);
      }
    }
  }
}
