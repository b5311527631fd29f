/** Adding a registration and removing it again gives the authored bytes back (cmd/kata/agent_hooks_plugins.go). */
module PluginRoundTrip {
  import opened Jsonc
  import opened JsonMachine
  import opened Options
  import opened PluginConfig
  import opened PluginEdits

  // ---------------------------------------------------------------------
  // A configuration without the property
  // ---------------------------------------------------------------------

  /** What adding comes to in a configuration that lacks the property. */
  lemma EditCreates(lib: Library, d: string, n: string, registration: string, encoded: string, body: string)
    requires d != "" && Parse(lib, d) == Some(n) && AfterBrace(n) == Some(body) && Find(lib, n) == None
    ensures |n| == |d| && |body| < |n|
    ensures EditOf(lib, d, registration, encoded, true, false)
      == Edited(Splice(d, |n| - |body|, |n| - |body|, NAME_TOKEN + ":[" + encoded + "]" + Separator(!Closes(body))),
        false, true)
  {
    hide Find, Parse, Splice, AfterBrace, Closes;
  }

  lemma PlainInsertion(encoded: string, sep: string)
    ensures NAME_TOKEN + ":[" + encoded + "]" + sep == Core(encoded) + sep
  {
    assert ":[" == [':'] + ['['] && "]" == [']'];
  }

  lemma FindNothing(lib: Library, n: string, body: string)
    requires AfterBrace(n) == Some(body) && Find(lib, n) == None
    ensures KeyAt(lib, OPEN, body) == None
  {
    hide KeyAt, AfterBrace;
  }

  /** The configuration splits at the brace that opens it. */
  lemma SplitsAtBrace(lib: Library, d: string, n: string) returns (q: string, s: string, a: string, body: string)
    requires Parse(lib, d) == Some(n) && Find(lib, n) == None && lib.decode(NAME_TOKEN) == Some(NAME)
    ensures AfterBrace(n) == Some(body) && d == q + (['{'] + s) && n == a + (['{'] + body) && |q| == |a|
    ensures Lacking(lib, q, s, a, body)
  {
    body := AfterBrace(n).value;
    a := BeforeBrace(lib, n);
    q, s := AuthoredAround(lib, d, a, '{', body);
    RunParts(lib, START, a, ['{'] + body);
    One('{', body);
    FindNothing(lib, n, body);
  }

  /** Adding, removing and removing the emptied property. */
  lemma CreatedIsRemoved(lib: Library, data: string, n: string, registration: string, encoded: string)
    requires data != "" && Parse(lib, data) == Some(n) && Find(lib, n) == None
    requires lib.decode(NAME_TOKEN) == Some(NAME) && IsToken(encoded) && lib.decode(encoded) == Some(registration)
    ensures var added := EditOf(lib, data, registration, encoded, true, false);
      && added.Edited? && added.created && !added.present
      && var back := EditOf(lib, added.bytes, registration, encoded, false, true);
        back.Edited? && back.present && RemoveEmptyOf(lib, back.bytes) == Edited(data, true, false)
  {
    hide Find, KeyAt, AfterBrace, Parse, EditOf, RemoveEmptyOf, Splice, Closes, Core, Around;
    var q, s, a, body := SplitsAtBrace(lib, data, n);
    var sep := Separator(!Closes(body));
    EditCreates(lib, data, n, registration, encoded, body);
    PlainInsertion(encoded, sep);
    assert |n| - |body| == |q| + 1;
    SpliceIn(q, '{', s, Core(encoded), sep);
    ItemRemoved(lib, q, s, a, body, registration, encoded);
    PropertyRemoved(lib, q, s, a, body);
  }

  // ---------------------------------------------------------------------
  // A configuration with the property
  // ---------------------------------------------------------------------

  /** The state behind the key's colon, unless reading has failed. */
  lemma {:induction false} ColonOrValue(lib: Library, k: Stack, s: State, t: string)
    requires s == Want(k, Colon) || s == Want(k, Value) || s == Fail
    ensures var v := ValueAt(lib, s, t); v.state == Want(k, Colon) || v.state == Want(k, Value) || v.state == Fail
    decreases |t|
  {
    if t != "" && (t[0] == ':' || White(t[0])) {
      ColonOrValue(lib, k, Step(lib, s, t[0]), t[1..]);
    }
  }

  /** In a valid text, the bracket of the property's value is read as one. */
  lemma ValueIsRead(lib: Library, k: Stack, s: State, x: string)
    requires s == Want(k, Colon) || s == Want(k, Value) || s == Fail
    requires Accepts(lib, Run(lib, s, ['['] + x))
    ensures s == Want(k, Value) && Accepts(lib, Run(lib, Want(Push(InArray, k), FirstItem), x))
  {
    One('[', x);
    FailStays(lib, x);
    FailStays(lib, ['['] + x);
  }

  /** The key ends in the root object. */
  lemma {:induction false} KeyAtState(lib: Library, s: State, t: string)
    requires KeyAt(lib, s, t).Some?
    ensures var key := KeyAt(lib, s, t).value;
      key.state == Fail || (key.state.Want? && key.state.need == Colon && key.state.k.Push? &&
        key.state.k.top.InObject? && key.state.k.below == Bottom)
    decreases |t|
  {
    if !(EndsToken(lib, s, t[0], NAME) && s.isKey && s.k.Push? && s.k.below == Bottom) {
      KeyAtState(lib, Step(lib, s, t[0]), t[1..]);
    }
  }

  /** A configuration with an array of plugins, cut where the array opens:
      `w` is read from the root's brace to there, `kept` from the key on. */
  datatype Cutting = Cutting(a: string, w: string, kept: string, x: string, key: Cut, k: Stack)

  ghost predicate IsCutting(lib: Library, n: string, c: Cutting) {
    && n == c.a + (['{'] + (c.w + (['['] + c.x))) && AllWhite(c.a)
    && KeyAt(lib, OPEN, c.w + (['['] + c.x)) == Some(c.key)
    && c.key.rest == c.kept + (['['] + c.x)
    && ValueAt(lib, c.key.state, c.kept + (['['] + c.x)) == Place(Want(c.k, Value), ['['] + c.x)
    && c.k.Push? && c.k.top.InObject?
    && Run(lib, START, c.a + (['{'] + c.w)) == Want(c.k, Value)
    && Accepts(lib, Run(lib, Want(Push(InArray, c.k), FirstItem), c.x))
  }

  lemma Regrouped(a: string, u: string, kept: string, y: string)
    ensures a + (['{'] + (u + (kept + y))) == a + (['{'] + (u + kept)) + y
    ensures u + (kept + y) == u + kept + y
  {
  }

  lemma CutsAtArray(lib: Library, n: string, p: Property) returns (c: Cutting)
    requires Valid(lib, n) && AfterBrace(n).Some? && Find(lib, n) == Some(p)
    requires p.value.rest != "" && p.value.rest[0] == '['
    ensures IsCutting(lib, n, c) && p.value.rest == ['['] + c.x && p.value.state == Want(c.k, Value)
  {
    hide KeyAt, ValueAt, ValueEnd, AfterBrace, Run, Step;
    var body, key, v := AfterBrace(n).value, p.key, p.value;
    var a := BeforeBrace(lib, n);
    FindParts(lib, n, body, p);
    var u := KeyAtRuns(lib, OPEN, body);
    var kept := ValueAtRuns(lib, key.state, key.rest);
    var x := v.rest[1..];
    assert v.rest == ['['] + x;
    KeyAtState(lib, OPEN, body);
    var k := StackOf(key.state);
    Regrouped(a, u, kept, v.rest);
    assert body == u + kept + v.rest;
    ReadToArray(lib, a, u, kept, key.state, v.state);
    RunParts(lib, START, a + (['{'] + (u + kept)), v.rest);
    StateAtArray(lib, k, key.state, key.rest, x);
    c := Cutting(a, u + kept, kept, x, key, k);
  }

  lemma FindParts(lib: Library, n: string, body: string, p: Property)
    requires AfterBrace(n) == Some(body) && Find(lib, n) == Some(p)
    ensures KeyAt(lib, OPEN, body) == Some(p.key) && ValueAt(lib, p.key.state, p.key.rest) == p.value
  {
    hide KeyAt, ValueAt, ValueEnd, AfterBrace;
  }

  lemma ReadToArray(lib: Library, a: string, u: string, kept: string, keyState: State, state: State)
    requires Run(lib, START, a) == START && Run(lib, OPEN, u) == keyState && Run(lib, keyState, kept) == state
    ensures Run(lib, START, a + (['{'] + (u + kept))) == state
  {
    RunParts(lib, START, a, ['{'] + (u + kept));
    One('{', u + kept);
    RunParts(lib, OPEN, u, kept);
  }

  lemma {:induction false} FailValue(lib: Library, t: string)
    ensures ValueAt(lib, Fail, t).state == Fail
    decreases |t|
  {
    if t != "" {
      FailValue(lib, t[1..]);
    }
  }

  lemma StateAtArray(lib: Library, k: Stack, keyState: State, t: string, x: string)
    requires keyState == Fail || keyState == Want(k, Colon)
    requires ValueAt(lib, keyState, t).rest == ['['] + x
    requires Accepts(lib, Run(lib, ValueAt(lib, keyState, t).state, ['['] + x))
    ensures ValueAt(lib, keyState, t).state == Want(k, Value) &&
      Accepts(lib, Run(lib, Want(Push(InArray, k), FirstItem), x))
    ensures keyState != Fail
  {
    hide Run;
    FailValue(lib, t);
    ColonOrValue(lib, k, keyState, t);
    ValueIsRead(lib, k, ValueAt(lib, keyState, t).state, x);
  }

  /** The rest of the array goes on behind the new item. */
  lemma ItemsGoOn(lib: Library, k: Stack, x: string)
    requires Accepts(lib, Run(lib, Want(Push(InArray, k), FirstItem), x))
    ensures Accepts(lib, Run(lib, Want(Push(InArray, k), After), Separator(!Closes(x)) + x))
  {
    var j := Push(InArray, k);
    if Closes(x) {
      assert Separator(false) + x == x;
      ClosingAlike(lib, j, j, x);
    } else {
      assert Separator(true) == [','];
      One(',', x);
      ItemAlike(lib, j, x);
    }
  }

  /** The array with a new first item, and the property it is the value of. */
  function WithItem(c: Cutting, token: string): string {
    token + (Separator(!Closes(c.x)) + c.x)
  }

  /** The property with `x` behind the bracket of its array. */
  function WithArray(lib: Library, c: Cutting, x: string): Property {
    Property(Cut(c.key.size, c.key.state, c.kept + (['['] + x)), Place(Want(c.k, Value), ['['] + x),
      ValueEnd(lib, Want(c.k, Value), ['['] + x, c.k))
  }

  function Extended(lib: Library, c: Cutting, token: string): Property {
    WithArray(lib, c, WithItem(c, token))
  }

  lemma NewItemIsValid(lib: Library, c: Cutting, n: string, token: string)
    requires IsCutting(lib, n, c) && IsToken(token) && lib.decode(token).Some?
    ensures Valid(lib, c.a + (['{'] + c.w) + (['['] + WithItem(c, token)))
  {
    hide KeyAt, ValueAt;
    var j := Push(InArray, c.k);
    var tail := Separator(!Closes(c.x)) + c.x;
    RunParts(lib, START, c.a + (['{'] + c.w), ['['] + (token + tail));
    One('[', token + tail);
    RunToken(lib, Want(j, FirstItem), token, tail);
    ItemsGoOn(lib, c.k, c.x);
  }

  /** The array is found where it was, whatever it holds. */
  lemma ArrayIsFound(lib: Library, c: Cutting, n: string, x: string)
    requires IsCutting(lib, n, c)
    ensures var n' := c.a + (['{'] + (c.w + (['['] + x)));
      AfterBrace(n').Some? && Find(lib, n') == Some(WithArray(lib, c, x))
  {
    hide KeyAt, ValueAt, ValueEnd, AfterBrace, Find, Run;
    var y, y' := ['['] + c.x, ['['] + x;
    BraceFound(c.a, c.w + y');
    KeyAtSwap(lib, OPEN, c.w, y, y');
    assert c.key.rest[..|c.key.rest| - |y|] == c.kept;
    ValueAtSwap(lib, c.key.state, c.kept, '[', c.x, x);
    FindIs(lib, c.a + (['{'] + (c.w + y')), c.w + y', WithArray(lib, c, x));
  }

  /** The array ends behind its new item, and behind the comma after it. */
  lemma EndsBehindItem(lib: Library, c: Cutting, token: string)
    requires IsToken(token) && lib.decode(token).Some? && c.k.Push? && c.k.top.InObject?
    ensures |Extended(lib, c, token).end.rest| <= |c.x|
      || (Closes(c.x) && |Extended(lib, c, token).end.rest| <= |Separator(!Closes(c.x)) + c.x|)
  {
    var j := Push(InArray, c.k);
    var tail := Separator(!Closes(c.x)) + c.x;
    One('[', token + tail);
    TokenEnds(lib, j, token, tail, c.k);
    if !Closes(c.x) {
      assert Separator(true) == [','];
      One(',', c.x);
    }
  }

  lemma NewItemParses(lib: Library, d: string, q: string, s: string, c: Cutting, n: string, token: string)
    requires IsCutting(lib, n, c) && IsToken(token) && lib.decode(token).Some?
    requires Around(q, '[', s, c.a + (['{'] + c.w), c.x)
    requires d == Inserted(q, '[', token, Separator(!Closes(c.x)), s)
    ensures Parse(lib, d) == Some(c.a + (['{'] + c.w) + (['['] + WithItem(c, token)))
    ensures Find(lib, c.a + (['{'] + c.w) + (['['] + WithItem(c, token))) == Some(Extended(lib, c, token))
    ensures |q| == |c.a| + 1 + |c.w|
  {
    hide KeyAt, ValueAt, ValueEnd, Find, Run, AfterBrace;
    TokenIsPlain(token);
    InsertionIsLocal(q, '[', s, c.a + (['{'] + c.w), c.x, token, Separator(!Closes(c.x)));
    NewItemIsValid(lib, c, n, token);
    ArrayIsFound(lib, c, n, WithItem(c, token));
    assert c.a + (['{'] + c.w) + (['['] + WithItem(c, token)) == c.a + (['{'] + (c.w + (['['] + WithItem(c, token))));
  }

  /** What is taken out with the new item. */
  lemma ItemWidens(d: string, n: string, before: string, token: string, x: string, limit: nat)
    requires n == before + (['['] + (token + (Separator(!Closes(x)) + x))) && Normal(d) == Some(n)
    requires |before| + 1 + |token| <= limit <= |n| && (!Closes(x) ==> |before| + 1 + |token| < limit)
    ensures Widen(n, d, |before| + 1, |before| + 1 + |token|, |before|, limit)
      == Range(|before| + 1, |before| + 1 + |token| + |Separator(!Closes(x))|)
  {
    hide Normal, Widen, Closes;
    var start, end := |before| + 1, |before| + 1 + |token|;
    var tail := Separator(!Closes(x)) + x;
    BehindItem(before, token, tail);
    if Closes(x) {
      assert tail == x;
      WidensByNothing(d, n, start, end, |before|, limit);
    } else {
      assert tail[0] == ',' && n[end] == n[end..][0];
      WidensByComma(d, n, start, end, |before|, limit);
    }
  }

  lemma BehindItem(before: string, token: string, tail: string)
    ensures var n := before + (['['] + (token + tail));
      && |n| == |before| + 1 + |token| + |tail| && n[|before|] == '[' && n[|before| + 1 + |token|..] == tail
  {
  }

  lemma OutOfArray(q: string, token: string, sep: string, s: string)
    ensures Splice(Inserted(q, '[', token, sep, s), |q| + 1, |q| + 1 + |token| + |sep|, "") == q + (['['] + s)
  {
    SpliceOut(q + ['['], token + sep, s);
    assert Inserted(q, '[', token, sep, s) == q + ['['] + (token + sep + s);
    assert q + ['['] + s == q + (['['] + s);
  }

  /** The new first item goes as it came. */
  lemma NewItemRemoved(lib: Library, q: string, s: string, c: Cutting, n: string, registration: string, encoded: string)
    requires IsCutting(lib, n, c) && IsToken(encoded) && lib.decode(encoded) == Some(registration)
    requires Around(q, '[', s, c.a + (['{'] + c.w), c.x)
    ensures EditOf(lib, Inserted(q, '[', encoded, Separator(!Closes(c.x)), s), registration, encoded, false, true)
      == Edited(q + (['['] + s), true, false)
  {
    hide KeyAt, ValueAt, ValueEnd, Find, Run, AfterBrace, ItemAt, Parse, EditOf, Widen, Splice, Closes, Around;
    var sep, before := Separator(!Closes(c.x)), c.a + (['{'] + c.w);
    var d, n', p := Inserted(q, '[', encoded, sep, s), before + (['['] + WithItem(c, encoded)),
      Extended(lib, c, encoded);
    NewItemParses(lib, d, q, s, c, n, encoded);
    One('[', WithItem(c, encoded));
    FirstItemFound(lib, c.k, encoded, sep + c.x, registration);
    EndsBehindItem(lib, c, encoded);
    BehindItem(before, encoded, sep + c.x);
    ItemWidens(d, n', before, encoded, c.x, End(p, |n'|));
    var r := Range(|before| + 1, |before| + 1 + |encoded| + |sep|);
    EditRemoves(lib, d, n', p, Cut(|encoded|, Want(Push(InArray, c.k), After), sep + c.x), registration, encoded, r);
    OutOfArray(q, encoded, sep, s);
  }

  /** What adding comes to in an array without the registration. */
  lemma EditInserts(lib: Library, d: string, n: string, p: Property, registration: string, encoded: string)
    requires d != "" && Parse(lib, d) == Some(n) && Find(lib, n) == Some(p)
    requires var e := EditOf(lib, d, registration, encoded, true, false); e.Edited? && !e.present
    ensures p.value.rest != "" && p.value.rest[0] == '[' && ValueStart(p, |n|) < |d|
    ensures EditOf(lib, d, registration, encoded, true, false)
      == Edited(Splice(d, ValueStart(p, |n|) + 1, ValueStart(p, |n|) + 1,
        encoded + Separator(!Closes(p.value.rest[1..]))), false, false)
  {
    hide Find, ItemAt, Parse, Widen, Splice, AfterBrace, Closes;
  }

  /** Adding to an array and removing again. */
  lemma InsertedIsRemoved(lib: Library, data: string, n: string, p: Property, registration: string, encoded: string)
    requires data != "" && Parse(lib, data) == Some(n) && Find(lib, n) == Some(p)
    requires IsToken(encoded) && lib.decode(encoded) == Some(registration)
    requires var e := EditOf(lib, data, registration, encoded, true, false); e.Edited? && !e.present
    ensures var added := EditOf(lib, data, registration, encoded, true, false);
      !added.created && EditOf(lib, added.bytes, registration, encoded, false, true) == Edited(data, true, false)
  {
    hide Find, KeyAt, ValueAt, ValueEnd, ItemAt, EditOf, Splice, Closes, Run;
    EditInserts(lib, data, n, p, registration, encoded);
    var c := CutsAtArray(lib, n, p);
    var before := c.a + (['{'] + c.w);
    assert n == before + (['['] + c.x);
    var q, s := AuthoredAround(lib, data, before, '[', c.x);
    assert |q| == |before|;
    SpliceIn(q, '[', s, encoded, Separator(!Closes(c.x)));
    One('[', c.x);
    NewItemRemoved(lib, q, s, c, n, registration, encoded);
  }

  /** The round trip. Adding the registration to a nonempty configuration
      that lacks it, and removing it again together with the property if the
      addition created that, gives the authored bytes back, comments and
      trailing commas included. */
  lemma RemovingUndoesAdding(lib: Library, data: string, registration: string, encoded: string)
    requires data != "" && lib.decode(NAME_TOKEN) == Some(NAME)
    requires IsToken(encoded) && lib.decode(encoded) == Some(registration)
    requires var e := EditOf(lib, data, registration, encoded, true, false); e.Edited? && !e.present
    ensures var added := EditOf(lib, data, registration, encoded, true, false);
      var back := EditOf(lib, added.bytes, registration, encoded, false, true);
      && back.Edited? && back.present
      && (if added.created then RemoveEmptyOf(lib, back.bytes) == Edited(data, true, false) else back.bytes == data)
  {
    hide Find, RemoveEmptyOf, ItemAt, Widen, Splice, Closes;
    var n := Parse(lib, data).value;
    match Find(lib, n)
    case None => CreatedIsRemoved(lib, data, n, registration, encoded);
    case Some(p) => InsertedIsRemoved(lib, data, n, p, registration, encoded);
  }
}
