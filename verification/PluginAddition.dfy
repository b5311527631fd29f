/** Adding a registration leaves everything else alone (cmd/kata/agent_hooks_plugins.go). */
module PluginAddition {
  import opened Jsonc
  import JsoncComments
  import opened JsonMachine
  import opened Options
  import opened PluginConfig
  import opened PluginCuts
  import opened PluginEdits
  import opened PluginItems
  import opened PluginRemoval
  import opened PluginRoundTrip
  import opened PropertyRemoval

  // ---------------------------------------------------------------------
  // Reading what was added
  // ---------------------------------------------------------------------

  lemma Fed(r: Reading, c: char, t: string)
    ensures Reads(r, [c] + t) == Reads(Feed(r, c), t)
  {
    One(c, t);
  }

  lemma {:induction false} InsideReads(r: Reading, body: string, l: Mode)
    requires Inside(body, l) && r.mode == l && !r.closed
    ensures Reads(r, body) == r.(last := r.last + body, mode := Code)
    decreases |body|
  {
    var next := Feed(r, body[0]);
    assert next == r.(last := r.last + [body[0]], mode := Lexed(l, body[0]));
    if |body| == 1 {
      assert body[1..] == "" && r.last + [body[0]] == r.last + body;
    } else {
      InsideReads(next, body[1..], Lexed(l, body[0]));
      assert r.last + [body[0]] + body[1..] == r.last + body;
    }
  }

  lemma TokenReads(r: Reading, token: string)
    requires IsToken(token) && r.mode == Code && !r.closed
    ensures Reads(r, token) == r.(last := r.last + token)
  {
    hide Inside;
    assert token == ['"'] + token[1..];
    Fed(r, '"', token[1..]);
    assert r.last + ['"'] + token[1..] == r.last + token;
    InsideReads(r.(last := r.last + ['"'], mode := Quoted), token[1..], Quoted);
  }

  /** A new part in front of what there was. */
  lemma NewFirstPart(core: string, x: string)
    requires core != "" && Reads(NOTHING, core) == NOTHING.(last := core)
    ensures PartsOf(core + (Separator(!Closes(x)) + x)) == [core] + PartsOf(x)
  {
    hide Reads, Closes;
    var r, sep := NOTHING.(last := core), Separator(!Closes(x));
    ReadsParts(NOTHING, core, sep + x);
    if Closes(x) {
      assert sep + x == x;
      ClosesReads(r, x);
      ClosesReads(NOTHING, x);
    } else {
      assert sep == [','];
      Fed(r, ',', x);
      AllBehind(Feed(r, ','), x);
      assert Feed(r, ',').parts == [core];
    }
  }

  // ---------------------------------------------------------------------
  // A new item
  // ---------------------------------------------------------------------

  /** The array with the new item ends where it did. */
  lemma NewItemEnds(lib: Library, below: Stack, token: string, x: string)
    requires IsToken(token) && lib.decode(token).Some?
    requires Accepts(lib, Run(lib, Want(Push(InArray, below), FirstItem), x))
    ensures var s := Want(Push(InArray, below), FirstItem);
      ValueEnd(lib, s, token + (Separator(!Closes(x)) + x), below) == ValueEnd(lib, s, x, below)
  {
    hide Closes, Run, Accepts;
    var j := Push(InArray, below);
    Taller(below);
    TokenEnds(lib, j, token, Separator(!Closes(x)) + x, below);
    if Closes(x) {
      assert Separator(false) + x == x;
      ClosingEndsAlike(lib, j, x, below);
    } else {
      assert Separator(true) == [','];
      CommaEnds(lib, j, x, below);
      ItemAlike(lib, j, x);
      FirstEndsAlike(lib, j, x, below);
    }
  }

  lemma CommaEnds(lib: Library, j: Stack, x: string, below: Stack)
    requires j.Push? && j.top.InArray? && j != below
    ensures ValueEnd(lib, Want(j, After), [','] + x, below) == ValueEnd(lib, Want(j, Value), x, below)
  {
    One(',', x);
  }

  /** The configuration now reads as `n'`, in which the property begins and
      ends as before and has one more item, in front of the others. */
  ghost predicate ItemAdded(lib: Library, data: string, n: string, p: Property, bytes: string, encoded: string,
      n': string)
    requires IsArray(p) && Fits(p, |n|)
  {
    && |n| == |data| && ValueStart(p, |n|) < |data|
    && var at := ValueStart(p, |n|) + 1;
      && (bytes == data[..at] + encoded + data[at..] || bytes == data[..at] + (encoded + ",") + data[at..])
      && Parse(lib, bytes) == Some(n') && Find(lib, n').Some?
      && var p' := Find(lib, n').value;
        && IsArray(p') && ItemsIn(p') == [encoded] + ItemsIn(p)
        && Start(p', |n'|) == Start(p, |n|) && ValueStart(p', |n'|) == ValueStart(p, |n|) && p'.end.rest == p.end.rest
  }

  lemma EncodedReads(encoded: string)
    requires IsToken(encoded)
    ensures encoded != "" && Reads(NOTHING, encoded) == NOTHING.(last := encoded)
  {
    hide Inside;
    TokenReads(NOTHING, encoded);
    assert "" + encoded == encoded;
  }

  lemma ItemIsAdded(lib: Library, data: string, n: string, p: Property, registration: string, encoded: string,
      c: Cutting)
    returns (n': string)
    requires data != "" && Parse(lib, data) == Some(n) && Find(lib, n) == Some(p) && IsArray(p)
    requires IsToken(encoded) && lib.decode(encoded) == Some(registration)
    requires IsCutting(lib, n, c) && p == WithArray(lib, c, c.x)
    requires var e := EditOf(lib, data, registration, encoded, true, false); e.Edited? && !e.present
    ensures var e := EditOf(lib, data, registration, encoded, true, false);
      !e.created && ItemAdded(lib, data, n, p, e.bytes, encoded, n')
  {
    hide Find, KeyAt, ValueAt, ValueEnd, ItemAt, EditOf, Splice, Closes, Run, Accepts, Parse, Normal, AfterBrace,
      Inside, PartsOf, IsCutting, Around, AllWhite, ItemsIn, Start, End, UpToArray, Container, Linked, IsToken;
    ParseIsNormal(lib, data, n);
    EditInserts(lib, data, n, p, registration, encoded);
    ArrayOpens(lib, n, c);
    ItemsOfArray(lib, n, c);
    var before, sep := c.a + (['{'] + c.w), Separator(!Closes(c.x));
    AtBracket(c, c.x);
    CuttingRuns(lib, n, c);
    var q, s := AuthoredAround(lib, data, before, '[', c.x);
    assert |q| == |before| by { AroundSize(q, '[', s, before, c.x); }
    ArrayFits(lib, n, p, c);
    SpliceIn(q, '[', s, encoded, sep);
    NewItemParses(lib, Inserted(q, '[', encoded, sep, s), q, s, c, n, encoded);
    var x := WithItem(c, encoded);
    n' := before + (['['] + x);
    ContainerIsItsRun(lib, n, c);
    NewItemEnds(lib, c.k, encoded, c.x);
    AtBracket(c, x);
    ArrayPlaces(lib, n, c, x);
    EncodedReads(encoded);
    NewFirstPart(encoded, c.x);
    AddedBytes(data, |q| + 1, encoded, sep);
  }

  lemma AtBracket(c: Cutting, x: string)
    ensures UpToArray(c) + x == c.a + (['{'] + c.w) + (['['] + x)
  {
  }

  lemma CuttingRuns(lib: Library, n: string, c: Cutting)
    requires IsCutting(lib, n, c)
    ensures Run(lib, START, c.a + (['{'] + c.w)).Want?
  {
    hide Run, KeyAt, ValueAt, Accepts, AllWhite;
  }

  lemma ContainerIsItsRun(lib: Library, n: string, c: Cutting)
    requires IsCutting(lib, n, c)
    ensures Accepts(lib, Run(lib, Want(Push(InArray, c.k), FirstItem), c.x))
  {
    hide Run, KeyAt, ValueAt, Accepts, AllWhite;
  }

  lemma AroundSize(q: string, c: char, s: string, before: string, after: string)
    requires Around(q, c, s, before, after)
    ensures |q| == |before|
  {
    hide Normal, LexRun;
  }

  lemma AddedBytes(data: string, at: nat, encoded: string, sep: string)
    requires at <= |data| && (sep == "" || sep == ",")
    ensures var bytes := Splice(data, at, at, encoded + sep);
      bytes == data[..at] + encoded + data[at..] || bytes == data[..at] + (encoded + ",") + data[at..]
  {
    if sep == "" {
      assert encoded + sep == encoded;
    }
  }

  /** Adding to a configuration that has the property, whoever wrote it: only
      an array is accepted; if an item stands for the registration nothing
      changes, and otherwise one is added and nothing else changes. */
  lemma AdditionIsExact(lib: Library, data: string, n: string, p: Property, registration: string, encoded: string)
    returns (n': string)
    requires data != "" && Parse(lib, data) == Some(n) && Find(lib, n) == Some(p)
    requires IsToken(encoded) && lib.decode(encoded) == Some(registration) && PlainScalars(lib)
    ensures var e := EditOf(lib, data, registration, encoded, true, false);
      && (e.Edited? <==> IsArray(p))
      && (e.Edited? ==> !e.created && (e.present <==> !Without(lib, ItemsIn(p), registration)))
      && (e.Edited? && e.present ==> e.bytes == data)
      && (e.Edited? && !e.present ==> ItemAdded(lib, data, n, p, e.bytes, encoded, n'))
  {
    hide Run, Reads, ValueEnd, Accepts, Normal, Parse, Find, PartsOf, AfterBrace, IsCutting, ItemAt, ItemAdded, KeyAt,
      ValueAt, Searching, Valid, Without, Inside, Closes, ItemGone;
    n' := n;
    if IsArray(p) {
      ParseIsNormal(lib, data, n);
      var c := CutsAtArray(lib, n, p);
      FindIsArray(lib, n, p, c);
      ItemsOfArray(lib, n, c);
      var cut, i := RemovalIsExact(lib, data, n, p, registration, encoded);
      AddsOrKeeps(lib, data, n, p, registration, encoded);
      if !EditOf(lib, data, registration, encoded, true, false).present {
        n' := ItemIsAdded(lib, data, n, p, registration, encoded, c);
      }
    } else {
      OnlyArrays(lib, data, n, p, registration, encoded);
    }
  }

  /** Adding and removing agree on whether the registration is there. */
  lemma AddsOrKeeps(lib: Library, data: string, n: string, p: Property, registration: string, encoded: string)
    requires data != "" && Parse(lib, data) == Some(n) && Find(lib, n) == Some(p) && IsArray(p)
    ensures var a := EditOf(lib, data, registration, encoded, true, false);
      var r := EditOf(lib, data, registration, encoded, false, true);
      a.Edited? && r.Edited? && a.present == r.present && !a.created && (a.present ==> a.bytes == data)
  {
    hide Find, ItemAt, Parse, Widen, Splice, AfterBrace;
  }

  lemma OnlyArrays(lib: Library, data: string, n: string, p: Property, registration: string, encoded: string)
    requires data != "" && Parse(lib, data) == Some(n) && Find(lib, n) == Some(p) && !IsArray(p)
    ensures EditOf(lib, data, registration, encoded, true, false) == Refused
  {
    hide Find, Parse, AfterBrace;
  }

  // ---------------------------------------------------------------------
  // A new property
  // ---------------------------------------------------------------------

  lemma ByteReads(r: Reading, c: char)
    ensures Reads(r, [c]) == Feed(r, c)
  {
    assert [c][1..] == "";
  }

  lemma CoreParts(items: string)
    ensures Core(items) == NAME_TOKEN + ([':'] + (['['] + (items + [']'])))
  {
  }

  /** The new property is one member. */
  lemma CoreReads(encoded: string)
    requires IsToken(encoded)
    ensures Core(encoded) != "" && Reads(NOTHING, Core(encoded)) == NOTHING.(last := Core(encoded))
  {
    hide Inside, Reads, IsToken;
    NameIsToken();
    CoreParts(encoded);
    var inner := encoded + [']'];
    ReadsParts(NOTHING, NAME_TOKEN, [':'] + (['['] + inner));
    TokenReads(NOTHING, NAME_TOKEN);
    var r := NOTHING.(last := "" + NAME_TOKEN);
    Fed(r, ':', ['['] + inner);
    var r1 := r.(last := r.last + [':']);
    Fed(r1, '[', inner);
    var r2 := r1.(last := r1.last + ['['], depth := 1);
    ReadsParts(r2, encoded, [']']);
    TokenReads(r2, encoded);
    ByteReads(r2.(last := r2.last + encoded), ']');
    assert "" + NAME_TOKEN + [':'] + ['['] + encoded + [']'] == Core(encoded);
  }

  lemma NewArrayItems(encoded: string, tail: string)
    requires IsToken(encoded)
    ensures IsArray(NewProperty(encoded, tail)) && ItemsIn(NewProperty(encoded, tail)) == [encoded]
  {
    hide Inside, Reads, IsToken;
    One('[', encoded + ([']'] + tail));
    EncodedReads(encoded);
    ReadsParts(NOTHING, encoded, [']'] + tail);
    One(']', tail);
    ClosesReads(NOTHING.(last := encoded), [']'] + tail);
  }

  /** Adding to a configuration without the property: it becomes the first
      member, with this one item, and all other members stay. */
  lemma CreationIsExact(lib: Library, data: string, n: string, registration: string, encoded: string)
    returns (n': string, p': Property)
    requires data != "" && Parse(lib, data) == Some(n) && Find(lib, n) == None && lib.decode(NAME_TOKEN) == Some(NAME)
    requires IsToken(encoded) && lib.decode(encoded) == Some(registration)
    ensures var e := EditOf(lib, data, registration, encoded, true, false);
      && e.Edited? && e.created && !e.present
      && Parse(lib, e.bytes) == Some(n') && Find(lib, n') == Some(p') && IsArray(p') && ItemsIn(p') == [encoded]
      && Members(n') == [Core(encoded)] + Members(n)
  {
    hide Find, KeyAt, AfterBrace, Parse, EditOf, Splice, Closes, Core, Around, Reads, Inside, PartsOf, Run, Accepts,
      AllWhite, IsToken;
    var q, s, a, body := SplitsAtBrace(lib, data, n);
    var sep := Separator(!Closes(body));
    EditCreates(lib, data, n, registration, encoded, body);
    PlainInsertion(encoded, sep);
    assert |n| - |body| == |q| + 1;
    SpliceIn(q, '{', s, Core(encoded), sep);
    TokenIsItem(lib, encoded);
    NewPropertyParses(lib, q, s, a, body, encoded);
    n', p' := Inserted(a, '{', Core(encoded), sep, body), NewProperty(encoded, sep + body);
    LackingDecodes(lib, q, s, a, body);
    NewPropertyFound(lib, n', encoded, sep + body);
    NewArrayItems(encoded, sep + body);
    CoreReads(encoded);
    NewFirstPart(Core(encoded), body);
  }

  lemma TokenIsItem(lib: Library, encoded: string)
    requires IsToken(encoded) && lib.decode(encoded).Some?
    ensures PluginEdits.Items(lib, encoded)
  {
  }

  lemma LackingDecodes(lib: Library, q: string, s: string, a: string, body: string)
    requires Lacking(lib, q, s, a, body)
    ensures lib.decode(NAME_TOKEN) == Some(NAME)
  {
  }

  lemma NewFileText()
    ensures "{}\n" == ['{'] + (['}'] + ['\n'])
  {
  }

  lemma NewFileParses(lib: Library)
    requires PlainScalars(lib)
    ensures Parse(lib, "{}\n") == Some("{}\n") && AfterBrace("{}\n") == Some("}\n") && Find(lib, "{}\n") == None
    ensures Members("{}\n") == []
  {
    hide Normal, PartsOf;
    NewFileText();
    var body := ['}'] + ['\n'];
    assert body == "}\n" && ['\n'][1..] == "";
    One('{', body);
    One('}', ['\n']);
    JsoncComments.PlainJsonStays(lib, "{}\n");
    ClosesReads(NOTHING, body);
    assert PartsOf(body) == All(Reads(NOTHING, body)) by { PartsAre(body); }
  }

  lemma PartsAre(t: string)
    ensures PartsOf(t) == All(Reads(NOTHING, t))
  {
  }

  /** Adding to an empty file makes an object of the property alone. */
  lemma NewFileIsCreated(lib: Library, registration: string, encoded: string) returns (n': string, p': Property)
    requires PlainScalars(lib) && lib.decode(NAME_TOKEN) == Some(NAME)
    requires IsToken(encoded) && lib.decode(encoded) == Some(registration)
    ensures var e := EditOf(lib, "", registration, encoded, true, false);
      && e == Edited("{" + Core(encoded) + "}\n", false, true)
      && Parse(lib, e.bytes) == Some(n') && Find(lib, n') == Some(p') && IsArray(p') && ItemsIn(p') == [encoded]
      && Members(n') == [Core(encoded)]
  {
    hide Parse, Find, AfterBrace, PartsOf, Core, IsToken, Members, ItemsIn;
    NewFileParses(lib);
    n', p' := CreationIsExact(lib, "{}\n", "{}\n", registration, encoded);
    EmptyIsNew(lib, registration, encoded);
    NewFileBytes(lib, registration, encoded);
    assert [Core(encoded)] + [] == [Core(encoded)];
  }

  lemma EmptyIsNew(lib: Library, registration: string, encoded: string)
    ensures EditOf(lib, "", registration, encoded, true, false)
      == EditOf(lib, "{}\n", registration, encoded, true, false)
  {
    hide Parse, Find, AfterBrace, Splice;
  }

  lemma NewFileBytes(lib: Library, registration: string, encoded: string)
    requires Parse(lib, "{}\n") == Some("{}\n") && AfterBrace("{}\n") == Some("}\n") && Find(lib, "{}\n") == None
    ensures EditOf(lib, "{}\n", registration, encoded, true, false) == Edited("{" + Core(encoded) + "}\n", false, true)
  {
    hide Parse, Find, AfterBrace;
    PlainInsertion(encoded, "");
    assert Closes("}\n");
    assert Core(encoded) + "" == Core(encoded);
    assert "{}\n"[..1] == "{" && "{}\n"[1..] == "}\n";
  }
}
