/** Removing a registration leaves everything else alone (cmd/kata/agent_hooks_plugins.go). */
module PluginRemoval {
  import opened Jsonc
  import opened JsonMachine
  import opened Options
  import opened PluginConfig
  import opened PluginCuts
  import opened PluginEdits
  import opened PluginItems
  import opened PluginRoundTrip

  // ---------------------------------------------------------------------
  // Where the array ends
  // ---------------------------------------------------------------------

  /** The end of a container is not found before it is closed. */
  lemma {:induction false} EndOver(lib: Library, s: State, r: Reading, below: Stack, list: bool, u: string, t: string)
    requires Linked(s, r, below, list) && Run(lib, s, u) != Fail && !Reads(r, u).closed
    ensures ValueEnd(lib, s, u + t, below) == ValueEnd(lib, Run(lib, s, u), t, below)
    decreases |u|
  {
    hide Linked, Step, Feed;
    if u == "" {
      assert u + t == t;
    } else {
      PluginEdits.Dropped(u, t);
      NotAtEnd(s, r, below, list);
      if Step(lib, s, u[0]) == Fail {
        FailStays(lib, u[1..]);
      }
      if Feed(r, u[0]).closed {
        ClosedStays(Feed(r, u[0]), u[1..]);
      }
      LinkedStep(lib, s, r, below, list, u[0]);
      EndOver(lib, Step(lib, s, u[0]), Feed(r, u[0]), below, list, u[1..], t);
    }
  }

  lemma NotAtEnd(s: State, r: Reading, below: Stack, list: bool)
    requires Linked(s, r, below, list)
    ensures s != Want(below, After) && !(s.Bare? && s.k == below)
  {
    RestsAbove(s.k, r.depth, below, list);
  }

  lemma EndedEndsAlike(lib: Library, s: State, j: Stack, t: string, below: Stack)
    requires Ended(lib, s, j) && Terminated(s, t) && j != below
    ensures ValueEnd(lib, s, t, below) == ValueEnd(lib, Want(j, After), t, below)
  {
  }

  lemma {:induction false} FirstEndsAlike(lib: Library, j: Stack, z: string, below: Stack)
    requires j.Push? && j != below && Accepts(lib, Run(lib, Want(j, Value), z))
    ensures ValueEnd(lib, Want(j, FirstItem), z, below) == ValueEnd(lib, Want(j, Value), z, below)
    decreases |z|
  {
    if z != "" {
      if White(z[0]) {
        FirstEndsAlike(lib, j, z[1..], below);
      } else if z[0] == ']' {
        FailStays(lib, z[1..]);
      }
    }
  }

  lemma {:induction false} ClosingEndsAlike(lib: Library, j: Stack, z: string, below: Stack)
    requires j.Push? && j.top.InArray? && j != below && Closes(z)
    ensures ValueEnd(lib, Want(j, FirstItem), z, below) == ValueEnd(lib, Want(j, After), z, below)
    decreases |z|
  {
    if White(z[0]) {
      ClosingEndsAlike(lib, j, z[1..], below);
    }
  }

  lemma {:induction false} CommaEndsAlike(lib: Library, j: Stack, t: string, below: Stack)
    requires j.Push? && j.top.InArray? && j != below && Skip(t) < |t| && t[Skip(t)] == ','
    ensures ValueEnd(lib, Want(j, After), t, below) == ValueEnd(lib, Want(j, Value), BehindComma(t), below)
    decreases |t|
  {
    if White(t[0]) {
      CommaEndsAlike(lib, j, t[1..], below);
    }
  }

  /** The array ends behind what follows its last item. */
  lemma {:induction false} EndIsBehind(lib: Library, j: Stack, t: string, below: Stack)
    requires j != below && Skip(t) < |t|
    ensures |ValueEnd(lib, Want(j, After), t, below).rest| < |t| - Skip(t)
    decreases |t|
  {
    if White(t[0]) {
      EndIsBehind(lib, j, t[1..], below);
    }
  }

  // ---------------------------------------------------------------------
  // One item of the array
  // ---------------------------------------------------------------------

  /** An item of an array that opens on `below`: the text in front of it in
      the array, the item, and the text behind. */
  datatype Item = Item(u: string, token: string, t: string)

  ghost predicate IsItem(lib: Library, below: Stack, x: string, item: Item, value: string) {
    var j := Push(InArray, below);
    && x == item.u + item.token + item.t
    && Part(lib, Want(j, FirstItem), item.u, item.token, item.t, item.token, j)
    && Before(Run(lib, Want(j, FirstItem), item.u), false) && Run(lib, Want(j, FirstItem), item.u).k == j
    && Run(lib, Want(j, FirstItem), item.u + item.token) == Want(j, After)
    && Stands(lib, item.token, value) && Without(lib, Reads(NOTHING, item.u).parts, value)
  }

  lemma ArrayBegins(below: Stack, value: string, lib: Library)
    ensures Fresh(Want(Push(InArray, below), FirstItem))
    ensures Searching(lib, Want(Push(InArray, below), FirstItem), NOTHING, below, value)
  {
  }

  lemma SearchingIsLinked(lib: Library, s: State, r: Reading, below: Stack, value: string)
    requires Searching(lib, s, r, below, value)
    ensures Linked(s, r, below, true) && Without(lib, r.parts, value) && !r.closed
  {
  }

  lemma FrontIsOpen(r: Reading, u: string, raw: string)
    requires !Reads(r, u + raw).closed
    ensures !Reads(r, u).closed && Reads(r, u + raw) == Reads(Reads(r, u), raw)
  {
    ReadsParts(r, u, raw);
    if Reads(r, u).closed {
      ClosedStays(Reads(r, u), raw);
    }
  }

  lemma BetweenItems(s: State, r: Reading, below: Stack)
    requires Linked(s, r, below, true) && s.Want? && s.k == Push(InArray, below)
    requires s.need == Value || s.need == FirstItem
    ensures Fresh(s) && Between(r)
  {
    RestsAbove(s.k, r.depth, below, true);
  }

  lemma TokenCloses(lib: Library, j: Stack, r: Reading, raw: string, q: Reading)
    requires Between(r) && q == r.(last := r.last + raw, mode := Quoted) && lib.decode(raw + ['"']).Some?
    ensures Run(lib, Quote(j, false, raw, false), ['"']) == Want(j, After)
    ensures Reads(q, ['"']) == r.(last := raw + ['"'])
  {
    assert ['"'][1..] == "" && "" + raw == raw;
  }

  /** The search finds the first item that stands for the registration. */
  lemma FoundItem(lib: Library, below: Stack, x: string, value: string) returns (item: Item)
    requires var j := Push(InArray, below); ItemAt(lib, Want(j, FirstItem), x, below, value).Some?
    ensures IsItem(lib, below, x, item, value)
    ensures var j := Push(InArray, below);
      ItemAt(lib, Want(j, FirstItem), x, below, value) == Some(Cut(|item.token|, Want(j, After), item.t))
  {
    hide Run, Reads, Searching, Linked, ItemAt, Without;
    var j := Push(InArray, below);
    var s := Want(j, FirstItem);
    ArrayBegins(below, value, lib);
    var u1, raw := ItemWalk(lib, s, NOTHING, x, below, value);
    SearchingIsLinked(lib, Run(lib, s, u1), Reads(NOTHING, u1), below, value);
    SearchingIsLinked(lib, s, NOTHING, below, value);
    var u := TokenBegins(lib, s, u1, NOTHING);
    FrontIsOpen(NOTHING, u, raw);
    LinkedRun(lib, s, NOTHING, below, true, u);
    BetweenItems(Run(lib, s, u), Reads(NOTHING, u), below);
    TokenCloses(lib, j, Reads(NOTHING, u), raw, Reads(NOTHING, u1));
    ReadsParts(Reads(NOTHING, u), raw, ['"']);
    RunParts(lib, s, u1, ['"']);
    assert u + (raw + ['"']) == u1 + ['"'];
    item := Item(u, raw + ['"'], ItemAt(lib, s, x, below, value).value.rest);
  }

  // ---------------------------------------------------------------------
  // The array without the item
  // ---------------------------------------------------------------------

  lemma Taller(below: Stack)
    ensures Push(InArray, below) != below
  {
    assert Height(Push(InArray, below)) == Height(below) + 1;
  }

  lemma ClosingTerminates(s: State, t: string)
    requires Closes(t)
    ensures Terminated(s, t)
  {
  }

  lemma PrefixIsOpen(lib: Library, s: State, r: Reading, front: string, u: string)
    requires front <= u && !Reads(r, u).closed && Run(lib, s, u) != Fail
    ensures !Reads(r, front).closed && Run(lib, s, front) != Fail
  {
    hide Run, Reads;
    assert u == front + u[|front|..];
    FrontIsOpen(r, front, u[|front|..]);
    RunParts(lib, s, front, u[|front|..]);
    FailStays(lib, u[|front|..]);
  }

  /** The end of the array, from behind an item on. */
  lemma EndBehindItem(lib: Library, below: Stack, x: string, item: Item, value: string)
    requires IsItem(lib, below, x, item, value)
    ensures var j := Push(InArray, below);
      ValueEnd(lib, Want(j, FirstItem), x, below) == ValueEnd(lib, Want(j, After), item.t, below)
  {
    hide Run, Reads, ValueEnd, Without;
    var s := Want(Push(InArray, below), FirstItem);
    ReadsParts(NOTHING, item.u, item.token);
    EndOver(lib, s, NOTHING, below, true, item.u + item.token, item.t);
  }

  /** Without the item the array is read to the same end, and the rest of
      the configuration as before. */
  lemma ArrayGoesOn(lib: Library, below: Stack, x: string, item: Item, value: string, ex: Excision)
    requires IsItem(lib, below, x, item, value) && GoesOn(lib, Want(Push(InArray, below), FirstItem), item.u, item.t,
      Push(InArray, below), ex)
    ensures var s := Want(Push(InArray, below), FirstItem);
      && Accepts(lib, Run(lib, s, ex.front + ex.rest))
      && ValueEnd(lib, s, ex.front + ex.rest, below) == ValueEnd(lib, s, x, below)
  {
    hide Run, Reads, ValueEnd, Without, Accepts, Closes, Skip;
    var j := Push(InArray, below);
    var s := Want(j, FirstItem);
    Taller(below);
    EndBehindItem(lib, below, x, item, value);
    PrefixIsOpen(lib, s, NOTHING, ex.front, item.u);
    EndOver(lib, s, NOTHING, below, true, ex.front, ex.rest);
    RunParts(lib, s, ex.front, ex.rest);
    var f := Run(lib, s, ex.front);
    if Skip(item.t) < |item.t| && item.t[Skip(item.t)] == ',' {
      CommaEndsAlike(lib, j, item.t, below);
      FirstAlike(lib, j, ex.rest);
      FirstEndsAlike(lib, j, ex.rest, below);
    } else if Ended(lib, f, j) {
      ClosingTerminates(f, ex.rest);
      EndedAlike(lib, f, j, ex.rest);
      EndedEndsAlike(lib, f, j, ex.rest, below);
    } else {
      ClosingAlike(lib, j, j, ex.rest);
      ClosingEndsAlike(lib, j, ex.rest, below);
    }
  }

  function UpToArray(c: Cutting): string {
    c.a + (['{'] + c.w) + ['[']
  }

  lemma ArrayOpens(lib: Library, n: string, c: Cutting)
    requires IsCutting(lib, n, c)
    ensures n == UpToArray(c) + c.x && |UpToArray(c)| == |c.a| + |c.w| + 2
    ensures Container(lib, UpToArray(c), c.x, Want(Push(InArray, c.k), FirstItem), c.k, true)
  {
    hide KeyAt, ValueAt, Accepts, AllWhite;
    RunParts(lib, START, c.a + (['{'] + c.w), ['[']);
    assert ['['][1..] == "";
  }

  lemma Reopened(c: Cutting, x: string)
    ensures UpToArray(c) + x == c.a + (['{'] + (c.w + (['['] + x)))
  {
  }

  lemma ValueEndsAs(lib: Library, k: Stack, x: string)
    ensures ValueEnd(lib, Want(k, Value), ['['] + x, k) == ValueEnd(lib, Want(Push(InArray, k), FirstItem), x, k)
  {
    One('[', x);
  }

  /** The configuration parses without the item, and its property is where it was. */
  lemma ArrayParses(lib: Library, d: string, n: string, c: Cutting, x: string)
    requires IsCutting(lib, n, c) && Normal(d) == Some(UpToArray(c) + x)
    requires Accepts(lib, Run(lib, Want(Push(InArray, c.k), FirstItem), x))
    ensures Parse(lib, d) == Some(UpToArray(c) + x) && Find(lib, UpToArray(c) + x) == Some(WithArray(lib, c, x))
  {
    hide Run, Accepts, Find, AfterBrace, Normal, KeyAt, ValueAt, WithArray;
    Reopened(c, x);
    ArrayIsFound(lib, c, n, x);
    ArrayOpens(lib, n, c);
    RunParts(lib, START, UpToArray(c), x);
  }

  // ---------------------------------------------------------------------
  // The law of removal
  // ---------------------------------------------------------------------

  /** The items of the property's array. */
  function ItemsIn(p: Property): seq<string>
    requires p.value.rest != ""
  {
    PartsOf(p.value.rest[1..])
  }

  predicate IsArray(p: Property) {
    p.value.rest != "" && p.value.rest[0] == '['
  }

  /** What was cut out of `data`, which reads as `n`, is the `i`th item, blanks
      and a comma at most. What is left has the other items in the same
      property between the same texts. */
  ghost predicate ItemGone(lib: Library, data: string, n: string, p: Property, bytes: string, cut: Range, i: nat)
    requires IsArray(p) && Fits(p, |n|)
  {
    && |n| == |data| && ValueStart(p, |n|) < cut.start < cut.end <= End(p, |n|) && i < |ItemsIn(p)|
    && bytes == data[..cut.start] + data[cut.end..] && OneComma(n[cut.start..cut.end], ItemsIn(p)[i])
    && var n' := n[..cut.start] + n[cut.end..];
      && Parse(lib, bytes) == Some(n') && Find(lib, n').Some?
      && var p' := Find(lib, n').value;
        && IsArray(p') && ItemsIn(p') == ItemsIn(p)[..i] + ItemsIn(p)[i + 1..]
        && Start(p', |n'|) == Start(p, |n|) && ValueStart(p', |n'|) == ValueStart(p, |n|) && p'.end.rest == p.end.rest
  }

  /** The item is where the removal looks for it. */
  lemma ItemWidth(lib: Library, n: string, p: Property, c: Cutting, item: Item, value: string)
    requires IsCutting(lib, n, c) && p == WithArray(lib, c, c.x) && IsItem(lib, c.k, c.x, item, value)
    ensures Fits(p, |n|) && ValueStart(p, |n|) == |UpToArray(c)| - 1
    ensures |UpToArray(c)| + |item.u| + |item.token| + Skip(item.t) < End(p, |n|) <= |n|
  {
    hide Run, Reads, ValueEnd, Without, Accepts, Skip, Fits, KeyAt, ValueAt, AllWhite;
    var j := Push(InArray, c.k);
    var s := Want(j, FirstItem);
    ArrayOpens(lib, n, c);
    ValueEndsAs(lib, c.k, c.x);
    EndBehindItem(lib, c.k, c.x, item, value);
    ItemFollowed(lib, c.k, c.x, item, value);
    Taller(c.k);
    EndIsBehind(lib, j, item.t, c.k);
    ArrayFits(lib, n, p, c);
    assert |c.x| == |item.u| + |item.token| + |item.t|;
  }

  lemma ItemFollowed(lib: Library, below: Stack, x: string, item: Item, value: string)
    requires IsItem(lib, below, x, item, value) && Accepts(lib, Run(lib, Want(Push(InArray, below), FirstItem), x))
    ensures Skip(item.t) < |item.t|
  {
    hide Run, Reads, Without, Accepts, Skip;
    PartAccepted(lib, Want(Push(InArray, below), FirstItem), item.u, item.token, item.t, item.token,
      Push(InArray, below));
  }

  lemma ArrayFits(lib: Library, n: string, p: Property, c: Cutting)
    requires IsCutting(lib, n, c) && p == WithArray(lib, c, c.x)
    ensures Fits(p, |n|) && ValueStart(p, |n|) == |n| - |c.x| - 1
  {
    hide Run, Accepts, ValueEnd, ValueAt, KeyAt;
    ArrayIsFound(lib, c, n, c.x);
  }

  lemma OneItem(before: seq<string>, m: string, behind: seq<string>, items: seq<string>)
    requires items == before + [m] + behind
    ensures |before| < |items| && items[|before|] == m && items[..|before|] == before
    ensures items[..|before|] + items[|before| + 1..] == before + behind
  {
  }

  lemma CutSlice(pre: string, front: string, gone: string, z: string)
    ensures var n := pre + (front + (gone + z)); var s, e := |pre| + |front|, |pre| + |front| + |gone|;
      |n| == e + |z| && n[..s] == pre + front && n[s..e] == gone && n[e..] == z
  {
  }

  lemma SomethingGoes(gone: string, core: string)
    requires OneComma(gone, core) && core != ""
    ensures gone != ""
  {
  }

  /** Cutting the excision out is removing the item. */
  lemma ExcisionIsGone(lib: Library, data: string, n: string, p: Property, c: Cutting, item: Item, value: string,
      ex: Excision, behind: seq<string>, cut: Range)
    requires IsCutting(lib, n, c) && p == WithArray(lib, c, c.x) && IsItem(lib, c.k, c.x, item, value)
    requires Normal(data) == Some(n) && |n| == |data| && Fits(p, |n|) && ValueStart(p, |n|) == |UpToArray(c)| - 1
    requires Taken(data, UpToArray(c), c.x, item.token, item.token, Reads(NOTHING, item.u).parts, behind, ex)
    requires GoesOn(lib, Want(Push(InArray, c.k), FirstItem), item.u, item.t, Push(InArray, c.k), ex)
    requires cut == Range(|UpToArray(c)| + |ex.front|, |UpToArray(c)| + |ex.front| + |ex.gone|)
    requires cut.end <= End(p, |n|)
    ensures ItemGone(lib, data, n, p, data[..cut.start] + data[cut.end..], cut, |Reads(NOTHING, item.u).parts|)
  {
    hide Run, Reads, ValueEnd, Without, Accepts, Skip, Normal, Parse, Find, PartsOf, AfterBrace, IsCutting, Part,
      WithArray, UpToArray, GoesOn, OneComma, ItemsIn, Start, ValueStart, End, Container, Linked;
    var pre, x, before := UpToArray(c), ex.front + ex.rest, Reads(NOTHING, item.u).parts;
    ArrayGoesOn(lib, c.k, c.x, item, value, ex);
    ArrayOpens(lib, n, c);
    assert pre + ex.front + ex.rest == pre + x;
    ArrayParses(lib, data[..cut.start] + data[cut.end..], n, c, x);
    CutSlice(pre, ex.front, ex.gone, ex.rest);
    SomethingGoes(ex.gone, item.token);
    ArrayPlaces(lib, n, c, x);
    OneItem(before, item.token, behind, ItemsIn(p));
  }

  /** The property with other items begins where it was, and ends in front of
      the same text. */
  lemma ArrayPlaces(lib: Library, n: string, c: Cutting, x: string)
    requires IsCutting(lib, n, c)
    requires var s := Want(Push(InArray, c.k), FirstItem); ValueEnd(lib, s, x, c.k) == ValueEnd(lib, s, c.x, c.k)
    ensures var p, p', n' := WithArray(lib, c, c.x), WithArray(lib, c, x), UpToArray(c) + x;
      && Fits(p, |n|) && Fits(p', |n'|) && Start(p', |n'|) == Start(p, |n|)
      && ValueStart(p', |n'|) == ValueStart(p, |n|) && p'.end.rest == p.end.rest
      && IsArray(p') && ItemsIn(p') == PartsOf(x) && IsArray(p) && ItemsIn(p) == PartsOf(c.x)
  {
    hide Run, ValueEnd, Accepts, PartsOf, KeyAt, ValueAt, AllWhite, AfterBrace;
    Reopened(c, x);
    ArrayIsFound(lib, c, n, x);
    ArrayIsFound(lib, c, n, c.x);
    ArrayOpens(lib, n, c);
    ValueEndsAs(lib, c.k, x);
    ValueEndsAs(lib, c.k, c.x);
    assert (['['] + x)[1..] == x && (['['] + c.x)[1..] == c.x;
  }

  lemma CutEnds(lib: Library, s: State, x: string, item: Item, k: Stack, ex: Excision)
    requires Fresh(Run(lib, s, item.u)) && k.Push? && GoesOn(lib, s, item.u, item.t, k, ex)
    requires x == item.u + item.token + item.t && x == ex.front + (ex.gone + ex.rest)
    ensures |ex.front| + |ex.gone| <= |item.u| + |item.token| + Skip(item.t) + 1
    ensures ex.front <= item.u
  {
    hide Run, Accepts, Closes, Skip;
    assert |x| == |ex.front| + |ex.gone| + |ex.rest| && |x| == |item.u| + |item.token| + |item.t|;
  }

  /** The branch of the edit that removes an item. */
  lemma EditTakes(lib: Library, data: string, n: string, p: Property, registration: string, encoded: string, size: nat,
      state: State, t: string)
    requires data != "" && Parse(lib, data) == Some(n) && Find(lib, n) == Some(p) && IsArray(p)
    requires var k := StackOf(p.value.state);
      ItemAt(lib, Want(Push(InArray, k), FirstItem), p.value.rest[1..], k, registration) == Some(Cut(size, state, t))
    requires size + |t| <= |n| && |n| - |t| <= End(p, |n|) <= |n| && -1 <= ValueStart(p, |n|) < |n| - |t| - size
    ensures |n| == |data|
    ensures var r := Widen(n, data, |n| - |t| - size, |n| - |t|, ValueStart(p, |n|), End(p, |n|));
      EditOf(lib, data, registration, encoded, false, true) == Edited(Splice(data, r.start, r.end, ""), true, false)
  {
    hide Find, ItemAt, Parse, Widen, Splice, AfterBrace, ValueStart, End, Fits;
    EditRemoves(lib, data, n, p, Cut(size, state, t), registration, encoded,
      Widen(n, data, |n| - |t| - size, |n| - |t|, ValueStart(p, |n|), End(p, |n|)));
  }

  lemma Spliced(data: string, cut: Range)
    requires cut.start <= cut.end <= |data|
    ensures Splice(data, cut.start, cut.end, "") == data[..cut.start] + data[cut.end..]
  {
  }

  lemma FoundIsGone(lib: Library, data: string, n: string, p: Property, registration: string, encoded: string,
      c: Cutting)
    returns (cut: Range, i: nat)
    requires PlainScalars(lib) && data != "" && Parse(lib, data) == Some(n) && Find(lib, n) == Some(p) && IsArray(p)
    requires IsCutting(lib, n, c) && p == WithArray(lib, c, c.x)
    requires ItemAt(lib, Want(Push(InArray, c.k), FirstItem), c.x, c.k, registration).Some?
    ensures var e := EditOf(lib, data, registration, encoded, false, true);
      e.Edited? && e.present && !e.created && ItemGone(lib, data, n, p, e.bytes, cut, i)
    ensures i < |ItemsIn(p)| && Stands(lib, ItemsIn(p)[i], registration)
      && Without(lib, ItemsIn(p)[..i], registration)
  {
    hide Run, Reads, ValueEnd, Without, Accepts, Skip, Normal, Parse, Find, PartsOf, AfterBrace, IsCutting, Part, Widen,
      ItemAt, EditOf, Splice, ItemGone, ValueStart, End, Start, Fits, GoesOn, Container, ValueAt, KeyAt;
    var j := Push(InArray, c.k);
    var item := FoundItem(lib, c.k, c.x, registration);
    ItemWidth(lib, n, p, c, item, registration);
    ArrayOpens(lib, n, c);
    ParseIsNormal(lib, data, n);
    EditTakesItem(lib, data, n, p, registration, encoded, c, item);
    var ex, behind := TakesOut(lib, data, UpToArray(c), Want(j, FirstItem), c.k, true, item.u, item.token, item.t,
      item.token, j, |UpToArray(c)| - 1, End(p, |n|));
    cut := Range(|UpToArray(c)| + |ex.front|, |UpToArray(c)| + |ex.front| + |ex.gone|);
    CutEnds(lib, Want(j, FirstItem), c.x, item, j, ex);
    ExcisionIsGone(lib, data, n, p, c, item, registration, ex, behind, cut);
    Spliced(data, cut);
    i := |Reads(NOTHING, item.u).parts|;
    ItemsOfArray(lib, n, c);
    OneItem(Reads(NOTHING, item.u).parts, item.token, behind, ItemsIn(p));
  }

  lemma ItemsOfArray(lib: Library, n: string, c: Cutting)
    requires IsCutting(lib, n, c)
    ensures IsArray(WithArray(lib, c, c.x)) && ItemsIn(WithArray(lib, c, c.x)) == PartsOf(c.x)
    ensures StackOf(WithArray(lib, c, c.x).value.state) == c.k
    ensures WithArray(lib, c, c.x).value.rest[1..] == c.x
  {
    hide PartsOf, ValueEnd;
    assert (['['] + c.x)[1..] == c.x;
  }

  lemma ParseIsNormal(lib: Library, data: string, n: string)
    requires Parse(lib, data) == Some(n)
    ensures Normal(data) == Some(n) && |n| == |data| && Valid(lib, n) && AfterBrace(n).Some?
  {
    hide Normal, AfterBrace, Valid;
  }

  lemma EditTakesItem(lib: Library, data: string, n: string, p: Property, registration: string, encoded: string,
      c: Cutting, item: Item)
    requires data != "" && Parse(lib, data) == Some(n) && Find(lib, n) == Some(p) && IsArray(p)
    requires IsCutting(lib, n, c) && p == WithArray(lib, c, c.x) && n == UpToArray(c) + c.x
    requires c.x == item.u + item.token + item.t && item.token != "" && Fits(p, |n|) && |n| == |data|
    requires ItemAt(lib, Want(Push(InArray, c.k), FirstItem), c.x, c.k, registration)
      == Some(Cut(|item.token|, Want(Push(InArray, c.k), After), item.t))
    requires ValueStart(p, |n|) == |UpToArray(c)| - 1
    requires |UpToArray(c)| + |item.u| + |item.token| <= End(p, |n|) <= |n|
    ensures var start, end := |UpToArray(c)| + |item.u|, |UpToArray(c)| + |item.u| + |item.token|;
      && |UpToArray(c)| > 0 && end <= |n|
      && var r := Widen(n, data, start, end, |UpToArray(c)| - 1, End(p, |n|));
        EditOf(lib, data, registration, encoded, false, true) == Edited(Splice(data, r.start, r.end, ""), true, false)
  {
    hide Run, Parse, Find, IsCutting, Widen, ItemAt, EditOf, Splice, ValueStart, End, Fits, ValueEnd;
    assert |c.x| == |item.u| + |item.token| + |item.t| && |n| == |UpToArray(c)| + |c.x|;
    ItemsOfArray(lib, n, c);
    EditTakes(lib, data, n, p, registration, encoded, |item.token|, Want(Push(InArray, c.k), After), item.t);
  }

  lemma FindIsArray(lib: Library, n: string, p: Property, c: Cutting)
    requires IsCutting(lib, n, c) && AfterBrace(n).Some? && Find(lib, n) == Some(p)
    ensures p == WithArray(lib, c, c.x)
  {
    hide Run, Accepts, Find, ValueEnd, KeyAt, ValueAt, AfterBrace, WithArray;
    ArrayIsFound(lib, c, n, c.x);
    ArrayOpens(lib, n, c);
    Reopened(c, c.x);
  }

  lemma IsAmong(lib: Library, items: seq<string>, value: string, i: nat)
    requires i < |items| && Stands(lib, items[i], value)
    ensures !Without(lib, items, value)
  {
  }

  lemma NothingInArray(lib: Library, n: string, c: Cutting, value: string)
    requires IsCutting(lib, n, c)
    requires ItemAt(lib, Want(Push(InArray, c.k), FirstItem), c.x, c.k, value) == None
    ensures Without(lib, PartsOf(c.x), value)
  {
    hide Run, Accepts, Reads, KeyAt, ValueAt, ItemAt, Searching, Without, AllWhite;
    ArrayBegins(c.k, value, lib);
    NothingFound(lib, Want(Push(InArray, c.k), FirstItem), NOTHING, c.x, c.k, value);
  }

  /** The branch that finds nothing to remove. */
  lemma EditKeeps(lib: Library, data: string, n: string, p: Property, registration: string, encoded: string)
    requires data != "" && Parse(lib, data) == Some(n) && Find(lib, n) == Some(p) && IsArray(p)
    requires var k := StackOf(p.value.state);
      ItemAt(lib, Want(Push(InArray, k), FirstItem), p.value.rest[1..], k, registration) == None
    ensures EditOf(lib, data, registration, encoded, false, true) == Edited(data, false, false)
  {
    hide Find, ItemAt, Parse, Widen, Splice, AfterBrace;
  }

  /** Removing from a configuration whose property is an array, whoever wrote
      it: exactly the first item that stands for the registration goes, and
      without one nothing changes. */
  lemma RemovalIsExact(lib: Library, data: string, n: string, p: Property, registration: string, encoded: string)
    returns (cut: Range, i: nat)
    requires PlainScalars(lib) && data != "" && Parse(lib, data) == Some(n) && Find(lib, n) == Some(p) && IsArray(p)
    ensures var e := EditOf(lib, data, registration, encoded, false, true);
      && e.Edited? && !e.created && (e.present <==> !Without(lib, ItemsIn(p), registration))
      && (!e.present ==> e.bytes == data)
      && (e.present ==> ItemGone(lib, data, n, p, e.bytes, cut, i))
      && (e.present ==> i < |ItemsIn(p)| && Stands(lib, ItemsIn(p)[i], registration))
      && (e.present ==> Without(lib, ItemsIn(p)[..i], registration))
  {
    hide Run, Reads, ValueEnd, Accepts, Normal, Parse, Find, PartsOf, AfterBrace, IsCutting, ItemAt, EditOf, ItemGone,
      KeyAt, ValueAt, Searching, Valid, Without;
    cut, i := Range(0, 0), 0;
    ParseIsNormal(lib, data, n);
    var c := CutsAtArray(lib, n, p);
    FindIsArray(lib, n, p, c);
    ItemsOfArray(lib, n, c);
    if ItemAt(lib, Want(Push(InArray, c.k), FirstItem), c.x, c.k, registration).Some? {
      cut, i := FoundIsGone(lib, data, n, p, registration, encoded, c);
      IsAmong(lib, ItemsIn(p), registration, i);
    } else {
      ArrayBegins(c.k, registration, lib);
      NothingInArray(lib, n, c, registration);
      EditKeeps(lib, data, n, p, registration, encoded);
    }
  }
}
