/** Hiding command strings from the shared hook planner (cmd/kata/agent_hooks_config.go, protectAgentHookCommands). */
module HookMasking {
  import opened Decimal
  import opened Json

  // The configurations of all agents but Hermes, which are JSON.

  // ---------------------------------------------------------------------
  // String scalars of a document
  // ---------------------------------------------------------------------

  /** `s` occurs as a value, not as a key, below the root of `v`. */
  predicate Holds(v: Json, s: string) {
    match v
    case Arr(items) => exists i :: 0 <= i < |items| && (items[i] == Str(s) || Holds(items[i], s))
    case Obj(m) => exists k :: k in m && (m[k] == Str(s) || Holds(m[k], s))
    case _ => false
  }

  /** rewriteAgentHookJSONScalars. */
  function Rewrite(v: Json, f: string -> string): Json
    decreases v, 0
  {
    match v
    case Arr(items) => Arr(seq(|items|, i requires 0 <= i < |items| => RewriteChild(items[i], f)))
    case Obj(m) => Obj(map k | k in m :: RewriteChild(m[k], f))
    case _ => v
  }

  function RewriteChild(v: Json, f: string -> string): Json
    decreases v, 1
  {
    if v.Str? then Str(f(v.s)) else Rewrite(v, f)
  }

  // ---------------------------------------------------------------------
  // The token
  // ---------------------------------------------------------------------

  predicate OccursAt(s: string, t: string, i: nat) {
    i + |t| <= |s| && s[i..i + |t|] == t
  }

  predicate Contains(s: string, t: string) {
    exists i :: 0 <= i <= |s| && OccursAt(s, t, i)
  }

  /** No string scalar of the document contains `token`. */
  ghost predicate Fresh(doc: Json, token: string) {
    forall s :: Holds(doc, s) ==> !Contains(s, token)
  }

  predicate Collides(v: Json, token: string) {
    match v
    case Arr(items) =>
      exists i :: 0 <= i < |items| && (if items[i].Str? then Contains(items[i].s, token) else Collides(items[i], token))
    case Obj(m) => exists k :: k in m && if m[k].Str? then Contains(m[k].s, token) else Collides(m[k], token)
    case _ => false
  }

  lemma {:induction false} CollidesMeansHeld(v: Json, token: string)
    ensures Collides(v, token) <==> exists s :: Holds(v, s) && Contains(s, token)
  {
    match v
    case Arr(items) =>
      forall i | 0 <= i < |items|
        ensures Collides(items[i], token) <==> exists s :: Holds(items[i], s) && Contains(s, token)
      {
        CollidesMeansHeld(items[i], token);
      }
      if Collides(v, token) {
        var i :| 0 <= i < |items| && if items[i].Str? then Contains(items[i].s, token) else Collides(items[i], token);
        var s :| (items[i] == Str(s) || Holds(items[i], s)) && Contains(s, token);
        assert Holds(v, s);
      }
    case Obj(m) =>
      forall k | k in m ensures Collides(m[k], token) <==> exists s :: Holds(m[k], s) && Contains(s, token) {
        CollidesMeansHeld(m[k], token);
      }
      if Collides(v, token) {
        var k :| k in m && if m[k].Str? then Contains(m[k].s, token) else Collides(m[k], token);
        var s :| (m[k] == Str(s) || Holds(m[k], s)) && Contains(s, token);
        assert Holds(v, s);
      }
    case _ =>
  }

  /** A bound on the length of every string scalar. */
  ghost predicate Shorter(doc: Json, n: nat) {
    forall s :: Holds(doc, s) ==> |s| < n
  }

  lemma {:induction false} SomeBound(v: Json) returns (n: nat)
    ensures Shorter(v, n)
  {
    match v
    case Arr(items) =>
      n := 0;
      var i := 0;
      while i < |items|
        invariant 0 <= i <= |items|
        invariant forall j, s :: 0 <= j < i && (items[j] == Str(s) || Holds(items[j], s)) ==> |s| < n
      {
        var m := SomeBound(items[i]);
        var l := if items[i].Str? then |items[i].s| + 1 else 0;
        n, i := n + m + l, i + 1;
      }
    case Obj(m) =>
      n := 0;
      var left := m.Keys;
      while left != {}
        invariant left <= m.Keys
        invariant forall k, s :: k in m && k !in left && (m[k] == Str(s) || Holds(m[k], s)) ==> |s| < n
        decreases |left|
      {
        var k :| k in left;
        var b := SomeBound(m[k]);
        var l := if m[k].Str? then |m[k].s| + 1 else 0;
        n, left := n + b + l, left - {k};
      }
    case _ => n := 0;
  }

  const TOKEN := "kata-protected-hook-"

  function Exes(n: nat): string {
    if n == 0 then "" else Exes(n - 1) + "x"
  }

  ghost predicate AllCollide(document: Json, first: string, n: nat) {
    n == 0 || (AllCollide(document, first, n - 1) && Collides(document, first + Exes(n - 1)))
  }

  /** agentHookProtectionToken: the shortest extension of the first token that
      no scalar contains. The search ends because scalars are finite. */
  method ProtectionToken(document: Json, first: string) returns (token: string, ghost n: nat)
    ensures token == first + Exes(n) && Fresh(document, token)
    ensures AllCollide(document, first, n)
  {
    hide Collides, Shorter, Fresh, Exes;
    ghost var bound := SomeBound(document);
    token, n := first, 0;
    NoneYet(first);
    while Collides(document, token)
      invariant token == first + Exes(n)
      invariant AllCollide(document, first, n)
      decreases bound - |token|
    {
      CollidingIsShort(document, token, bound);
      OneMore(first, n);
      token, n := token + "x", n + 1;
    }
    NoCollision(document, token);
  }

  lemma NoCollision(document: Json, token: string)
    requires !Collides(document, token)
    ensures Fresh(document, token)
  {
    CollidesMeansHeld(document, token);
  }

  lemma NoneYet(first: string)
    ensures first + Exes(0) == first
  {
  }

  lemma OneMore(first: string, n: nat)
    ensures first + Exes(n) + "x" == first + Exes(n + 1)
  {
  }

  lemma CollidingIsShort(document: Json, token: string, bound: nat)
    requires Shorter(document, bound) && Collides(document, token)
    ensures |token| < bound
  {
    CollidesMeansHeld(document, token);
    var s :| Holds(document, s) && Contains(s, token);
    var i :| 0 <= i <= |s| && OccursAt(s, token, i);
  }

  // ---------------------------------------------------------------------
  // Masks
  // ---------------------------------------------------------------------

  type Masks = map<string, string>

  ghost predicate Injective(r: Masks) {
    forall s, t {:trigger r[s], r[t]} :: s in r && t in r && r[s] == r[t] ==> s == t
  }

  /** Every nonempty value gets the token and its own number. */
  ghost predicate NumberedFrom(r: Masks, token: string, n: nat) {
    && "" !in r
    && (forall s {:trigger r[s]} :: s in r ==> exists i: nat :: i < n && r[s] == token + Digits(i))
    && Injective(r)
  }

  /** The protect closure: a new nonempty value gets the next mask. */
  method ProtectValue(r: Masks, token: string, value: string) returns (r': Masks)
    requires NumberedFrom(r, token, |r|)
    ensures NumberedFrom(r', token, |r'|)
    ensures forall s :: s in r' <==> s in r || (s == value && s != "")
  {
    r' := r;
    if value != "" && value !in r {
      NewMask(r, token, value);
      r' := r[value := token + Digits(|r|)];
    }
  }

  lemma NewMask(r: Masks, token: string, value: string)
    requires NumberedFrom(r, token, |r|) && value != "" && value !in r
    ensures |r[value := token + Digits(|r|)]| == |r| + 1
    ensures NumberedFrom(r[value := token + Digits(|r|)], token, |r| + 1)
  {
    var r' := r[value := token + Digits(|r|)];
    forall s | s in r' ensures exists i: nat :: i < |r| + 1 && r'[s] == token + Digits(i) {
      if s == value {
        assert r'[s] == token + Digits(|r|);
      } else {
        var i: nat :| i < |r| && r[s] == token + Digits(i);
        assert r'[s] == token + Digits(i);
      }
    }
    forall s | s in r ensures r[s] != token + Digits(|r|) {
      var i: nat :| i < |r| && r[s] == token + Digits(i);
      SameTail(token, Digits(i), Digits(|r|));
      if r[s] == token + Digits(|r|) {
        DigitsInjective(i, |r|);
      }
    }
  }

  lemma SameTail(x: string, y: string, z: string)
    ensures x + y == x + z ==> y == z
  {
    assert (x + y)[|x|..] == y && (x + z)[|x|..] == z;
  }

  /** No mask is a string of the document: each contains the token. */
  lemma MasksAreNew(doc: Json, token: string, r: Masks, n: nat, s: string)
    requires Fresh(doc, token) && NumberedFrom(r, token, n) && s in r
    ensures !Holds(doc, r[s])
  {
    var i: nat :| i < n && r[s] == token + Digits(i);
    assert r[s][0..0 + |token|] == token;
    assert OccursAt(r[s], token, 0);
    assert Contains(r[s], token);
  }

  // ---------------------------------------------------------------------
  // Handlers
  // ---------------------------------------------------------------------

  type Handler = map<string, Json>

  const COMMAND_FIELDS := {"command", "commandWindows", "bash", "powershell"}

  /** In the order they are visited. */
  const FIELD_LIST := ["command", "commandWindows", "bash", "powershell"]

  /** `s` is one of the first `n` command fields. */
  predicate InFields(h: Handler, n: nat, s: string)
    requires n <= |FIELD_LIST|
  {
    n > 0 && ((s != "" && s == Field(h, FIELD_LIST[n - 1])) || InFields(h, n - 1, s))
  }

  function Text(v: Json): string {
    if v.Str? then v.s else ""
  }

  function Field(h: Handler, field: string): string {
    if field in h then Text(h[field]) else ""
  }

  function Args(h: Handler): seq<Json> {
    if "args" in h && h["args"].Arr? then h["args"].items else []
  }

  /** `s` is a nonempty command or argument of the handler. */
  predicate Runs(h: Handler, s: string) {
    s != "" && ((exists f :: f in COMMAND_FIELDS && f in h && h[f] == Str(s)) || Str(s) in Args(h))
  }

  /** Every command field and argument of one handler gets a mask. */
  method ProtectHandler(r: Masks, token: string, h: Handler) returns (r': Masks)
    requires NumberedFrom(r, token, |r|)
    ensures NumberedFrom(r', token, |r'|)
    ensures forall s :: s in r' <==> s in r || Runs(h, s)
  {
    r' := ProtectFields(r, token, h);
    r' := ProtectArgs(r', token, Args(h));
    FieldsOrArgs(h);
  }

  method ProtectFields(r: Masks, token: string, h: Handler) returns (r': Masks)
    requires NumberedFrom(r, token, |r|)
    ensures NumberedFrom(r', token, |r'|)
    ensures forall s :: s in r' <==> s in r || InFields(h, |FIELD_LIST|, s)
  {
    r' := r;
    for i := 0 to |FIELD_LIST|
      invariant NumberedFrom(r', token, |r'|)
      invariant forall s :: s in r' <==> s in r || InFields(h, i, s)
    {
      r' := ProtectValue(r', token, Field(h, FIELD_LIST[i]));
    }
  }

  method ProtectArgs(r: Masks, token: string, args: seq<Json>) returns (r': Masks)
    requires NumberedFrom(r, token, |r|)
    ensures NumberedFrom(r', token, |r'|)
    ensures forall s :: s in r' <==> s in r || (s != "" && Str(s) in args)
  {
    r' := r;
    for i := 0 to |args|
      invariant NumberedFrom(r', token, |r'|)
      invariant forall s :: s in r' <==> s in r || (s != "" && Str(s) in args[..i])
    {
      OneLonger(args, i);
      r' := ProtectValue(r', token, Text(args[i]));
    }
    assert args[..|args|] == args;
  }

  lemma FieldsOrArgs(h: Handler)
    ensures forall s :: Runs(h, s) <==> InFields(h, |FIELD_LIST|, s) || (s != "" && Str(s) in Args(h))
  {
    forall s ensures Runs(h, s) <==> InFields(h, |FIELD_LIST|, s) || (s != "" && Str(s) in Args(h)) {
      FieldsAreFour(h, s);
    }
  }

  lemma FieldsAreFour(h: Handler, s: string)
    ensures InFields(h, |FIELD_LIST|, s) <==> s != "" && exists f :: f in COMMAND_FIELDS && f in h && h[f] == Str(s)
  {
    assert InFields(h, 1, s) <==> s != "" && s == Field(h, "command");
    assert InFields(h, 2, s) <==> s != "" && (s == Field(h, "command") || s == Field(h, "commandWindows"));
    assert InFields(h, 3, s) <==>
      s != "" && (s == Field(h, "command") || s == Field(h, "commandWindows") || s == Field(h, "bash"));
  }

  lemma OneLonger(args: seq<Json>, i: nat)
    requires i < |args|
    ensures forall v :: v in args[..i + 1] <==> v in args[..i] || v == args[i]
  {
    assert args[..i + 1] == args[..i] + [args[i]];
  }

  /** What the second loop stores for a command or argument. */
  function Masked(v: Json, r: Masks): Json {
    if v.Str? && v.s != "" then Str(if v.s in r then r[v.s] else "") else v
  }

  function MaskField(k: string, v: Json, r: Masks): Json {
    if k in COMMAND_FIELDS then Masked(v, r)
    else if k == "args" && v.Arr? then Arr(seq(|v.items|, i requires 0 <= i < |v.items| => Masked(v.items[i], r)))
    else v
  }

  function MaskHandler(h: Handler, r: Masks): Handler {
    map k | k in h :: MaskField(k, h[k], r)
  }

  function MarkHandler(h: Handler, field: string, marker: string): Handler {
    h[field := Str(marker)]
  }

  // ---------------------------------------------------------------------
  // Where a handler sits
  // ---------------------------------------------------------------------

  /** Keys and indices from the root. */
  datatype Path = Here | Key(k: string, rest: Path) | Index(i: nat, rest: Path)

  predicate Leads(v: Json, p: Path) {
    match p
    case Here => v.Obj?
    case Key(k, rest) => v.Obj? && k in v.members && Leads(v.members[k], rest)
    case Index(i, rest) => v.Arr? && i < |v.items| && Leads(v.items[i], rest)
  }

  function At(v: Json, p: Path): Handler
    requires Leads(v, p)
  {
    match p
    case Here => v.members
    case Key(k, rest) => At(v.members[k], rest)
    case Index(i, rest) => At(v.items[i], rest)
  }

  /** Store a handler at the end of a path. */
  function Put(v: Json, p: Path, h: Handler): Json
    requires Leads(v, p)
  {
    match p
    case Here => Obj(h)
    case Key(k, rest) => Obj(v.members[k := Put(v.members[k], rest, h)])
    case Index(i, rest) => Arr(v.items[i := Put(v.items[i], rest, h)])
  }

  /** The paths part ways before either ends. */
  predicate Apart(p: Path, q: Path) {
    (p.Key? && q.Key? && (p.k != q.k || Apart(p.rest, q.rest)))
    || (p.Index? && q.Index? && (p.i != q.i || Apart(p.rest, q.rest)))
  }

  lemma {:induction false} PutApart(v: Json, p: Path, h: Handler, q: Path)
    requires Leads(v, p) && Leads(v, q) && Apart(p, q)
    ensures Leads(Put(v, p, h), q) && At(Put(v, p, h), q) == At(v, q)
  {
    match p
    case Here =>
    case Key(k, rest) =>
      if q.k == k {
        PutApart(v.members[k], rest, h, q.rest);
      }
    case Index(i, rest) =>
      if q.i == i {
        PutApart(v.items[i], rest, h, q.rest);
      }
  }

  lemma {:induction false} PutHere(v: Json, p: Path, h: Handler)
    requires Leads(v, p)
    ensures Leads(Put(v, p, h), p) && At(Put(v, p, h), p) == h
  {
    match p
    case Here =>
    case Key(k, rest) => PutHere(v.members[k], rest, h);
    case Index(i, rest) => PutHere(v.items[i], rest, h);
  }

  lemma {:induction false} HeldBelow(v: Json, p: Path, s: string)
    requires Leads(v, p) && Holds(Obj(At(v, p)), s)
    ensures Holds(v, s)
  {
    match p
    case Here =>
    case Key(k, rest) => HeldBelow(v.members[k], rest, s);
    case Index(i, rest) => HeldBelow(v.items[i], rest, s);
  }

  lemma RunsIsHeld(h: Handler, s: string)
    requires Runs(h, s)
    ensures Holds(Obj(h), s)
  {
    if Str(s) in Args(h) {
      var i :| 0 <= i < |Args(h)| && Args(h)[i] == Str(s);
      assert Holds(h["args"], s);
    }
  }

  // ---------------------------------------------------------------------
  // Restoring
  // ---------------------------------------------------------------------

  /** restoreAgentHookJSONScalars: the value whose mask this is. */
  ghost function Unmask(r: Masks, s: string): string {
    if exists o :: o in r && r[o] == s then (var o :| o in r && r[o] == s; o) else s
  }

  ghost function Unmasking(r: Masks): string -> string {
    s => Unmask(r, s)
  }

  /** Its search through the masks, in whatever order. */
  method RestoreScalar(r: Masks, s: string) returns (original: string)
    requires Injective(r)
    ensures original == Unmask(r, s)
  {
    var left := r.Keys;
    while left != {}
      invariant left <= r.Keys
      invariant forall o :: o in r && o !in left ==> r[o] != s
      decreases left
    {
      var o :| o in left;
      if r[o] == s {
        return o;
      }
      left := left - {o};
    }
    return s;
  }

  /** No mask is also a masked value, and no two values share one. */
  ghost predicate Reversible(r: Masks) {
    Injective(r) && forall s, t :: s in r && t in r ==> r[s] != t
  }

  /** Replacing a value by its mask makes no difference to `f`. */
  ghost predicate Undoes(f: string -> string, r: Masks) {
    forall s :: s in r ==> f(r[s]) == f(s)
  }

  lemma UnmaskUndoes(r: Masks)
    requires Reversible(r)
    ensures Undoes(Unmasking(r), r)
  {
    forall s | s in r ensures Unmask(r, r[s]) == s && Unmask(r, s) == s {
      assert forall o :: o in r ==> r[o] != s;
    }
  }

  lemma MaskedRestores(v: Json, r: Masks, f: string -> string)
    requires Undoes(f, r) && (v.Str? && v.s != "" ==> v.s in r)
    ensures RewriteChild(Masked(v, r), f) == RewriteChild(v, f)
  {
  }

  ghost predicate FieldCovered(k: string, v: Json, r: Masks) {
    && (k in COMMAND_FIELDS && Text(v) != "" ==> Text(v) in r)
    && (k == "args" && v.Arr? ==> forall s :: Str(s) in v.items && s != "" ==> s in r)
  }

  lemma FieldRestores(k: string, v: Json, r: Masks, f: string -> string)
    requires Undoes(f, r) && FieldCovered(k, v, r)
    ensures RewriteChild(MaskField(k, v, r), f) == RewriteChild(v, f)
  {
    if k in COMMAND_FIELDS {
      MaskedRestores(v, r, f);
    } else if k == "args" && v.Arr? {
      ItemsRestore(v.items, r, f);
    }
  }

  lemma ItemsRestore(items: seq<Json>, r: Masks, f: string -> string)
    requires Undoes(f, r) && forall s :: Str(s) in items && s != "" ==> s in r
    ensures Rewrite(Arr(seq(|items|, i requires 0 <= i < |items| => Masked(items[i], r))), f) == Rewrite(Arr(items), f)
  {
    forall i | 0 <= i < |items| ensures RewriteChild(Masked(items[i], r), f) == RewriteChild(items[i], f) {
      assert items[i].Str? ==> Str(items[i].s) in items;
      MaskedRestores(items[i], r, f);
    }
  }

  /** Masking a handler is invisible after restoring. */
  lemma HandlerRestores(h: Handler, r: Masks, f: string -> string)
    requires Undoes(f, r) && forall k :: k in h ==> FieldCovered(k, h[k], r)
    ensures Rewrite(Obj(MaskHandler(h, r)), f) == Rewrite(Obj(h), f)
  {
    forall k | k in h ensures RewriteChild(MaskHandler(h, r)[k], f) == RewriteChild(h[k], f) {
      FieldRestores(k, h[k], r, f);
    }
  }

  lemma Covers(h: Handler, r: Masks)
    requires forall s :: Runs(h, s) ==> s in r
    ensures forall k :: k in h ==> FieldCovered(k, h[k], r)
  {
    forall k | k in h ensures FieldCovered(k, h[k], r) {
      if k in COMMAND_FIELDS && Text(h[k]) != "" {
        assert Runs(h, Text(h[k]));
      }
      if k == "args" && h[k].Arr? {
        forall s | Str(s) in h[k].items && s != "" ensures s in r {
          assert Runs(h, s);
        }
      }
    }
  }

  /** Two handlers that rewrite alike may stand in for each other. */
  lemma {:induction false} PutAlike(v: Json, p: Path, h: Handler, f: string -> string)
    requires Leads(v, p)
    requires Rewrite(Obj(h), f) == Rewrite(Obj(At(v, p)), f)
    ensures Rewrite(Put(v, p, h), f) == Rewrite(v, f)
  {
    match p
    case Here =>
    case Key(k, rest) =>
      PutAlike(v.members[k], rest, h, f);
      MembersRewrite(v.members, k, Put(v.members[k], rest, h), f);
    case Index(i, rest) =>
      PutAlike(v.items[i], rest, h, f);
      ItemsRewrite(v.items, i, Put(v.items[i], rest, h), f);
  }

  lemma MembersRewrite(m: Handler, k: string, v: Json, f: string -> string)
    ensures Rewrite(Obj(m[k := v]), f) == Obj(Rewrite(Obj(m), f).members[k := RewriteChild(v, f)])
  {
  }

  lemma ItemsRewrite(items: seq<Json>, i: nat, v: Json, f: string -> string)
    requires i < |items|
    ensures Rewrite(Arr(items[i := v]), f) == Arr(Rewrite(Arr(items), f).items[i := RewriteChild(v, f)])
  {
  }

  lemma {:induction false} LeadsRewritten(v: Json, p: Path, f: string -> string)
    requires Leads(v, p)
    ensures Leads(Rewrite(v, f), p)
    ensures Obj(At(Rewrite(v, f), p)) == Rewrite(Obj(At(v, p)), f)
  {
    match p
    case Here =>
    case Key(k, rest) => LeadsRewritten(v.members[k], rest, f);
    case Index(i, rest) => LeadsRewritten(v.items[i], rest, f);
  }

  /** Rewriting goes through a stored handler. */
  lemma {:induction false} PutRewritten(v: Json, p: Path, h: Handler, f: string -> string)
    requires Leads(v, p)
    ensures Leads(Rewrite(v, f), p)
    ensures Rewrite(Put(v, p, h), f) == Put(Rewrite(v, f), p, Rewrite(Obj(h), f).members)
  {
    match p
    case Here =>
    case Key(k, rest) =>
      PutRewritten(v.members[k], rest, h, f);
      MembersRewrite(v.members, k, Put(v.members[k], rest, h), f);
    case Index(i, rest) =>
      PutRewritten(v.items[i], rest, h, f);
      ItemsRewrite(v.items, i, Put(v.items[i], rest, h), f);
  }

  /** A document without masks restores to itself. */
  lemma {:induction false} RestoringNothing(v: Json, f: string -> string)
    requires forall s :: Holds(v, s) ==> f(s) == s
    ensures Rewrite(v, f) == v
  {
    match v
    case Arr(items) =>
      forall i | 0 <= i < |items| ensures RewriteChild(items[i], f) == items[i] {
        ItemHolds(items, i);
        RestoringNothing(items[i], f);
      }
    case Obj(m) =>
      forall k | k in m ensures RewriteChild(m[k], f) == m[k] {
        MemberHolds(m, k);
        RestoringNothing(m[k], f);
      }
    case _ =>
  }

  lemma ItemHolds(items: seq<Json>, i: nat)
    requires i < |items|
    ensures items[i].Str? ==> Holds(Arr(items), items[i].s)
    ensures forall s :: Holds(items[i], s) ==> Holds(Arr(items), s)
  {
  }

  lemma MemberHolds(m: Handler, k: string)
    requires k in m
    ensures m[k].Str? ==> Holds(Obj(m), m[k].s)
    ensures forall s :: Holds(m[k], s) ==> Holds(Obj(m), s)
  {
  }

  // ---------------------------------------------------------------------
  // Protecting a document
  // ---------------------------------------------------------------------

  /** An inspected handler, and whether it is an owned one of the kind. */
  datatype Entry = Entry(path: Path, owned: bool)

  predicate Placed(doc: Json, entries: seq<Entry>) {
    && (forall i :: 0 <= i < |entries| ==> Leads(doc, entries[i].path))
    && (forall i, j :: 0 <= i < j < |entries| ==> Apart(entries[i].path, entries[j].path))
  }

  lemma {:induction false} ApartBothWays(p: Path, q: Path)
    requires Apart(p, q)
    ensures Apart(q, p)
  {
    if (p.Key? && p.k == q.k) || (p.Index? && p.i == q.i) {
      ApartBothWays(p.rest, q.rest);
    }
  }

  /** `s` is run by one of the first `n` entries. */
  ghost predicate RunByFirst(doc: Json, entries: seq<Entry>, n: nat, s: string)
    requires Placed(doc, entries) && n <= |entries|
  {
    n > 0 && (Runs(At(doc, entries[n - 1].path), s) || RunByFirst(doc, entries, n - 1, s))
  }

  /** The masks of all entries, in the order they were inspected. */
  method AssignMasks(doc: Json, entries: seq<Entry>, token: string) returns (r: Masks)
    requires Placed(doc, entries)
    ensures NumberedFrom(r, token, |r|)
    ensures forall s :: s in r <==> RunByFirst(doc, entries, |entries|, s)
  {
    r := map[];
    for i := 0 to |entries|
      invariant NumberedFrom(r, token, |r|)
      invariant forall s :: s in r <==> RunByFirst(doc, entries, i, s)
    {
      r := ProtectHandler(r, token, At(doc, entries[i].path));
    }
  }

  lemma {:induction false} RunByEntry(doc: Json, entries: seq<Entry>, n: nat, i: nat, s: string)
    requires Placed(doc, entries) && i < n <= |entries| && Runs(At(doc, entries[i].path), s)
    ensures RunByFirst(doc, entries, n, s)
  {
    if i < n - 1 {
      RunByEntry(doc, entries, n - 1, i, s);
    }
  }

  lemma {:induction false} RunIsHeld(doc: Json, entries: seq<Entry>, n: nat, s: string)
    requires Placed(doc, entries) && n <= |entries| && RunByFirst(doc, entries, n, s)
    ensures Holds(doc, s)
  {
    if Runs(At(doc, entries[n - 1].path), s) {
      RunsIsHeld(At(doc, entries[n - 1].path), s);
      HeldBelow(doc, entries[n - 1].path, s);
    } else {
      RunIsHeld(doc, entries, n - 1, s);
    }
  }

  /** The document with every owned entry among the first `n` marked. */
  ghost function Marked(doc: Json, entries: seq<Entry>, n: nat, field: string, marker: string): (d: Json)
    requires Placed(doc, entries) && n <= |entries|
    ensures forall i :: 0 <= i < |entries| ==> Leads(d, entries[i].path)
    ensures forall i :: 0 <= i < |entries| ==>
      At(d, entries[i].path) ==
        if i < n && entries[i].owned then MarkHandler(At(doc, entries[i].path), field, marker)
        else At(doc, entries[i].path)
  {
    if n == 0 then doc
    else
      var d := Marked(doc, entries, n - 1, field, marker);
      var p := entries[n - 1].path;
      if entries[n - 1].owned then
        PutAtEntry(d, entries, n - 1, doc, MarkHandler(At(d, p), field, marker));
        Put(d, p, MarkHandler(At(d, p), field, marker))
      else d
  }

  lemma PutAtEntry(d: Json, entries: seq<Entry>, n: nat, doc: Json, h: Handler)
    requires Placed(doc, entries) && n < |entries|
    requires forall i :: 0 <= i < |entries| ==> Leads(d, entries[i].path)
    ensures forall i :: 0 <= i < |entries| ==> Leads(Put(d, entries[n].path, h), entries[i].path)
    ensures forall i :: 0 <= i < |entries| ==>
      At(Put(d, entries[n].path, h), entries[i].path) == if i == n then h else At(d, entries[i].path)
  {
    forall i | 0 <= i < |entries|
      ensures Leads(Put(d, entries[n].path, h), entries[i].path)
      ensures At(Put(d, entries[n].path, h), entries[i].path) == if i == n then h else At(d, entries[i].path)
    {
      if i == n {
        PutHere(d, entries[n].path, h);
      } else {
        if i < n {
          ApartBothWays(entries[i].path, entries[n].path);
        }
        PutApart(d, entries[n].path, h, entries[i].path);
      }
    }
  }

  /** What one pass of the second loop makes of an entry's handler. */
  function Staged(h: Handler, e: Entry, r: Masks, field: string, marker: string): Handler {
    if e.owned then MarkHandler(MaskHandler(h, r), field, marker) else MaskHandler(h, r)
  }

  lemma StagedRestores(v: Json, e: Entry, r: Masks, f: string -> string, field: string, marker: string)
    requires Leads(v, e.path) && Undoes(f, r)
    requires forall k :: k in At(v, e.path) ==> FieldCovered(k, At(v, e.path)[k], r)
    ensures Leads(Rewrite(v, f), e.path)
    ensures Rewrite(Put(v, e.path, Staged(At(v, e.path), e, r, field, marker)), f)
      == if e.owned then Put(Rewrite(v, f), e.path, MarkHandler(At(Rewrite(v, f), e.path), field, f(marker)))
         else Rewrite(v, f)
  {
    var h := At(v, e.path);
    LeadsRewritten(v, e.path, f);
    HandlerRestores(h, r, f);
    if e.owned {
      PutRewritten(v, e.path, MarkHandler(MaskHandler(h, r), field, marker), f);
      MembersRewrite(MaskHandler(h, r), field, Str(marker), f);
    } else {
      PutAlike(v, e.path, MaskHandler(h, r), f);
    }
  }

  /** Every entry among the first `n` is staged. */
  ghost predicate AllStaged(doc: Json, staged: Json, entries: seq<Entry>, n: nat, r: Masks, field: string,
      marker: string)
    requires Placed(doc, entries) && n <= |entries|
  {
    && (forall j :: 0 <= j < |entries| ==> Leads(staged, entries[j].path))
    && (forall j :: 0 <= j < n ==>
      At(staged, entries[j].path) == Staged(At(doc, entries[j].path), entries[j], r, field, marker))
  }

  /** The masks are those of a numbering under a token new to the document. */
  ghost predicate NewlyNumbered(doc: Json, r: Masks) {
    exists n: nat :: Fresh(doc, TOKEN + Exes(n)) && NumberedFrom(r, TOKEN + Exes(n), |r|)
  }

  /** protectAgentHookCommands: every command and argument of every entry is
      replaced by its mask, the owned ones get the marker, and restoring the
      result gives back the original with the marker on the owned handlers.
      When the marker differs from all masks by a character, a search for it
      among commands and arguments finds the owned handlers and no other. */
  method ProtectCommands(doc: Json, entries: seq<Entry>, field: string, marker: string)
    returns (staged: Json, r: Masks)
    requires Placed(doc, entries) && field in COMMAND_FIELDS
    ensures NewlyNumbered(doc, r) && forall s :: s in r <==> RunByFirst(doc, entries, |entries|, s)
    ensures Injective(r) && forall s :: s in r ==> !Holds(doc, r[s])
    ensures AllStaged(doc, staged, entries, |entries|, r, field, marker)
    ensures Rewrite(staged, Unmasking(r)) == Marked(doc, entries, |entries|, field, Unmask(r, marker))
    ensures !Contains(marker, TOKEN) ==> Unmask(r, marker) == marker
    ensures Telling(marker) ==> Unmask(r, marker) == marker
    ensures Telling(marker) ==>
      forall i :: 0 <= i < |entries| ==> (Shows(At(staged, entries[i].path), marker) <==> entries[i].owned)
  {
    var token, n := ProtectionToken(doc, TOKEN);
    r := AssignMasks(doc, entries, token);
    Separated(doc, entries, token, r);
    staged := Stage(doc, entries, r, field, marker);
    MarkerStays(r, token, marker, n);
    if Telling(marker) {
      FoundAreOwned(doc, staged, entries, r, token, n, field, marker);
    }
  }

  /** Its second loop. */
  method Stage(doc: Json, entries: seq<Entry>, r: Masks, field: string, marker: string) returns (staged: Json)
    requires Placed(doc, entries) && Undoes(Unmasking(r), r)
    requires forall s :: s in r <==> RunByFirst(doc, entries, |entries|, s)
    requires Rewrite(doc, Unmasking(r)) == doc
    ensures AllStaged(doc, staged, entries, |entries|, r, field, marker)
    ensures Rewrite(staged, Unmasking(r)) == Marked(doc, entries, |entries|, field, Unmask(r, marker))
  {
    hide Staged, Rewrite, Undoes, RunByFirst, Leads, At, Put, FieldCovered, Unmask;
    staged := doc;
    for i := 0 to |entries|
      invariant AllStaged(doc, staged, entries, i, r, field, marker)
      invariant forall j :: i <= j < |entries| ==> At(staged, entries[j].path) == At(doc, entries[j].path)
      invariant Rewrite(staged, Unmasking(r)) == Marked(doc, entries, i, field, Unmask(r, marker))
    {
      var h := At(staged, entries[i].path);
      EntryCovered(doc, entries, r, i);
      StagedRestores(staged, entries[i], r, Unmasking(r), field, marker);
      PutAtEntry(staged, entries, i, doc, Staged(h, entries[i], r, field, marker));
      staged := Put(staged, entries[i].path, Staged(h, entries[i], r, field, marker));
    }
  }

  lemma EntryCovered(doc: Json, entries: seq<Entry>, r: Masks, i: nat)
    requires Placed(doc, entries) && i < |entries|
    requires forall s :: s in r <==> RunByFirst(doc, entries, |entries|, s)
    ensures forall k :: k in At(doc, entries[i].path) ==> FieldCovered(k, At(doc, entries[i].path)[k], r)
  {
    forall s | Runs(At(doc, entries[i].path), s) ensures s in r {
      RunByEntry(doc, entries, |entries|, i, s);
    }
    Covers(At(doc, entries[i].path), r);
  }

  /** A fresh token keeps the masks apart from everything else. */
  lemma {:induction false} Separated(doc: Json, entries: seq<Entry>, token: string, r: Masks)
    requires Placed(doc, entries) && Fresh(doc, token) && NumberedFrom(r, token, |r|)
    requires forall s :: s in r <==> RunByFirst(doc, entries, |entries|, s)
    ensures Undoes(Unmasking(r), r) && Rewrite(doc, Unmasking(r)) == doc
    ensures forall s :: s in r ==> !Holds(doc, r[s])
  {
    forall s {:trigger r[s]} | s in r ensures !Holds(doc, r[s]) {
      MasksAreNew(doc, token, r, |r|, s);
    }
    forall s | s in r ensures Holds(doc, s) {
      RunIsHeld(doc, entries, |entries|, s);
    }
    ApartUnmasks(doc, r);
  }

  lemma ApartUnmasks(doc: Json, r: Masks)
    requires Injective(r)
    requires forall s {:trigger r[s]} :: s in r ==> !Holds(doc, r[s])
    requires forall s :: s in r ==> Holds(doc, s)
    ensures Undoes(Unmasking(r), r) && Rewrite(doc, Unmasking(r)) == doc
  {
    UnmaskUndoes(r);
    RestoringNothing(doc, Unmasking(r));
  }

  // ---------------------------------------------------------------------
  // What a search for the marker finds
  // ---------------------------------------------------------------------

  /** The characters masks are made of. */
  predicate MaskChar(c: char) {
    c in TOKEN || c == 'x' || IsDigit(c)
  }

  /** A marker with a character that no mask has. */
  predicate Telling(marker: string) {
    exists c :: c in marker && !MaskChar(c)
  }

  /** The marker occurs in a command or an argument of the handler. */
  ghost predicate Shows(h: Handler, marker: string) {
    exists s :: Runs(h, s) && Contains(s, marker)
  }

  lemma {:induction false} ExesAreMaskChars(n: nat)
    ensures forall c :: c in Exes(n) ==> MaskChar(c)
  {
    if n > 0 {
      ExesAreMaskChars(n - 1);
    }
  }

  lemma MasksAreMaskChars(r: Masks, token: string, n: nat, s: string)
    requires NumberedFrom(r, token, |r|) && token == TOKEN + Exes(n) && s in r
    ensures forall c :: c in r[s] ==> MaskChar(c)
  {
    var i: nat :| i < |r| && r[s] == token + Digits(i);
    ExesAreMaskChars(n);
    DigitsAreDigits(i);
  }

  lemma ContainedChars(s: string, t: string, c: char)
    requires Contains(s, t) && c in t
    ensures c in s
  {
    var i :| 0 <= i <= |s| && OccursAt(s, t, i);
    var j :| 0 <= j < |t| && t[j] == c;
    assert s[i..i + |t|][j] == s[i + j];
  }

  /** A marker that no mask is made like, or without the token, is no mask. */
  lemma MarkerStays(r: Masks, token: string, marker: string, n: nat)
    requires NumberedFrom(r, token, |r|) && token == TOKEN + Exes(n)
    ensures !Contains(marker, TOKEN) || Telling(marker) ==> Unmask(r, marker) == marker
  {
    forall s {:trigger r[s]} | s in r && (!Contains(marker, TOKEN) || Telling(marker)) ensures r[s] != marker {
      MaskIsNoMarker(r, token, s, marker, n);
    }
  }

  lemma MaskIsNoMarker(r: Masks, token: string, s: string, marker: string, n: nat)
    requires NumberedFrom(r, token, |r|) && s in r && token == TOKEN + Exes(n)
    requires !Contains(marker, TOKEN) || Telling(marker)
    ensures r[s] != marker
  {
    MasksAreMaskChars(r, token, n, s);
    var i: nat :| i < |r| && r[s] == token + Digits(i);
    assert r[s][0..0 + |TOKEN|] == TOKEN;
    assert OccursAt(r[s], TOKEN, 0);
  }

  /** What a masked handler runs are masks. */
  lemma MaskedRunsMasks(h: Handler, r: Masks, s: string)
    requires Runs(MaskHandler(h, r), s)
    requires forall t :: Runs(h, t) ==> t in r
    ensures exists t :: t in r && r[t] == s
  {
    var m := MaskHandler(h, r);
    if f :| f in COMMAND_FIELDS && f in m && m[f] == Str(s) {
      assert Runs(h, Text(h[f]));
    } else {
      var i :| 0 <= i < |Args(m)| && Args(m)[i] == Str(s);
      assert Args(h)[i] in Args(h) && Args(h)[i].Str?;
      assert Runs(h, Args(h)[i].s);
    }
  }

  lemma MaskedHides(h: Handler, r: Masks, token: string, n: nat, marker: string)
    requires NumberedFrom(r, token, |r|) && token == TOKEN + Exes(n) && Telling(marker)
    requires forall t :: Runs(h, t) ==> t in r
    ensures !Shows(MaskHandler(h, r), marker)
  {
    var c :| c in marker && !MaskChar(c);
    forall s | Runs(MaskHandler(h, r), s) ensures !Contains(s, marker) {
      MaskedRunsMasks(h, r, s);
      var t :| t in r && r[t] == s;
      MasksAreMaskChars(r, token, n, t);
      if Contains(s, marker) {
        ContainedChars(s, marker, c);
      }
    }
  }

  lemma MarkedShows(h: Handler, field: string, marker: string)
    requires field in COMMAND_FIELDS && marker != ""
    ensures Shows(MarkHandler(h, field, marker), marker)
  {
    assert MarkHandler(h, field, marker)[field] == Str(marker);
    assert Runs(MarkHandler(h, field, marker), marker);
    assert marker[0..0 + |marker|] == marker;
    assert OccursAt(marker, marker, 0);
  }

  /** Masking bounds a substring search to the owned handlers. */
  lemma FoundAreOwned(doc: Json, staged: Json, entries: seq<Entry>, r: Masks, token: string, n: nat,
      field: string, marker: string)
    requires Placed(doc, entries) && field in COMMAND_FIELDS && Telling(marker)
    requires NumberedFrom(r, token, |r|) && token == TOKEN + Exes(n)
    requires forall s :: s in r <==> RunByFirst(doc, entries, |entries|, s)
    requires AllStaged(doc, staged, entries, |entries|, r, field, marker)
    ensures forall i :: 0 <= i < |entries| ==> (Shows(At(staged, entries[i].path), marker) <==> entries[i].owned)
  {
    forall i | 0 <= i < |entries| ensures Shows(At(staged, entries[i].path), marker) <==> entries[i].owned {
      var h := At(doc, entries[i].path);
      if entries[i].owned {
        MarkedShows(MaskHandler(h, r), field, marker);
      } else {
        forall s | Runs(h, s) ensures s in r {
          RunByEntry(doc, entries, |entries|, i, s);
        }
        MaskedHides(h, r, token, n, marker);
      }
    }
  }

  const PLACEHOLDER := "kata-owned-hook-placeholder"

  /** The marker used to uninstall differs from every mask and does not contain
      the token they begin with. */
  lemma PlaceholderIsNoMask()
    ensures Telling(PLACEHOLDER) && !Contains(PLACEHOLDER, TOKEN)
  {
    hide Telling, Contains;
    PlaceholderTells();
    PlaceholderChars();
    TokenChars();
    NoWindow(PLACEHOLDER, TOKEN);
  }

  lemma PlaceholderTells()
    ensures Telling(PLACEHOLDER)
  {
    assert PLACEHOLDER[6] == 'w';
    assert !MaskChar('w');
  }

  lemma PlaceholderChars()
    ensures |PLACEHOLDER| == 27 && PLACEHOLDER[5] == 'o'
    ensures PLACEHOLDER[1] != 'k' && PLACEHOLDER[2] != 'k' && PLACEHOLDER[3] != 'k' && PLACEHOLDER[4] != 'k'
    ensures PLACEHOLDER[6] != 'k' && PLACEHOLDER[7] != 'k'
  {
  }

  lemma TokenChars()
    ensures |TOKEN| == 20 && TOKEN[0] == 'k' && TOKEN[5] == 'p'
  {
  }

  /** Both strings begin with k, the longer has no other k where the shorter
      could start, and they differ soon after the start. */
  lemma NoWindow(s: string, t: string)
    requires |s| == 27 && |t| == 20 && t[0] == 'k' && t[5] == 'p'
    requires s[5] == 'o' && s[1] != 'k' && s[2] != 'k' && s[3] != 'k' && s[4] != 'k' && s[6] != 'k' && s[7] != 'k'
    ensures !Contains(s, t)
  {
    if Contains(s, t) {
      var i :| 0 <= i <= |s| && OccursAt(s, t, i);
      ContainedHere(s, t, i, 0);
      ContainedHere(s, t, i, 5);
    }
  }

  lemma ContainedHere(s: string, t: string, i: nat, j: nat)
    requires OccursAt(s, t, i) && j < |t|
    ensures s[i + j] == t[j]
  {
    assert s[i..i + |t|][j] == s[i + j];
  }

  const CONTRACT := "contract"
  const NATIVE := "attention-native "

  /** So do the markers used to install, whatever the agent and the kind. */
  lemma InstallMarkersTell(agent: string, kind: string)
    ensures Telling(CONTRACT) && Telling(NATIVE + agent + " " + kind)
  {
    assert !MaskChar('n');
    assert CONTRACT[2] == 'n' && NATIVE[4] == 'n';
    assert (NATIVE + agent + " " + kind)[4] == 'n';
  }
}
