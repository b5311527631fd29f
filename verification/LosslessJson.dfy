/** Lossless rewriting of a parsed JSON document (cmd/kata/agent_hooks_extra.go, renderExtraJSON). */
module LosslessJson {
  import opened Json
  import opened Options

  // A text is a concrete syntax tree: scalars keep their authored text, every
  // gap keeps its white space (sections 2, 4 and 5 of RFC 8259). Names and
  // scalars that the renderer writes itself are `Written` by the library.

  datatype Name = Authored(text: string, key: string) | Written(key: string)

  datatype Cst =
    | Scalar(text: string, value: Json)
    | Array(items: seq<Item>, blank: string)
    | Object(members: seq<Member>, blank: string)
    | Marshaled(value: Json)
    | Nothing // no bytes at all

  datatype Item = Item(before: string, child: Cst, after: string)

  datatype Member = Member(before: string, name: Name, gap: string, space: string, child: Cst, after: string)

  function Keys(members: seq<Member>): seq<string> {
    seq(|members|, i requires 0 <= i < |members| => members[i].name.key)
  }

  function Position(members: seq<Member>, key: string): (n: nat)
    ensures n <= |members|
    ensures n < |members| ==> members[n].name.key == key
    ensures forall i :: 0 <= i < n ==> members[i].name.key != key
  {
    if members == [] || members[0].name.key == key then 0 else 1 + Position(members[1..], key)
  }

  // ---------------------------------------------------------------------
  // What a text means
  // ---------------------------------------------------------------------

  /** The text is JSON. A missing value is a syntax error everywhere except as
      the only item of an array, where it leaves the text of an empty array. */
  predicate Valid(c: Cst) {
    match c
    case Scalar(_, v) => IsScalar(v)
    case Marshaled(_) => true
    case Nothing => false
    case Array(items, _) =>
      (|items| == 1 && items[0].child.Nothing?) || forall i :: 0 <= i < |items| ==> Valid(items[i].child)
    case Object(members, _) => Distinct(Keys(members)) && forall i :: 0 <= i < |members| ==> Valid(members[i].child)
  }

  /** The value of a valid text. */
  function Value(c: Cst): Json {
    match c
    case Scalar(_, v) => v
    case Marshaled(v) => v
    case Nothing => Null
    case Array(items, _) =>
      if |items| == 1 && items[0].child.Nothing? then Arr([])
      else Arr(seq(|items|, i requires 0 <= i < |items| => Value(items[i].child)))
    case Object(members, _) =>
      Obj(map k | k in Keys(members) && Position(members, k) < |members| :: Value(members[Position(members, k)].child))
  }

  /** Reading a text back. */
  function Read(c: Cst): Option<Json> {
    if Valid(c) then Some(Value(c)) else None
  }

  /** A text as it comes from a file. */
  predicate IsAuthored(c: Cst) {
    match c
    case Scalar(_, v) => IsScalar(v)
    case Marshaled(_) => false
    case Nothing => false
    case Array(items, _) => forall i :: 0 <= i < |items| ==> IsAuthored(items[i].child)
    case Object(members, _) =>
      Distinct(Keys(members)) && forall i :: 0 <= i < |members| ==>
        members[i].name.Authored? && IsAuthored(members[i].child)
  }

  lemma {:induction false} AuthoredIsValid(c: Cst)
    requires IsAuthored(c)
    ensures Valid(c)
  {
    match c
    case Array(items, _) =>
      forall i | 0 <= i < |items| ensures Valid(items[i].child) { AuthoredIsValid(items[i].child); }
    case Object(members, _) =>
      forall i | 0 <= i < |members| ensures Valid(members[i].child) { AuthoredIsValid(members[i].child); }
    case _ =>
  }

  // ---------------------------------------------------------------------
  // The renderer
  // ---------------------------------------------------------------------

  /** The old value beside a raw text: nil, that is JSON null, when there is none. */
  function OldValue(raw: Option<Cst>): Json {
    if raw.Some? then Value(raw.value) else Null
  }

  function ChildOf(raw: Option<Cst>, key: string): Option<Cst> {
    if raw.Some? && raw.value.Object? && Position(raw.value.members, key) < |raw.value.members| then
      Some(raw.value.members[Position(raw.value.members, key)].child)
    else None
  }

  /** The first item of the old array that equals `v`. */
  function SameItem(raw: Option<Cst>, v: Json, j: nat): Option<Cst>
    decreases if raw.Some? && raw.value.Array? then |raw.value.items| - j else 0
  {
    if raw.Some? && raw.value.Array? && j < |raw.value.items| then
      if Value(raw.value.items[j].child) == v then Some(raw.value.items[j].child) else SameItem(raw, v, j + 1)
    else None
  }

  function AuthoredKeys(raw: Option<Cst>): seq<string> {
    if raw.Some? && raw.value.Object? then Keys(raw.value.members) else []
  }

  /** extraJSONContainerSpacing: the white space after the opening bracket and
      before the closing one. */
  function Spacing(raw: Option<Cst>): (string, string) {
    if raw.None? then ("", "")
    else match raw.value
      case Object(members, blank) =>
        if members == [] then (blank, blank) else (members[0].before, members[|members| - 1].after)
      case Array(items, blank) => if items == [] then (blank, blank) else (items[0].before, items[|items| - 1].after)
      case _ => ("", "")
  }

  function Kept(keys: seq<string>, m: map<string, Json>): seq<string> {
    if keys == [] then []
    else Kept(keys[..|keys| - 1], m) + if keys[|keys| - 1] in m then [keys[|keys| - 1]] else []
  }

  /** Authored order first, then the added keys sorted. */
  ghost function Order(raw: Option<Cst>, m: map<string, Json>): seq<string> {
    Kept(AuthoredKeys(raw), m) + Sorted(Added(raw, m))
  }

  function Added(raw: Option<Cst>, m: map<string, Json>): set<string> {
    set k | k in m && k !in AuthoredKeys(raw)
  }

  function CloseObject(members: seq<Member>, closing: string): Cst {
    if members == [] then Object([], closing)
    else Object(members[..|members| - 1] + [members[|members| - 1].(after := closing)], "")
  }

  function CloseArray(items: seq<Item>, closing: string): Cst {
    if items == [] then Array([], closing)
    else Array(items[..|items| - 1] + [items[|items| - 1].(after := closing)], "")
  }

  /** renderExtraJSONValue. */
  ghost function Render(raw: Option<Cst>, v: Json): Cst
    decreases v
  {
    if OldValue(raw) == v then (if raw.Some? then raw.value else Nothing)
    else match v
      case Obj(m) => CloseObject(RenderMembers(raw, v, Order(raw, m)), Spacing(raw).1)
      case Arr(items) => CloseArray(RenderItems(raw, v, |items|), Spacing(raw).1)
      case _ => Marshaled(v)
  }

  /** The members for `keys`; keys that the value lacks are skipped. */
  ghost function RenderMembers(raw: Option<Cst>, v: Json, keys: seq<string>): (r: seq<Member>)
    requires v.Obj?
    decreases v, |keys|
  {
    if keys == [] then []
    else
      var front, key := keys[..|keys| - 1], keys[|keys| - 1];
      RenderMembers(raw, v, front) +
      if key in v.members then [WrittenMember(raw, key, Render(ChildOf(raw, key), v.members[key]))] else []
  }

  function WrittenMember(raw: Option<Cst>, key: string, child: Cst): Member {
    Member(Spacing(raw).0, Written(key), "", if Spacing(raw).0 != "" then " " else "", child, "")
  }

  /** The first `n` items. */
  ghost function RenderItems(raw: Option<Cst>, v: Json, n: nat): (r: seq<Item>)
    requires v.Arr? && n <= |v.items|
    ensures |r| == n
    decreases v, n
  {
    if n == 0 then []
    else
      var last := v.items[n - 1];
      RenderItems(raw, v, n - 1) + [Item(Spacing(raw).0, Render(SameItem(raw, last, 0), last), "")]
  }

  /** renderExtraJSONValue with its loops. */
  method RenderExtraJSONValue(raw: Option<Cst>, value: Json) returns (r: Cst)
    ensures r == Render(raw, value)
    decreases value
  {
    hide Render, RenderMembers, RenderItems, CloseObject, CloseArray, Spacing, Value, Order, AuthoredKeys, Added;
    if OldValue(raw) == value {
      RenderedSame(raw, value);
      return if raw.Some? then raw.value else Nothing;
    }
    RenderedOther(raw, value);
    match value {
      case Obj(fields) =>
        var added := SortStrings(Added(raw, fields));
        SkippedKeys(raw, value);
        var members := WriteMembers(raw, value, AuthoredKeys(raw) + added);
        r := CloseObject(members, Spacing(raw).1);
      case Arr(elements) =>
        var items := WriteItems(raw, value);
        r := CloseArray(items, Spacing(raw).1);
      case _ =>
        r := Marshaled(value);
    }
  }

  lemma RenderedSame(raw: Option<Cst>, v: Json)
    requires OldValue(raw) == v
    ensures Render(raw, v) == if raw.Some? then raw.value else Nothing
  {
  }

  lemma RenderedOther(raw: Option<Cst>, v: Json)
    requires OldValue(raw) != v
    ensures v.Obj? ==> Render(raw, v) == CloseObject(RenderMembers(raw, v, Order(raw, v.members)), Spacing(raw).1)
    ensures v.Arr? ==> Render(raw, v) == CloseArray(RenderItems(raw, v, |v.items|), Spacing(raw).1)
    ensures IsScalar(v) ==> Render(raw, v) == Marshaled(v)
  {
    hide RenderMembers, RenderItems, Order, CloseObject, CloseArray, Spacing, Value;
  }

  method WriteMembers(raw: Option<Cst>, value: Json, order: seq<string>) returns (members: seq<Member>)
    requires value.Obj?
    ensures members == RenderMembers(raw, value, order)
    decreases value, 0
  {
    members := [];
    for i := 0 to |order|
      invariant members == RenderMembers(raw, value, order[..i])
    {
      var key := order[i];
      assert order[..i + 1][..i] == order[..i];
      if key in value.members {
        var child := RenderExtraJSONValue(ChildOf(raw, key), value.members[key]);
        members := members + [WrittenMember(raw, key, child)];
      }
    }
    assert order[..|order|] == order;
  }

  method WriteItems(raw: Option<Cst>, value: Json) returns (items: seq<Item>)
    requires value.Arr?
    ensures items == RenderItems(raw, value, |value.items|)
    decreases value, 0
  {
    items := [];
    for i := 0 to |value.items|
      invariant items == RenderItems(raw, value, i)
    {
      var same := SameItem(raw, value.items[i], 0);
      var child := RenderExtraJSONValue(same, value.items[i]);
      items := items + [Item(Spacing(raw).0, child, "")];
    }
  }

  lemma {:induction false} MembersConcat(raw: Option<Cst>, v: Json, x: seq<string>, y: seq<string>)
    requires v.Obj?
    ensures RenderMembers(raw, v, x + y) == RenderMembers(raw, v, x) + RenderMembers(raw, v, y)
    decreases |y|
  {
    if y == [] {
      assert x + y == x;
    } else {
      var n := |y| - 1;
      assert (x + y)[..|x| + n] == x + y[..n];
      MembersConcat(raw, v, x, y[..n]);
    }
  }

  lemma {:induction false} MembersOfKept(raw: Option<Cst>, v: Json, keys: seq<string>)
    requires v.Obj?
    ensures RenderMembers(raw, v, keys) == RenderMembers(raw, v, Kept(keys, v.members))
    decreases |keys|
  {
    if keys != [] {
      var n := |keys| - 1;
      MembersOfKept(raw, v, keys[..n]);
      MembersConcat(raw, v, Kept(keys[..n], v.members), if keys[n] in v.members then [keys[n]] else []);
      assert [keys[n]][..0] == [];
    }
  }

  /** Skipping the keys that are gone is the same as not listing them. */
  lemma SkippedKeys(raw: Option<Cst>, v: Json)
    requires v.Obj?
    ensures RenderMembers(raw, v, AuthoredKeys(raw) + Sorted(Added(raw, v.members)))
      == RenderMembers(raw, v, Order(raw, v.members))
  {
    var keys, added := AuthoredKeys(raw), Sorted(Added(raw, v.members));
    MembersConcat(raw, v, keys, added);
    MembersConcat(raw, v, Kept(keys, v.members), added);
    MembersOfKept(raw, v, keys);
  }

  // ---------------------------------------------------------------------
  // What it promises
  // ---------------------------------------------------------------------

  /** The new value adds no JSON null where the original had no member, and none
      to an array whose original held no null: a condition on the two values
      that a caller can test. */
  predicate NoAddedNull(before: Option<Json>, v: Json)
    decreases v
  {
    before == Some(v) ||
    match v
    case Null => before.Some?
    case Obj(m) => forall k :: k in m ==> NoAddedNull(MemberOf(before, k), m[k])
    case Arr(items) => forall i :: 0 <= i < |items| ==> HasItem(before, items[i]) || NoAddedNull(None, items[i])
    case _ => true
  }

  function MemberOf(before: Option<Json>, key: string): Option<Json> {
    if before.Some? && before.value.Obj? && key in before.value.members then Some(before.value.members[key]) else None
  }

  predicate HasItem(before: Option<Json>, v: Json) {
    before.Some? && before.value.Arr? && v in before.value.items
  }

  function ValueOf(raw: Option<Cst>): Option<Json> {
    if raw.Some? then Some(Value(raw.value)) else None
  }

  ghost predicate AuthoredOrNone(raw: Option<Cst>) {
    raw.Some? ==> IsAuthored(raw.value)
  }

  lemma {:induction false} PositionOf(members: seq<Member>, i: nat)
    requires i < |members| && Distinct(Keys(members))
    ensures Position(members, members[i].name.key) == i
  {
    var p := Position(members, members[i].name.key);
    assert p <= i;
    assert Keys(members)[p] == members[p].name.key == members[i].name.key == Keys(members)[i];
  }

  lemma ChildValue(raw: Option<Cst>, key: string)
    requires AuthoredOrNone(raw)
    ensures AuthoredOrNone(ChildOf(raw, key)) && ValueOf(ChildOf(raw, key)) == MemberOf(ValueOf(raw), key)
  {
    if raw.Some? && raw.value.Object? {
      var members := raw.value.members;
      var p := Position(members, key);
      if p < |members| {
        assert Keys(members)[p] == key;
      }
    }
  }

  lemma {:induction false} SameItemValue(raw: Option<Cst>, v: Json, j: nat)
    requires AuthoredOrNone(raw)
    ensures AuthoredOrNone(SameItem(raw, v, j))
    ensures SameItem(raw, v, j).Some? ==> Value(SameItem(raw, v, j).value) == v
    ensures raw.Some? && raw.value.Array? ==>
              (SameItem(raw, v, j).Some? <==>
                exists i :: j <= i < |raw.value.items| && Value(raw.value.items[i].child) == v)
    ensures !(raw.Some? && raw.value.Array?) ==> SameItem(raw, v, j).None?
    decreases if raw.Some? && raw.value.Array? then |raw.value.items| - j else 0
  {
    if raw.Some? && raw.value.Array? && j < |raw.value.items| {
      SameItemValue(raw, v, j + 1);
    }
  }

  lemma SameItemIs(raw: Option<Cst>, v: Json)
    requires AuthoredOrNone(raw)
    ensures AuthoredOrNone(SameItem(raw, v, 0))
    ensures ValueOf(SameItem(raw, v, 0)) == if HasItem(ValueOf(raw), v) then Some(v) else None
  {
    SameItemValue(raw, v, 0);
    if raw.Some? && raw.value.Array? {
      var items := raw.value.items;
      assert |items| == 1 ==> IsAuthored(items[0].child);
      var values := Value(raw.value).items;
      assert |values| == |items| && forall i :: 0 <= i < |items| ==> values[i] == Value(items[i].child);
      if v in values {
        var i :| 0 <= i < |values| && values[i] == v;
        assert Value(items[i].child) == v;
      }
      if SameItem(raw, v, 0).Some? {
        var i :| 0 <= i < |items| && Value(items[i].child) == v;
        assert values[i] == v;
      }
    }
  }

  lemma {:induction false} KeptIs(keys: seq<string>, m: map<string, Json>)
    ensures forall k :: k in Kept(keys, m) <==> k in keys && k in m
    ensures Distinct(keys) ==> Distinct(Kept(keys, m))
  {
    if keys != [] {
      var n := |keys| - 1;
      KeptIs(keys[..n], m);
      assert keys == keys[..n] + [keys[n]];
      if Distinct(keys) {
        assert keys[n] !in keys[..n];
      }
    }
  }

  lemma OrderIs(raw: Option<Cst>, m: map<string, Json>)
    requires AuthoredOrNone(raw)
    ensures Distinct(Order(raw, m)) && forall k :: k in Order(raw, m) <==> k in m
  {
    var kept, added := Kept(AuthoredKeys(raw), m), Sorted(Added(raw, m));
    KeptIs(AuthoredKeys(raw), m);
    SortedIs(Added(raw, m));
    AscendingIsDistinct(added);
    assert forall i, j :: 0 <= i < |kept| && 0 <= j < |added| ==> kept[i] in kept && added[j] in added;
  }

  /** Member `i` writes the child of `keys[i]`. */
  ghost predicate Writes(m: Member, raw: Option<Cst>, v: Json, key: string)
    requires v.Obj? && key in v.members
  {
    m.name == Written(key) && m.child == Render(ChildOf(raw, key), v.members[key])
  }

  lemma {:induction false} MembersAre(raw: Option<Cst>, v: Json, keys: seq<string>)
    requires v.Obj? && forall i :: 0 <= i < |keys| ==> keys[i] in v.members
    ensures |RenderMembers(raw, v, keys)| == |keys|
    ensures forall i :: 0 <= i < |keys| ==> Writes(RenderMembers(raw, v, keys)[i], raw, v, keys[i])
    decreases |keys|
  {
    if keys != [] {
      var n := |keys| - 1;
      MembersAre(raw, v, keys[..n]);
      var front := RenderMembers(raw, v, keys[..n]);
      var last := WrittenMember(raw, keys[n], Render(ChildOf(raw, keys[n]), v.members[keys[n]]));
      assert RenderMembers(raw, v, keys) == front + [last];
      forall i | 0 <= i < |keys| ensures Writes((front + [last])[i], raw, v, keys[i]) {
        if i < n {
          assert Writes(front[i], raw, v, keys[..n][i]);
        }
      }
    }
  }

  lemma {:induction false} ItemsAre(raw: Option<Cst>, v: Json, n: nat)
    requires v.Arr? && n <= |v.items|
    ensures var items := RenderItems(raw, v, n);
            forall i :: 0 <= i < n ==> items[i].child == Render(SameItem(raw, v.items[i], 0), v.items[i])
  {
    hide Render, SameItem, Spacing;
    if n > 0 {
      ItemsAre(raw, v, n - 1);
    }
  }

  lemma ObjectValue(members: seq<Member>, blank: string)
    requires Distinct(Keys(members))
    ensures Value(Object(members, blank)).Obj?
    ensures var read := Value(Object(members, blank)).members;
            (forall k :: k in read <==> k in Keys(members)) &&
            forall i :: 0 <= i < |members| ==>
              members[i].name.key in read && read[members[i].name.key] == Value(members[i].child)
  {
    var read := Value(Object(members, blank)).members;
    forall i | 0 <= i < |members|
      ensures members[i].name.key in read && read[members[i].name.key] == Value(members[i].child)
    {
      PositionOf(members, i);
      assert Keys(members)[i] == members[i].name.key;
    }
    forall k | k in Keys(members) ensures k in read {
      var i :| 0 <= i < |members| && Keys(members)[i] == k;
    }
  }

  lemma CloseKeeps(members: seq<Member>, closing: string)
    ensures var closed := CloseObject(members, closing);
            closed.Object? && Keys(closed.members) == Keys(members) &&
            forall i :: 0 <= i < |members| ==>
              closed.members[i].child == members[i].child && closed.members[i].name == members[i].name
  {
  }

  ghost predicate ReadsAs(member: Member, m: map<string, Json>) {
    member.name.key in m && Read(member.child) == Some(m[member.name.key])
  }

  /** An object reads as `m` if each member reads as its value ... */
  lemma ObjectReadsIf(members: seq<Member>, blank: string, m: map<string, Json>)
    requires Distinct(Keys(members)) && forall k :: k in Keys(members) <==> k in m
    requires forall i :: 0 <= i < |members| ==> ReadsAs(members[i], m)
    ensures Read(Object(members, blank)) == Some(Obj(m))
  {
    MembersValid(members, m);
    ObjectValueIs(members, blank, m);
  }

  lemma ObjectValueIs(members: seq<Member>, blank: string, m: map<string, Json>)
    requires Distinct(Keys(members)) && forall k :: k in Keys(members) <==> k in m
    requires forall i :: 0 <= i < |members| ==> ReadsAs(members[i], m)
    ensures Value(Object(members, blank)) == Obj(m)
  {
    hide Valid, Value, Position;
    ObjectValue(members, blank);
    var read := Value(Object(members, blank)).members;
    forall k | k in m ensures k in read && read[k] == m[k] {
      var i :| 0 <= i < |members| && Keys(members)[i] == k;
      assert ReadsAs(members[i], m);
    }
    assert read == m;
  }

  lemma MembersValid(members: seq<Member>, m: map<string, Json>)
    requires forall i :: 0 <= i < |members| ==> ReadsAs(members[i], m)
    ensures forall i :: 0 <= i < |members| ==> Valid(members[i].child)
  {
    forall i | 0 <= i < |members| ensures Valid(members[i].child) {
      assert ReadsAs(members[i], m);
    }
  }

  /** ... and only if. */
  lemma ObjectReadsOnlyIf(members: seq<Member>, blank: string, m: map<string, Json>, i: nat)
    requires Read(Object(members, blank)) == Some(Obj(m)) && i < |members|
    ensures ReadsAs(members[i], m)
  {
    ObjectValue(members, blank);
  }

  lemma ArrayReads(items: seq<Item>, blank: string, vs: seq<Json>)
    requires |items| == |vs|
    ensures Read(Array(items, blank)) == Some(Arr(vs)) <==>
            forall i :: 0 <= i < |items| ==> Read(items[i].child) == Some(vs[i])
  {
    var c := Array(items, blank);
    if |items| == 1 && items[0].child.Nothing? {
      assert Read(items[0].child) == None;
      assert Value(c) == Arr([]) && |Arr([]).items| != |vs|;
    } else {
      var read := Value(c).items;
      assert |read| == |items| && forall i :: 0 <= i < |items| ==> read[i] == Value(items[i].child);
      if forall i :: 0 <= i < |items| ==> Read(items[i].child) == Some(vs[i]) {
        ItemsValid(items, vs);
        assert read == vs;
      }
    }
  }

  lemma ItemsValid(items: seq<Item>, vs: seq<Json>)
    requires |items| == |vs| && forall i :: 0 <= i < |items| ==> Read(items[i].child) == Some(vs[i])
    ensures forall i :: 0 <= i < |items| ==> Valid(items[i].child)
  {
    forall i | 0 <= i < |items| ensures Valid(items[i].child) {
      assert Read(items[i].child) == Some(vs[i]);
    }
  }

  lemma ClosedArrayReads(items: seq<Item>, closing: string, vs: seq<Json>)
    requires |items| == |vs|
    ensures Read(CloseArray(items, closing)) == Some(Arr(vs)) <==>
            forall i :: 0 <= i < |items| ==> Read(items[i].child) == Some(vs[i])
  {
    var closed := CloseArray(items, closing).items;
    assert |closed| == |items| && forall i :: 0 <= i < |items| ==> closed[i].child == items[i].child;
    ArrayReads(closed, CloseArray(items, closing).blank, vs);
  }

  /** The rendered text reads back as the new value exactly when that value adds
      no null where there was nothing. */
  lemma {:induction false} RenderReads(raw: Option<Cst>, v: Json)
    requires AuthoredOrNone(raw)
    ensures Read(Render(raw, v)) == Some(v) <==> NoAddedNull(ValueOf(raw), v)
    decreases v, 2
  {
    hide Read, Render, RenderMembers, RenderItems, Order, Value, CloseObject, CloseArray, Spacing;
    if OldValue(raw) == v {
      UnchangedReads(raw, v);
    } else if v.Obj? {
      RenderedObject(raw, v);
      RenderObjectReads(raw, v);
    } else if v.Arr? {
      RenderedArray(raw, v);
      RenderArrayReads(raw, v);
    } else {
      RenderedScalar(raw, v);
    }
  }

  lemma RenderedArray(raw: Option<Cst>, v: Json)
    requires v.Arr? && OldValue(raw) != v
    ensures Render(raw, v) == CloseArray(RenderItems(raw, v, |v.items|), Spacing(raw).1)
  {
    hide RenderItems;
  }

  lemma RenderedScalar(raw: Option<Cst>, v: Json)
    requires IsScalar(v) && OldValue(raw) != v
    ensures Read(Render(raw, v)) == Some(v)
  {
  }

  lemma UnchangedReads(raw: Option<Cst>, v: Json)
    requires AuthoredOrNone(raw) && OldValue(raw) == v
    ensures Read(Render(raw, v)) == Some(v) <==> NoAddedNull(ValueOf(raw), v)
  {
    if raw.Some? {
      AuthoredIsValid(raw.value);
    }
  }

  lemma {:induction false} RenderObjectReads(raw: Option<Cst>, v: Json)
    requires AuthoredOrNone(raw) && v.Obj?
    ensures Read(CloseObject(RenderMembers(raw, v, Order(raw, v.members)), Spacing(raw).1)) == Some(v) <==>
            forall k :: k in v.members ==> NoAddedNull(MemberOf(ValueOf(raw), k), v.members[k])
    decreases v, 1
  {
    var m := v.members;
    var keys := Order(raw, m);
    var ms := RenderMembers(raw, v, keys);
    OrderIs(raw, m);
    RenderedKeys(raw, v);
    ClosedObjectReads(ms, Spacing(raw).1, m);
    forall i | 0 <= i < |keys| ensures ReadsAs(ms[i], m) <==> NoAddedNull(MemberOf(ValueOf(raw), keys[i]), m[keys[i]]) {
      MemberReads(ms[i], raw, v, keys[i]);
    }
    EveryKey(keys, m, k requires k in m => NoAddedNull(MemberOf(ValueOf(raw), k), m[k]));
  }

  lemma EveryKey(keys: seq<string>, m: map<string, Json>, p: string --> bool)
    requires forall k :: k in keys <==> k in m
    requires forall k :: k in m ==> p.requires(k)
    ensures (forall i :: 0 <= i < |keys| ==> p(keys[i])) <==> forall k :: k in m ==> p(k)
  {
    if forall i :: 0 <= i < |keys| ==> p(keys[i]) {
      forall k | k in m ensures p(k) {
        var i :| 0 <= i < |keys| && keys[i] == k;
      }
    }
    assert forall i :: 0 <= i < |keys| ==> keys[i] in m by {
      assert forall i :: 0 <= i < |keys| ==> keys[i] in keys;
    }
  }

  lemma {:induction false} MemberReads(member: Member, raw: Option<Cst>, v: Json, key: string)
    requires AuthoredOrNone(raw) && v.Obj? && key in v.members && Writes(member, raw, v, key)
    ensures ReadsAs(member, v.members) <==> NoAddedNull(MemberOf(ValueOf(raw), key), v.members[key])
    decreases v, 0
  {
    ChildValue(raw, key);
    RenderReads(ChildOf(raw, key), v.members[key]);
  }

  lemma RenderedKeys(raw: Option<Cst>, v: Json)
    requires AuthoredOrNone(raw) && v.Obj?
    ensures |RenderMembers(raw, v, Order(raw, v.members))| == |Order(raw, v.members)|
    ensures Keys(RenderMembers(raw, v, Order(raw, v.members))) == Order(raw, v.members)
    ensures forall i :: 0 <= i < |Order(raw, v.members)| ==>
              Order(raw, v.members)[i] in v.members &&
              Writes(RenderMembers(raw, v, Order(raw, v.members))[i], raw, v, Order(raw, v.members)[i])
  {
    OrderIs(raw, v.members);
    KeysOfMembers(raw, v, Order(raw, v.members));
  }

  lemma KeysOfMembers(raw: Option<Cst>, v: Json, keys: seq<string>)
    requires v.Obj? && forall k :: k in keys ==> k in v.members
    ensures |RenderMembers(raw, v, keys)| == |keys| && Keys(RenderMembers(raw, v, keys)) == keys
    ensures forall i :: 0 <= i < |keys| ==>
      keys[i] in v.members && Writes(RenderMembers(raw, v, keys)[i], raw, v, keys[i])
  {
    assert forall i :: 0 <= i < |keys| ==> keys[i] in keys;
    MembersAre(raw, v, keys);
    var ms := RenderMembers(raw, v, keys);
    forall i | 0 <= i < |keys| ensures Keys(ms)[i] == keys[i] {
      assert Writes(ms[i], raw, v, keys[i]);
    }
  }

  lemma ClosedObjectReads(members: seq<Member>, closing: string, m: map<string, Json>)
    requires Distinct(Keys(members)) && forall k :: k in Keys(members) <==> k in m
    ensures Read(CloseObject(members, closing)) == Some(Obj(m)) <==>
      forall i :: 0 <= i < |members| ==> ReadsAs(members[i], m)
  {
    CloseKeeps(members, closing);
    var closed := CloseObject(members, closing);
    assert |closed.members| == |members| by { assert |Keys(closed.members)| == |Keys(members)|; }
    if forall i :: 0 <= i < |members| ==> ReadsAs(members[i], m) {
      forall i | 0 <= i < |members| ensures ReadsAs(closed.members[i], m) { assert ReadsAs(members[i], m); }
      ObjectReadsIf(closed.members, closed.blank, m);
    }
    if Read(closed) == Some(Obj(m)) {
      forall i | 0 <= i < |members| ensures ReadsAs(members[i], m) {
        ObjectReadsOnlyIf(closed.members, closed.blank, m, i);
      }
    }
  }

  lemma {:induction false} RenderArrayReads(raw: Option<Cst>, v: Json)
    requires AuthoredOrNone(raw) && v.Arr?
    ensures Read(CloseArray(RenderItems(raw, v, |v.items|), Spacing(raw).1)) == Some(v) <==>
            forall i :: 0 <= i < |v.items| ==> HasItem(ValueOf(raw), v.items[i]) || NoAddedNull(None, v.items[i])
    decreases v, 1
  {
    var items := RenderItems(raw, v, |v.items|);
    ItemsAre(raw, v, |v.items|);
    ClosedArrayReads(items, Spacing(raw).1, v.items);
    forall i | 0 <= i < |v.items|
      ensures Read(items[i].child) == Some(v.items[i]) <==>
        HasItem(ValueOf(raw), v.items[i]) || NoAddedNull(None, v.items[i])
    {
      SameItemIs(raw, v.items[i]);
      RenderReads(SameItem(raw, v.items[i], 0), v.items[i]);
    }
  }

  // ---------------------------------------------------------------------
  // What is kept
  // ---------------------------------------------------------------------

  lemma ChildOfClosed(members: seq<Member>, closing: string, i: nat)
    requires Distinct(Keys(members)) && i < |members|
    ensures ChildOf(Some(CloseObject(members, closing)), members[i].name.key) == Some(members[i].child)
  {
    CloseKeeps(members, closing);
    var closed := CloseObject(members, closing).members;
    assert |closed| == |members| by { assert |Keys(closed)| == |Keys(members)|; }
    PositionOf(closed, i);
  }

  lemma ChildOfWritten(raw: Option<Cst>, v: Json, ms: seq<Member>, keys: seq<string>, closing: string, key: string)
    requires v.Obj? && Keys(ms) == keys && |ms| == |keys| && Distinct(keys) && key in keys && key in v.members
    requires forall i :: 0 <= i < |keys| ==> keys[i] in v.members && Writes(ms[i], raw, v, keys[i])
    ensures ChildOf(Some(CloseObject(ms, closing)), key) == Some(Render(ChildOf(raw, key), v.members[key]))
  {
    var i :| 0 <= i < |keys| && keys[i] == key;
    assert Writes(ms[i], raw, v, keys[i]);
    ChildOfClosed(ms, closing, i);
  }

  /** The rendered child of a member. */
  lemma RenderedChild(raw: Option<Cst>, v: Json, key: string)
    requires AuthoredOrNone(raw) && v.Obj? && key in v.members && OldValue(raw) != v
    ensures ChildOf(Some(Render(raw, v)), key) == Some(Render(ChildOf(raw, key), v.members[key]))
  {
    hide Render, RenderMembers, Order, CloseObject, ChildOf;
    var keys := Order(raw, v.members);
    RenderedObject(raw, v);
    OrderIs(raw, v.members);
    RenderedKeys(raw, v);
    ChildOfWritten(raw, v, RenderMembers(raw, v, keys), keys, Spacing(raw).1, key);
  }

  lemma RenderedObject(raw: Option<Cst>, v: Json)
    requires v.Obj? && OldValue(raw) != v
    ensures Render(raw, v) == CloseObject(RenderMembers(raw, v, Order(raw, v.members)), Spacing(raw).1)
  {
    hide RenderMembers, Order;
  }

  datatype Leg = Key(k: string) | Index(i: nat)

  /** The value at a path of names and indices. */
  function ValueAt(v: Json, path: seq<Leg>): Option<Json> {
    if path == [] then Some(v)
    else match path[0]
      case Key(k) => if v.Obj? && k in v.members then ValueAt(v.members[k], path[1..]) else None
      case Index(i) => if v.Arr? && i < |v.items| then ValueAt(v.items[i], path[1..]) else None
  }

  function ItemOf(c: Cst, i: nat): Option<Cst> {
    if c.Array? && i < |c.items| then Some(c.items[i].child) else None
  }

  function Below(c: Cst, leg: Leg): Option<Cst> {
    match leg
    case Key(k) => ChildOf(Some(c), k)
    case Index(i) => ItemOf(c, i)
  }

  /** The text at a path. */
  function TextAt(c: Cst, path: seq<Leg>): Option<Cst> {
    if path == [] then Some(c)
    else if Below(c, path[0]).Some? then TextAt(Below(c, path[0]).value, path[1..])
    else None
  }

  /** In an authored text every value stands at its path. */
  lemma {:induction false} TextOfValue(c: Cst, path: seq<Leg>)
    requires IsAuthored(c) && ValueAt(Value(c), path).Some?
    ensures var t := TextAt(c, path); t.Some? && IsAuthored(t.value) && ValueAt(Value(c), path) == Some(Value(t.value))
    decreases |path|
  {
    if path != [] {
      BelowIsAuthored(c, path[0], path[1..]);
      TextOfValue(Below(c, path[0]).value, path[1..]);
    }
  }

  lemma BelowIsAuthored(c: Cst, leg: Leg, rest: seq<Leg>)
    requires IsAuthored(c) && ValueAt(Value(c), [leg] + rest).Some?
    ensures var b := Below(c, leg);
      b.Some? && IsAuthored(b.value) && ValueAt(Value(c), [leg] + rest) == ValueAt(Value(b.value), rest)
  {
    assert ([leg] + rest)[1..] == rest;
    match leg
    case Key(k) => ChildValue(Some(c), k);
    case Index(i) =>
      assert |c.items| == 1 ==> IsAuthored(c.items[0].child);
  }

  /** Brackets and braces without anything in or around them. */
  predicate Brackets(c: Cst) {
    match c
    case Array(items, blank) =>
      blank == "" && forall i :: 0 <= i < |items| ==>
        items[i].before == "" && items[i].after == "" && Brackets(items[i].child)
    case Object(members, blank) => members == [] && blank == ""
    case _ => false
  }

  /** Where the original text of an unchanged subtree is found again: below
      names as long as only objects change; below a changed array, if the whole
      item occurs in the old array and its first occurrence has the same text
      at the rest of the path. Everything inside an item that does not occur is
      written anew, which makes no difference to bare brackets only. */
  predicate Survives(c: Cst, v: Json, path: seq<Leg>, text: Cst)
    decreases |path|
  {
    if Value(c) == v || path == [] then TextAt(c, path) == Some(text)
    else match path[0]
      case Key(k) =>
        v.Obj? && k in v.members && ChildOf(Some(c), k).Some? &&
          Survives(ChildOf(Some(c), k).value, v.members[k], path[1..], text)
      case Index(i) =>
        v.Arr? && i < |v.items| &&
        match SameItem(Some(c), v.items[i], 0)
        case Some(first) => TextAt(first, path[1..]) == Some(text)
        case None => Brackets(text)
  }

  /** What a changed array writes for an item. */
  lemma RenderedItem(raw: Option<Cst>, v: Json, i: nat)
    requires v.Arr? && OldValue(raw) != v && i < |v.items|
    ensures ItemOf(Render(raw, v), i) == Some(Render(SameItem(raw, v.items[i], 0), v.items[i]))
  {
    ItemsAre(raw, v, |v.items|);
    var items := RenderItems(raw, v, |v.items|);
    assert CloseArray(items, Spacing(raw).1).items[i].child == items[i].child;
  }

  /** Inside a value that is written anew, everything is. */
  lemma {:induction false} NewTextAt(v: Json, path: seq<Leg>)
    requires ValueAt(v, path).Some?
    ensures TextAt(Render(None, v), path) == Some(Render(None, ValueAt(v, path).value))
    decreases |path|
  {
    if path != [] {
      match path[0]
      case Key(k) =>
        RenderedChild(None, v, k);
        NewTextAt(v.members[k], path[1..]);
      case Index(i) =>
        RenderedItem(None, v, i);
        NewTextAt(v.items[i], path[1..]);
    }
  }

  /** A text written anew is the authored one exactly if that is all brackets. */
  lemma {:induction false} NewTextIs(text: Cst)
    requires IsAuthored(text)
    ensures Render(None, Value(text)) == text <==> Brackets(text)
    decreases text
  {
    match text
    case Object(members, blank) => NewObjectIs(members, blank);
    case Array(items, blank) =>
      forall i | 0 <= i < |items|
        ensures Render(None, Value(items[i].child)) == items[i].child <==> Brackets(items[i].child)
      {
        NewTextIs(items[i].child);
      }
      NewArrayIs(items, blank);
    case _ =>
  }

  lemma NewObjectIs(members: seq<Member>, blank: string)
    requires IsAuthored(Object(members, blank))
    ensures Render(None, Value(Object(members, blank))) == Object(members, blank) <==> members == [] && blank == ""
  {
    hide Render, RenderMembers, Order, IsAuthored, Value, Position, Sorted, Kept;
    var v := Value(Object(members, blank));
    AuthoredNames(members, blank);
    ObjectValue(members, blank);
    RenderedObject(None, v);
    OrderIs(None, v.members);
    RenderedKeys(None, v);
    var keys, written := Order(None, v.members), RenderMembers(None, v, Order(None, v.members));
    assert keys != [] ==> keys[0] in keys;
    if members != [] {
      assert Keys(members)[0] in Keys(members) && Keys(members)[0] in keys;
      assert Writes(written[0], None, v, keys[0]);
      CloseKeeps(written, "");
      assert Keys(CloseObject(written, "").members) == Keys(written);
      assert |Keys(written)| > 0;
    }
  }

  lemma AuthoredNames(members: seq<Member>, blank: string)
    requires IsAuthored(Object(members, blank))
    ensures Value(Object(members, blank)).Obj? && Distinct(Keys(members))
    ensures forall i :: 0 <= i < |members| ==> members[i].name.Authored?
  {
  }

  lemma NewArrayIs(items: seq<Item>, blank: string)
    requires IsAuthored(Array(items, blank))
    requires forall i :: 0 <= i < |items| ==>
      (Render(None, Value(items[i].child)) == items[i].child <==> Brackets(items[i].child))
    ensures Render(None, Value(Array(items, blank))) == Array(items, blank) <==> Brackets(Array(items, blank))
  {
    hide Render, RenderItems, IsAuthored, Value;
    var v := Value(Array(items, blank));
    ItemValues(items, blank);
    RenderedArray(None, v);
    NewItemsAre(v, |items|);
    ClosedItems(RenderItems(None, v, |items|), items);
  }

  lemma ItemValues(items: seq<Item>, blank: string)
    requires IsAuthored(Array(items, blank))
    ensures var v := Value(Array(items, blank));
      v.Arr? && |v.items| == |items| && forall i :: 0 <= i < |items| ==> v.items[i] == Value(items[i].child)
  {
    assert |items| == 1 ==> IsAuthored(items[0].child);
  }

  lemma ClosedItems(written: seq<Item>, items: seq<Item>)
    requires |written| == |items|
    requires forall i :: 0 <= i < |items| ==> written[i].before == "" && written[i].after == ""
    ensures CloseArray(written, "") == Array(items, "") <==>
      forall i :: 0 <= i < |items| ==>
        written[i].child == items[i].child && items[i].before == "" && items[i].after == ""
    ensures CloseArray(written, "").blank == ""
  {
    var closed := CloseArray(written, "").items;
    assert closed == written;
    if closed == items {
      assert forall i :: 0 <= i < |items| ==> closed[i] == items[i];
    }
  }

  lemma {:induction false} NewItemsAre(v: Json, n: nat)
    requires v.Arr? && n <= |v.items|
    ensures forall i :: 0 <= i < n ==> RenderItems(None, v, n)[i] == Item("", Render(None, v.items[i]), "")
  {
    if n > 0 {
      NewItemsAre(v, n - 1);
    }
  }

  /** Every subtree that the new value leaves as it was keeps its own text, byte
      for byte, exactly if that text survives. */
  lemma {:induction false} UnchangedSubtreeKeepsItsText(c: Cst, v: Json, path: seq<Leg>)
    requires IsAuthored(c)
    requires ValueAt(v, path).Some? && ValueAt(v, path) == ValueAt(Value(c), path)
    ensures TextAt(c, path).Some?
    ensures TextAt(Render(Some(c), v), path) == TextAt(c, path) <==> Survives(c, v, path, TextAt(c, path).value)
    decreases |path|
  {
    TextOfValue(c, path);
    if path != [] && Value(c) != v {
      var rest := path[1..];
      assert [path[0]] + rest == path;
      BelowIsAuthored(c, path[0], rest);
      match path[0]
      case Key(k) =>
        RenderedChild(Some(c), v, k);
        UnchangedSubtreeKeepsItsText(Below(c, path[0]).value, v.members[k], rest);
      case Index(i) =>
        RenderedItem(Some(c), v, i);
        BelowItem(c, v.items[i], rest, TextAt(c, path).value);
    }
  }

  /** Below an item of a changed array. */
  lemma BelowItem(c: Cst, item: Json, rest: seq<Leg>, text: Cst)
    requires IsAuthored(c) && IsAuthored(text) && ValueAt(item, rest) == Some(Value(text))
    ensures TextAt(Render(SameItem(Some(c), item, 0), item), rest) == Some(text) <==>
      match SameItem(Some(c), item, 0)
      case Some(first) => TextAt(first, rest) == Some(text)
      case None => Brackets(text)
  {
    SameItemValue(Some(c), item, 0);
    if SameItem(Some(c), item, 0).None? {
      NewTextAt(item, rest);
      NewTextIs(text);
    }
  }

  lemma SameIsKept(c: Cst, v: Json)
    ensures Value(c) == v ==> Render(Some(c), v) == c
  {
  }

  /** In particular, text is never lost below changed objects alone. */
  lemma {:induction false} NamesAloneKeepTheText(c: Cst, v: Json, path: seq<Leg>)
    requires IsAuthored(c) && forall i :: 0 <= i < |path| ==> path[i].Key?
    requires ValueAt(v, path).Some? && ValueAt(v, path) == ValueAt(Value(c), path)
    ensures TextAt(Render(Some(c), v), path) == TextAt(c, path)
    decreases |path|
  {
    hide Render, Value, IsAuthored;
    if path == [] {
      SameIsKept(c, v);
    } else if Value(c) == v {
      SameIsKept(c, v);
    } else {
      var rest := path[1..];
      assert [path[0]] + rest == path;
      BelowIsAuthored(c, path[0], rest);
      RenderedChild(Some(c), v, path[0].k);
      NamesAloneKeepTheText(Below(c, path[0]).value, v.members[path[0].k], rest);
    }
  }

  const ESCAPED := Scalar("\"\\u0061\"", Str("a"))
  const FIELDS := [Member("", Authored("\"k\"", "k"), "", " ", ESCAPED, ""),
                   Member(" ", Authored("\"n\"", "n"), "", " ", Scalar("1", Num("1")), "")]

  /** An array of one object whose first field is spelled with an escape. */
  const BESIDE := Array([Item("", Object(FIELDS, ""), "")], "")

  lemma FieldNames()
    ensures "k" != "n"
  {
    assert "k"[0] != "n"[0];
  }

  lemma FieldKeys()
    ensures Keys(FIELDS) == ["k", "n"] && Distinct(Keys(FIELDS))
    ensures FIELDS[0].name.key == "k" && FIELDS[1].name.key == "n"
  {
    hide Position;
    assert Keys(FIELDS) == ["k", "n"];
    FieldNames();
  }

  lemma FieldsAreAuthored()
    ensures IsAuthored(Object(FIELDS, ""))
  {
    FieldKeys();
  }

  lemma FieldsAre()
    ensures Value(Object(FIELDS, "")) == Obj(map["k" := Str("a"), "n" := Num("1")])
    ensures ChildOf(Some(Object(FIELDS, "")), "k") == Some(ESCAPED)
  {
    FieldKeys();
    PositionOf(FIELDS, 0);
    ScalarValues();
    hide Value, Position;
    ObjectValue(FIELDS, "");
    FieldValues(Value(Object(FIELDS, "")).members);
  }

  lemma ScalarValues()
    ensures Value(FIELDS[0].child) == Str("a") && Value(FIELDS[1].child) == Num("1")
  {
  }

  lemma FieldValues(m: map<string, Json>)
    requires (forall k :: k in m <==> k in ["k", "n"]) && m["k"] == Str("a") && m["n"] == Num("1")
    ensures m == map["k" := Str("a"), "n" := Num("1")]
  {
  }

  lemma BesideIs()
    ensures IsAuthored(BESIDE) && Value(BESIDE) == Arr([Obj(map["k" := Str("a"), "n" := Num("1")])])
  {
    FieldsAre();
    FieldsAreAuthored();
    OneItem(Object(FIELDS, ""));
  }

  lemma OneItem(c: Cst)
    requires IsAuthored(c)
    ensures IsAuthored(Array([Item("", c, "")], "")) && Value(Array([Item("", c, "")], "")) == Arr([Value(c)])
  {
  }

  const BESIDE_KEY: seq<Leg> := [Index(0), Key("k")]

  lemma StepDown(c: Cst, v: Json, leg: Leg, rest: seq<Leg>)
    ensures Below(c, leg).Some? ==> TextAt(c, [leg] + rest) == TextAt(Below(c, leg).value, rest)
    ensures leg.Index? && v.Arr? && leg.i < |v.items| ==> ValueAt(v, [leg] + rest) == ValueAt(v.items[leg.i], rest)
    ensures leg.Key? && v.Obj? && leg.k in v.members ==> ValueAt(v, [leg] + rest) == ValueAt(v.members[leg.k], rest)
  {
    assert ([leg] + rest)[1..] == rest;
  }

  lemma BesideKey()
    ensures BESIDE_KEY == [Index(0)] + ([Key("k")] + [])
  {
  }

  lemma BesideText()
    ensures TextAt(BESIDE, BESIDE_KEY) == Some(ESCAPED)
  {
    hide TextAt;
    FieldsAre();
    BesideKey();
    StepDown(BESIDE, Null, Index(0), [Key("k")] + []);
    StepDown(Object(FIELDS, ""), Null, Key("k"), []);
    NoLeg(ESCAPED, Null);
  }

  lemma NoLeg(c: Cst, v: Json)
    ensures TextAt(c, []) == Some(c) && ValueAt(v, []) == Some(v)
  {
  }

  lemma BesideValue(x: Json)
    ensures ValueAt(Arr([Obj(map["k" := Str("a"), "n" := x])]), BESIDE_KEY) == Some(Str("a"))
  {
    hide ValueAt;
    var item := Obj(map["k" := Str("a"), "n" := x]);
    BesideKey();
    FieldNames();
    StepDown(Nothing, Arr([item]), Index(0), [Key("k")] + []);
    StepDown(Nothing, item, Key("k"), []);
    NoLeg(Nothing, Str("a"));
  }

  /** When the other field changes, that text is lost although its value stays:
      the object as a whole does not occur in the old array. */
  lemma {:induction false} TextBesideAChangeIsLost()
    ensures var v := Arr([Obj(map["k" := Str("a"), "n" := Num("2")])]);
      && IsAuthored(BESIDE) && ValueAt(v, BESIDE_KEY) == ValueAt(Value(BESIDE), BESIDE_KEY) == Some(Str("a"))
      && TextAt(BESIDE, BESIDE_KEY) == Some(ESCAPED)
      && TextAt(Render(Some(BESIDE), v), BESIDE_KEY) == Some(Marshaled(Str("a")))
  {
    hide Render, Value, IsAuthored, SameItem, ValueAt, TextAt;
    var item := Obj(map["k" := Str("a"), "n" := Num("2")]);
    BesideIs();
    BesideText();
    BesideValue(Num("1"));
    BesideValue(Num("2"));
    BesideIsNew();
    RenderedItem(Some(BESIDE), Arr([item]), 0);
    BesideKey();
    FieldNames();
    StepDown(Render(Some(BESIDE), Arr([item])), Null, Index(0), [Key("k")] + []);
    NewKey(item);
  }

  lemma BesideIsNew()
    ensures var item := Obj(map["k" := Str("a"), "n" := Num("2")]);
      Value(BESIDE) != Arr([item]) && SameItem(Some(BESIDE), item, 0) == None
  {
    var m, n := map["k" := Str("a"), "n" := Num("1")], map["k" := Str("a"), "n" := Num("2")];
    assert m["n"] != n["n"];
    FieldsAre();
    BesideIs();
    assert SameItem(Some(BESIDE), Obj(n), 1) == None;
  }

  lemma NewKey(item: Json)
    requires item.Obj? && "k" in item.members && item.members["k"] == Str("a")
    ensures TextAt(Render(None, item), [Key("k")] + []) == Some(Marshaled(Str("a")))
  {
    StepDown(Nothing, item, Key("k"), []);
    NoLeg(Nothing, Str("a"));
    NewTextAt(item, [Key("k")] + []);
  }

  /** A changed object lists its surviving members in authored order, and after
      them the added ones sorted. */
  lemma ChangedObjectKeepsOrder(raw: Option<Cst>, v: Json)
    requires AuthoredOrNone(raw) && v.Obj? && OldValue(raw) != v
    ensures Render(raw, v).Object? && Keys(Render(raw, v).members) == Order(raw, v.members)
  {
    RenderedKeys(raw, v);
    CloseKeeps(RenderMembers(raw, v, Order(raw, v.members)), Spacing(raw).1);
  }

  /** A changed array writes every item that the original array held with the
      text of its first occurrence there. */
  lemma ChangedArrayKeepsItems(raw: Option<Cst>, v: Json, i: nat)
    requires AuthoredOrNone(raw) && v.Arr? && OldValue(raw) != v && i < |v.items|
    ensures Render(raw, v).Array? && |Render(raw, v).items| == |v.items|
    ensures SameItem(raw, v.items[i], 0).Some? ==> Render(raw, v).items[i].child == SameItem(raw, v.items[i], 0).value
  {
    ItemsAre(raw, v, |v.items|);
    SameItemIs(raw, v.items[i]);
    var items := RenderItems(raw, v, |v.items|);
    assert CloseArray(items, Spacing(raw).1).items[i].child == items[i].child;
  }

  // ---------------------------------------------------------------------
  // Whole documents
  // ---------------------------------------------------------------------

  /** A text with the white space around it; `Blank` has nothing else. */
  datatype Document = Blank(text: string) | Text(lead: string, root: Cst, trail: string)

  /** renderExtraJSON. A blank original is written from scratch by the library. */
  ghost function RenderDocument(original: Document, v: Json): Document {
    match original
    case Blank(_) => Text("", Marshaled(v), "\n")
    case Text(_, root, _) => if Value(root) == v then original else Text("", Render(Some(root), v), "\n")
  }

  method RenderExtraJSON(original: Document, value: Json) returns (r: Document)
    ensures r == RenderDocument(original, value)
  {
    if original.Blank? {
      return Text("", Marshaled(value), "\n");
    }
    if Value(original.root) == value {
      return original;
    }
    var root := RenderExtraJSONValue(Some(original.root), value);
    r := Text("", root, "\n");
  }

  function ReadDocument(d: Document): Option<Json> {
    if d.Text? then Read(d.root) else None
  }

  /** The rewritten document parses to the new value exactly when it adds no null
      where the original had nothing. */
  lemma DocumentReads(original: Document, v: Json)
    requires original.Text? ==> IsAuthored(original.root)
    ensures ReadDocument(RenderDocument(original, v)) == Some(v) <==>
            original.Blank? || NoAddedNull(Some(Value(original.root)), v)
  {
    if original.Text? {
      RenderReads(Some(original.root), v);
      if Value(original.root) == v {
        AuthoredIsValid(original.root);
      }
    }
  }

  /** What goes wrong otherwise: a null member added to an empty object, or a
      null in a new array, is written as no bytes and does not read back. */
  lemma {:induction false} AddedNullIsLost()
    ensures Read(Render(Some(Object([], "")), Obj(map["a" := Null]))) != Some(Obj(map["a" := Null]))
    ensures Read(Render(None, Arr([Null]))) != Some(Arr([Null]))
  {
    hide Render, Read, Value;
    NullIsAdded();
    RenderReads(Some(Object([], "")), Obj(map["a" := Null]));
    RenderReads(None, Arr([Null]));
  }

  lemma NullIsAdded()
    ensures IsAuthored(Object([], "")) && !NoAddedNull(ValueOf(Some(Object([], ""))), Obj(map["a" := Null]))
    ensures !NoAddedNull(None, Arr([Null]))
  {
    var v, a := Obj(map["a" := Null]), Arr([Null]);
    assert "a" in v.members && "a" !in Value(Object([], "")).members;
    assert MemberOf(ValueOf(Some(Object([], ""))), "a") == None;
    assert !NoAddedNull(None, v.members["a"]);
    assert !NoAddedNull(None, a.items[0]);
  }
}
