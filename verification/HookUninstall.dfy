/** A removal that writes what is no JSON (cmd/kata/agent_hooks_extra_json.go, agent_hooks_extra.go). */
module HookUninstall {
  import opened HookDocument
  import opened HookEntries
  import opened HookKinds
  import opened HookPlan
  import opened Json
  import L = LosslessJson
  import opened Options
  import ShellWords

  // ---------------------------------------------------------------------
  // An uninstallation that is not clean
  // ---------------------------------------------------------------------

  const NO_MATCHER: Members := map["matcher" := Null]

  /** A group whose matcher is null, which means any. */
  function Unmatching(hooks: seq<Handler>): Entry {
    Group(NO_MATCHER, hooks)
  }

  /** A configuration that holds one group. */
  function HooksWith(entry: Entry): Members {
    map["SessionStart" := Arr([EntryJson(entry)])]
  }

  function RootWith(entry: Entry): Members {
    map["hooks" := Obj(HooksWith(entry))]
  }

  function BlocksWith(entry: Entry): Blocks {
    map["" := SectionWith(entry)]
  }

  function SectionWith(entry: Entry): Section {
    map["SessionStart" := Items([entry])]
  }

  lemma UnmatchingIsRead(hooks: seq<Handler>)
    requires hooks != []
    ensures EntryOk(false, EntryJson(Unmatching(hooks)))
    ensures EntryOf(false, EntryJson(Unmatching(hooks))) == Unmatching(hooks)
  {
    var m := EntryJson(Unmatching(hooks)).members;
    assert m["hooks"] == Arr(Handlers(hooks)) && m["matcher"] == Null;
    assert EntryOf(false, Obj(m)).hooks == hooks;
    assert m - {"hooks"} == NO_MATCHER;
  }

  lemma EventIsRead(hooks: seq<Handler>)
    requires hooks != []
    ensures var v := Arr([EntryJson(Unmatching(hooks))]);
      EventOk("droid", "SessionStart", v) && EventOfJson("droid", "SessionStart", v) == Items([Unmatching(hooks)])
  {
    hide EntryOk, EntryOf, EntryJson, Unmatching;
    UnmatchingIsRead(hooks);
    var v := Arr([EntryJson(Unmatching(hooks))]);
    assert EventOfJson("droid", "SessionStart", v).entries == [Unmatching(hooks)];
  }

  lemma RootIsRead(hooks: seq<Handler>)
    requires hooks != []
    ensures var entry := Unmatching(hooks);
      && Accepted("droid", Wrapped, RootWith(entry))
      && BlocksOf("droid", Wrapped, RootWith(entry)) == BlocksWith(entry)
  {
    hide EventOk, EventOfJson, EntryJson, Unmatching;
    EventIsRead(hooks);
    var entry := Unmatching(hooks);
    assert SectionOk("droid", HooksWith(entry));
    assert SectionOf("droid", HooksWith(entry)) == SectionWith(entry);
  }

  /** A task that removes the contract from droid's shared configuration, a
      handler it removes and one it does not. */
  predicate Mixes(t: Task, own: Handler, foreign: Handler) {
    && t.target == "droid" && t.remove && t.contract
    && t.KindOf(own) == Some(Contract) && t.KindOf(foreign) == None
  }

  lemma OwnIsFound(t: Task, own: Handler, foreign: Handler)
    requires Mixes(t, own, foreign)
    ensures !Idle(t, BlocksWith(Unmatching([own, foreign])))
  {
    hide HookKinds.KindOf, Filter;
    var entry := Unmatching([own, foreign]);
    var x, y := Reg(own, Unmatched(NO_MATCHER)), Reg(foreign, Unmatched(NO_MATCHER));
    OneEntry(entry, true);
    assert EntryRegs(entry, true) == [x] + [y];
    FilterConcat([x], [y], IsKind(t, Contract));
    FilterOne(x, IsKind(t, Contract));
    assert Regs(BlocksWith(entry), "", "SessionStart") == [x] + [y];
    assert Owned(t, Contract, BlocksWith(entry), "", "SessionStart") != [];
    IsOneOfTheKinds(Contract);
  }

  lemma OneIsKept(own: Handler, foreign: Handler, keep: Handler -> bool)
    requires !keep(own) && keep(foreign)
    ensures KeepEntries([Unmatching([own, foreign])], keep) == [Unmatching([foreign])]
  {
    KeepHooksConcat([own], [foreign], keep);
    KeepOneHook(own, keep);
    KeepOneHook(foreign, keep);
    assert [own] + [foreign] == [own, foreign];
    KeepOne(Unmatching([own, foreign]), keep);
  }

  lemma OwnIsTakenOut(t: Task, own: Handler, foreign: Handler)
    requires Mixes(t, own, foreign)
    ensures Entries(Plan(t, BlocksWith(Unmatching([own, foreign]))), "", "SessionStart") == [Unmatching([foreign])]
  {
    hide HookKinds.KindOf, Plan, KeepEntries, Unmatching, BlocksOf, Accepted, RootWith, NonEmptyGroups;
    var entry := Unmatching([own, foreign]);
    var bs := BlocksWith(entry);
    var keep := Outside(t, Removed(t, bs));
    OwnIsFound(t, own, foreign);
    IsOneOfTheKinds(Contract);
    RootIsRead([own, foreign]);
    ParsedIsProper(t, Wrapped, RootWith(entry));
    PlanEntries(t, bs, "", "SessionStart");
    assert !keep(own) && keep(foreign);
    OneIsKept(own, foreign, keep);
    assert AllNew(t, bs, "", "SessionStart") == [];
  }

  lemma LeftIsPlanned(t: Task, own: Handler, foreign: Handler)
    requires Mixes(t, own, foreign) && Accepted("droid", Wrapped, RootWith(Unmatching([own, foreign])))
    ensures var root := PlannedRoot(t, true, RootWith(Unmatching([own, foreign])));
      && "hooks" in root && root["hooks"].Obj? && "SessionStart" in root["hooks"].members
      && root["hooks"].members["SessionStart"] == Arr([EntryJson(Unmatching([foreign]))])
  {
    hide Plan, EntryJson, BlocksOf, Accepted, RootWith, SwitchesOn, HookKinds.KindOf;
    RootIsRead([own, foreign]);
    OwnIsTakenOut(t, own, foreign);
    ASectionStays(t, BlocksWith(Unmatching([own, foreign])));
    assert EntriesJson([Unmatching([foreign])]) == [EntryJson(Unmatching([foreign]))];
  }

  lemma BadMember(raw: Option<L.Cst>, v: Json, key: string)
    requires L.AuthoredOrNone(raw) && v.Obj? && key in v.members && L.OldValue(raw) != v
    requires !L.Valid(L.Render(L.ChildOf(raw, key), v.members[key]))
    ensures !L.Valid(L.Render(raw, v)) && !L.Render(raw, v).Nothing?
  {
    hide L.Render, L.Value;
    L.RenderedChild(raw, v, key);
  }

  lemma BadItem(raw: Option<L.Cst>, v: Json, i: nat)
    requires v.Arr? && i < |v.items| && L.OldValue(raw) != v
    requires var c := L.Render(L.SameItem(raw, v.items[i], 0), v.items[i]); !L.Valid(c) && !c.Nothing?
    ensures !L.Valid(L.Render(raw, v)) && !L.Render(raw, v).Nothing?
  {
    hide L.Render, L.Value;
    L.RenderedItem(raw, v, i);
  }

  /** A null that is left in a group that changes has no text to come from. */
  lemma LeftIsBad(hooks: seq<Handler>)
    ensures var v := EntryJson(Unmatching(hooks));
      !L.Valid(L.Render(None, v)) && !L.Render(None, v).Nothing?
  {
    var v := EntryJson(Unmatching(hooks));
    assert !L.Valid(L.Render(None, Null));
    assert v.members["matcher"] == Null;
    BadMember(None, v, "matcher");
  }

  lemma LeftIsOther(x: seq<Handler>, y: seq<Handler>)
    requires |x| != |y|
    ensures EntryJson(Unmatching(x)) != EntryJson(Unmatching(y))
  {
    assert |EntryJson(Unmatching(x)).members["hooks"].items| == |x|;
    assert |EntryJson(Unmatching(y)).members["hooks"].items| == |y|;
  }

  lemma SharedTexts(c: L.Cst, entry: Entry)
    requires L.IsAuthored(c) && L.Value(c) == Obj(RootWith(entry))
    ensures var hooks := L.ChildOf(Some(c), "hooks"); var event := L.ChildOf(hooks, "SessionStart");
      && L.AuthoredOrNone(hooks) && L.ValueOf(hooks) == Some(Obj(HooksWith(entry)))
      && L.AuthoredOrNone(event) && L.ValueOf(event) == Some(Arr([EntryJson(entry)]))
  {
    hide L.Value, L.IsAuthored, EntryJson, L.ChildOf;
    L.ChildValue(Some(c), "hooks");
    L.ChildValue(L.ChildOf(Some(c), "hooks"), "SessionStart");
  }

  /** Uninstalling writes a text that is no JSON, whatever text the configuration
      was: the group loses a handler, so it is written anew, and its untouched
      null matcher is written as no bytes. */
  lemma {:induction false} MixedGroupLosesNull(t: Task, own: Handler, foreign: Handler, original: L.Document)
    requires Mixes(t, own, foreign) && original.Text? && L.IsAuthored(original.root)
    requires L.Value(original.root) == Obj(RootWith(Unmatching([own, foreign])))
    ensures var r := Planned(t, true, original, true); r.Content? && L.ReadDocument(r.document) == None
  {
    hide L.Render, L.Value, L.Valid, PlannedRoot, EntryJson, Idle, L.IsAuthored, Accepted, BlocksOf, Mixes, RootWith,
      HooksWith, Unmatching, L.ChildOf;
    var entry := Unmatching([own, foreign]);
    RootIsRead([own, foreign]);
    OwnIsFound(t, own, foreign);
    OnDroid(t, own, foreign);
    LeftIsPlanned(t, own, foreign);
    LeftIsOther([own, foreign], [foreign]);
    BadRoot(original.root, entry, [foreign], PlannedRoot(t, true, RootWith(entry)));
  }

  lemma OnDroid(t: Task, own: Handler, foreign: Handler)
    requires Mixes(t, own, foreign)
    ensures t.target == "droid" && FormOf(t.target, true) == Wrapped
  {
  }

  lemma BadRoot(c: L.Cst, entry: Entry, left: seq<Handler>, root: Members)
    requires L.IsAuthored(c) && L.Value(c) == Obj(RootWith(entry)) && EntryJson(entry) != EntryJson(Unmatching(left))
    requires "hooks" in root && root["hooks"].Obj? && "SessionStart" in root["hooks"].members
    requires root["hooks"].members["SessionStart"] == Arr([EntryJson(Unmatching(left))])
    ensures L.Value(c) != Obj(root) && !L.Valid(L.Render(Some(c), Obj(root)))
  {
    hide L.Render, L.Value, L.Valid, EntryJson, L.IsAuthored, Unmatching, L.ChildOf;
    var x := EntryJson(Unmatching(left));
    var hooks := L.ChildOf(Some(c), "hooks");
    var event := L.ChildOf(hooks, "SessionStart");
    SharedTexts(c, entry);
    LeftIsBad(left);
    L.SameItemIs(event, x);
    assert [EntryJson(entry)][0] != [x][0];
    BadItem(event, Arr([x]), 0);
    assert HooksWith(entry)["SessionStart"] != root["hooks"].members["SessionStart"];
    BadMember(hooks, root["hooks"], "SessionStart");
    assert RootWith(entry)["hooks"] != root["hooks"];
    BadMember(Some(c), Obj(root), "hooks");
  }

  // ---------------------------------------------------------------------
  // The same at concrete handlers
  // ---------------------------------------------------------------------

  /** Removing the contract from droid's shared configuration, not on Windows;
      the command for removal names no executable. */
  function UninstallTask(p: Platform): Task {
    Task(p.(windows := false), "droid", "", k => "", true, false, true)
  }

  /** Kata's handler, as installing wrote it. */
  function OwnHandler(): Handler {
    NewHandler("droid", "kata", ShellWords.Command(Argv("droid", "kata", Contract)), Contract)
  }

  const FOREIGN: Handler := map["type" := Str("prompt")]

  lemma OwnIsMixed(p: Platform)
    ensures Mixes(UninstallTask(p), OwnHandler(), FOREIGN)
  {
    var argv := Argv("droid", "kata", Contract);
    QuotingSpells(UninstallTask(p).platform, argv);
    GeneratorAgrees(UninstallTask(p).platform, "droid", "kata", ShellWords.Command(argv), Contract);
    MayOwnMeans("kata");
  }

  /** There is such a text, and uninstalling from it writes no JSON. */
  lemma {:induction false} UninstallLosesNull(p: Platform) returns (original: L.Document)
    ensures original.Text? && L.IsAuthored(original.root)
    ensures L.Value(original.root) == Obj(RootWith(Unmatching([OwnHandler(), FOREIGN])))
    ensures var r := Planned(UninstallTask(p), true, original, true);
      r.Content? && L.ReadDocument(r.document) == None
  {
    hide Planned, OwnHandler, L.IsAuthored, L.Value, L.ReadDocument, RootWith, Mixes;
    var root := Obj(RootWith(Unmatching([OwnHandler(), FOREIGN])));
    original := L.Text("", TextOf(root), "");
    TextOfIs(root);
    OwnIsMixed(p);
    MixedGroupLosesNull(UninstallTask(p), OwnHandler(), FOREIGN, original);
  }

  // ---------------------------------------------------------------------
  // Some text for every value
  // ---------------------------------------------------------------------

  /** A text of the value, without white space. */
  ghost function TextOf(v: Json): L.Cst
    decreases v, 0
  {
    match v
    case Arr(items) =>
      L.Array(seq(|items|, i requires 0 <= i < |items| => L.Item("", TextOf(items[i]), "")), "")
    case Obj(m) => L.Object(MembersText(v, Sorted(m.Keys)), "")
    case _ => L.Scalar("", v)
  }

  /** The members with these names. */
  ghost function MembersText(v: Json, keys: seq<string>): (r: seq<L.Member>)
    requires v.Obj?
    ensures |r| == |keys|
    decreases v, 0, |keys|
  {
    seq(|keys|, i requires 0 <= i < |keys| =>
      var child := if keys[i] in v.members then TextOf(v.members[keys[i]]) else L.Nothing;
      L.Member("", L.Authored("", keys[i]), "", "", child, ""))
  }

  lemma {:induction false} TextOfIs(v: Json)
    ensures L.IsAuthored(TextOf(v)) && L.Value(TextOf(v)) == v
  {
    match v
    case Arr(items) =>
      forall i | 0 <= i < |items| ensures L.IsAuthored(TextOf(items[i])) && L.Value(TextOf(items[i])) == items[i] {
        TextOfIs(items[i]);
      }
      ArrayText(items);
    case Obj(m) =>
      forall k | k in m ensures L.IsAuthored(TextOf(m[k])) && L.Value(TextOf(m[k])) == m[k] {
        TextOfIs(m[k]);
      }
      ObjectText(m);
    case _ =>
  }

  lemma ArrayText(items: seq<Json>)
    requires forall i :: 0 <= i < |items| ==> L.IsAuthored(TextOf(items[i])) && L.Value(TextOf(items[i])) == items[i]
    ensures L.IsAuthored(TextOf(Arr(items))) && L.Value(TextOf(Arr(items))) == Arr(items)
  {
    var c := TextOf(Arr(items));
    assert |c.items| == |items|;
    assert forall i :: 0 <= i < |items| ==> c.items[i].child == TextOf(items[i]);
    if |items| == 1 {
      assert !TextOf(items[0]).Nothing?;
    }
    assert L.Value(c).items == items;
  }

  lemma ObjectText(m: Members)
    requires forall k :: k in m ==> L.IsAuthored(TextOf(m[k])) && L.Value(TextOf(m[k])) == m[k]
    ensures L.IsAuthored(TextOf(Obj(m))) && L.Value(TextOf(Obj(m))) == Obj(m)
  {
    hide TextOf, L.Value, L.IsAuthored, L.Valid;
    var keys := Sorted(m.Keys);
    var members := MembersText(Obj(m), keys);
    SortedIs(m.Keys);
    AscendingIsDistinct(keys);
    ObjectTextIs(m);
    assert L.Keys(members) == keys;
    forall i | 0 <= i < |members|
      ensures members[i].name.Authored? && L.IsAuthored(members[i].child) && L.ReadsAs(members[i], m)
    {
      assert keys[i] in m.Keys;
      L.AuthoredIsValid(members[i].child);
      ReadText(members[i].child);
    }
    L.ObjectValueIs(members, "", m);
    MembersAuthored(members);
  }

  lemma ObjectTextIs(m: Members)
    ensures TextOf(Obj(m)) == L.Object(MembersText(Obj(m), Sorted(m.Keys)), "")
  {
  }

  lemma ReadText(c: L.Cst)
    requires L.Valid(c)
    ensures L.Read(c) == Some(L.Value(c))
  {
  }

  lemma MembersAuthored(members: seq<L.Member>)
    requires Distinct(L.Keys(members))
    requires forall i :: 0 <= i < |members| ==> members[i].name.Authored? && L.IsAuthored(members[i].child)
    ensures L.IsAuthored(L.Object(members, ""))
  {
  }
}
