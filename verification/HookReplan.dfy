/** Reading a planned configuration back and planning it again (cmd/kata/agent_hooks_extra_json.go). */
module HookReplan {
  import opened HookDocument
  import opened HookEntries
  import opened HookKinds
  import opened HookPlan
  import opened Json
  import L = LosslessJson
  import opened Options

  // ---------------------------------------------------------------------
  // What is read back
  // ---------------------------------------------------------------------

  /** An entry that is read as itself. */
  predicate IsShaped(flat: bool, x: Entry) {
    if flat then x.Flat?
    else
      && x.Group? && x.hooks != [] && "hooks" !in x.fields
      && ("matcher" in x.fields ==> x.fields["matcher"].Null? || x.fields["matcher"].Str?)
  }

  predicate AreShaped(flat: bool, entries: seq<Entry>) {
    forall x :: x in entries ==> IsShaped(flat, x)
  }

  lemma ShapedIsRead(flat: bool, x: Entry)
    requires IsShaped(flat, x)
    ensures EntryOk(flat, EntryJson(x)) && EntryOf(flat, EntryJson(x)) == x
  {
    if !flat {
      var m := EntryJson(x).members;
      assert m["hooks"] == Arr(Handlers(x.hooks));
      assert EntryOf(false, Obj(m)).hooks == x.hooks;
      assert m - {"hooks"} == x.fields;
    }
  }

  lemma ReadIsShaped(flat: bool, v: Json)
    requires EntryOk(flat, v)
    ensures IsShaped(flat, EntryOf(flat, v))
  {
  }

  predicate IsShapedValue(target: string, e: string, v: EventValue) {
    if IsSettingName(target, e) then v.Setting? && EventOk(target, e, v.value)
    else v.Items? && AreShaped(IsFlatEvent(target, e), v.entries)
  }

  predicate IsShapedSection(target: string, s: Section) {
    forall e :: e in s ==> IsShapedValue(target, e, s[e])
  }

  lemma ShapedValueIsRead(target: string, e: string, v: EventValue)
    requires IsShapedValue(target, e, v)
    ensures EventOk(target, e, EventJson(v)) && EventOfJson(target, e, EventJson(v)) == v
  {
    if !IsSettingName(target, e) {
      hide EntryOk, EntryOf, EntryJson, IsShaped;
      var flat := IsFlatEvent(target, e);
      forall i | 0 <= i < |v.entries|
        ensures EntryOk(flat, EntryJson(v.entries[i])) && EntryOf(flat, EntryJson(v.entries[i])) == v.entries[i]
      {
        ShapedIsRead(flat, v.entries[i]);
      }
      assert EventOfJson(target, e, EventJson(v)).entries == v.entries;
    }
  }

  lemma ShapedSectionIsRead(target: string, s: Section)
    requires IsShapedSection(target, s)
    ensures SectionOk(target, SectionJson(s)) && SectionOf(target, SectionJson(s)) == s
  {
    hide EventOk, EventOfJson, IsShapedValue, EventJson;
    forall e | e in s ensures EventOk(target, e, EventJson(s[e])) && EventOfJson(target, e, EventJson(s[e])) == s[e] {
      ShapedValueIsRead(target, e, s[e]);
    }
  }

  lemma ReadValueIsShaped(target: string, e: string, v: Json)
    requires EventOk(target, e, v)
    ensures IsShapedValue(target, e, EventOfJson(target, e, v))
  {
    if !IsSettingName(target, e) {
      var flat := IsFlatEvent(target, e);
      forall i | 0 <= i < |v.items| ensures IsShaped(flat, EntryOf(flat, v.items[i])) {
        ReadIsShaped(flat, v.items[i]);
      }
    }
  }

  lemma ReadSectionIsShaped(target: string, m: Members)
    requires SectionOk(target, m)
    ensures IsShapedSection(target, SectionOf(target, m))
  {
    hide IsShapedValue, EventOk, EventOfJson;
    forall e | e in m ensures IsShapedValue(target, e, SectionOf(target, m)[e]) {
      ReadValueIsShaped(target, e, m[e]);
    }
  }

  lemma {:induction false} KeptAreShaped(flat: bool, entries: seq<Entry>, keep: Handler -> bool)
    requires AreShaped(flat, entries)
    ensures AreShaped(flat, KeepEntries(entries, keep))
  {
    hide KeepHooks;
    KeptMembers(entries, keep);
  }

  lemma NewAreShaped(t: Task, bs: Blocks, b: string, e: string)
    ensures AreShaped(IsFlatEvent(t.target, e), AllNew(t, bs, b, e))
  {
    hide Removes, NewHandler;
  }

  /** The events of a section in the plan are those it had and Kata's own. */
  ghost predicate Known(t: Task, bs: Blocks, b: string, e: string) {
    (b in bs && e in bs[b]) || exists k :: e == EventOf(t.target, k)
  }

  lemma RoundIsKnown(t: Task, k: Kind, bs: Blocks, b: string, e: string)
    requires var r := Reconciled(t, k, bs); b in r && e in r[b]
    ensures Known(t, bs, b, e)
  {
    hide Settled, Home, KeepEntries, NewEntry, EventOf;
  }

  lemma PlanIsKnown(t: Task, bs: Blocks, b: string, e: string)
    requires var r := Plan(t, bs); b in r && e in r[b]
    ensures Known(t, bs, b, e)
  {
    hide Reconciled, SelectedOwned, EventOf, RoundsFrom;
    RoundsAre(t, bs);
    if !Idle(t, bs) {
      var b1 := Reconciled(t, Contract, bs);
      var b2 := Reconciled(t, AttentionStart, b1);
      RoundIsKnown(t, AttentionEnd, b2, b, e);
      if b in b2 && e in b2[b] {
        RoundIsKnown(t, AttentionStart, b1, b, e);
      }
      if b in b1 && e in b1[b] {
        RoundIsKnown(t, Contract, bs, b, e);
      }
    }
  }

  ghost predicate AllShaped(target: string, bs: Blocks) {
    forall b :: b in bs ==> IsShapedSection(target, bs[b])
  }

  lemma PlannedValueIsShaped(t: Task, bs: Blocks, b: string, e: string)
    requires t.Built() && NonEmptyGroups(bs) && EventsAreNoSettings(t, bs) && AllShaped(t.target, bs) && !Idle(t, bs)
    requires b in Plan(t, bs) && e in Plan(t, bs)[b]
    ensures IsShapedValue(t.target, e, Plan(t, bs)[b][e])
  {
    hide Plan, Removed, Outside, AllNew, KeepEntries, IsShaped, EventsAreNoSettings, NonEmptyGroups, EventOf;
    var was, flat := Entries(bs, b, e), IsFlatEvent(t.target, e);
    PlanEntries(t, bs, b, e);
    PlanKeepsSettings(t, bs, b, e);
    PlanIsKnown(t, bs, b, e);
    forall k ensures !IsSettingName(t.target, EventOf(t.target, k)) {
      EventsAreEvents(t.target, k);
    }
    WasShaped(t.target, bs, b, e);
    KeptAreShaped(flat, was, Outside(t, Removed(t, bs)));
    NewAreShaped(t, bs, b, e);
  }

  lemma WasShaped(target: string, bs: Blocks, b: string, e: string)
    requires AllShaped(target, bs)
    ensures AreShaped(IsFlatEvent(target, e), Entries(bs, b, e))
    ensures b in bs && e in bs[b] ==> IsShapedValue(target, e, bs[b][e])
  {
    if b in bs && e in bs[b] {
      assert IsShapedSection(target, bs[b]);
    }
  }

  /** What a plan makes of a shaped configuration is shaped. */
  lemma PlanIsShaped(t: Task, bs: Blocks)
    requires t.Built() && NonEmptyGroups(bs) && EventsAreNoSettings(t, bs) && AllShaped(t.target, bs)
    ensures AllShaped(t.target, Plan(t, bs))
  {
    if !Idle(t, bs) {
      hide Plan, IsShapedValue, Idle, NonEmptyGroups, EventsAreNoSettings;
      forall b | b in Plan(t, bs) ensures IsShapedSection(t.target, Plan(t, bs)[b]) {
        forall e | e in Plan(t, bs)[b] ensures IsShapedValue(t.target, e, Plan(t, bs)[b][e]) {
          PlannedValueIsShaped(t, bs, b, e);
        }
      }
    }
  }

  lemma ParsedIsShaped(target: string, form: Form, root: Members)
    requires Accepted(target, form, root)
    ensures AllShaped(target, BlocksOf(target, form, root))
  {
    hide IsShapedSection, SectionOf;
    var bs := BlocksOf(target, form, root);
    forall b | b in bs ensures IsShapedSection(target, bs[b]) {
      ReadSectionIsShaped(target, if form.Named? then root[b].members else OneSection(form, root));
    }
  }

  /** Reading the rebuilt root gives the sections it was built from. */
  lemma RebuiltIsRead(target: string, form: Form, root: Members, bs: Blocks, switchOn: bool)
    requires Accepted(target, form, root) && AllShaped(target, bs) && (form.Named? || bs.Keys == {""})
    ensures Accepted(target, form, Rebuilt(form, root, bs, switchOn))
    ensures BlocksOf(target, form, Rebuilt(form, root, bs, switchOn)) == bs
  {
    hide SectionOk, SectionOf, SectionJson, IsShapedSection;
    forall b | b in bs ensures SectionOk(target, SectionJson(bs[b])) && SectionOf(target, SectionJson(bs[b])) == bs[b] {
      ShapedSectionIsRead(target, bs[b]);
    }
  }

  /** Reading what was planned gives the plan of what was read. */
  lemma PlannedIsRead(t: Task, wrappedDroid: bool, root: Members)
    requires t.Built() && Accepted(t.target, FormOf(t.target, wrappedDroid), root)
    ensures var form := FormOf(t.target, wrappedDroid);
      var r := PlannedRoot(t, wrappedDroid, root);
      Accepted(t.target, form, r) && BlocksOf(t.target, form, r) == Plan(t, BlocksOf(t.target, form, root))
  {
    hide Plan, SwitchesOn, Rebuilt, Accepted, AllShaped, NonEmptyGroups, EventsAreNoSettings;
    var form := FormOf(t.target, wrappedDroid);
    var bs := BlocksOf(t.target, form, root);
    ParsedIsProper(t, form, root);
    ParsedIsShaped(t.target, form, root);
    PlanIsShaped(t, bs);
    if form.Named? {
      RebuiltIsRead(t.target, form, root, Plan(t, bs), false);
    } else {
      OneBlock(t, bs);
      RebuiltIsRead(t.target, form, root, Plan(t, bs), SwitchesOn(t, root, bs));
    }
  }

  // ---------------------------------------------------------------------
  // What else a configuration holds
  // ---------------------------------------------------------------------

  function Member(m: Members, key: string): Option<Json> {
    if key in m then Some(m[key]) else None
  }

  /** Every member of the root but the hooks stays, and of ZCode's hooks every
      member but the events and the switch. */
  lemma PlanKeepsTheRest(t: Task, wrappedDroid: bool, root: Members, key: string)
    requires Accepted(t.target, FormOf(t.target, wrappedDroid), root)
    ensures var form, r := FormOf(t.target, wrappedDroid), PlannedRoot(t, wrappedDroid, root);
      && ((form.Wrapped? || form.Events?) && key != "hooks" ==> Member(r, key) == Member(root, key))
      && (form.Events? && key != "events" && key != "enabled" ==>
            Member(MembersAt(r, "hooks"), key) == Member(MembersAt(root, "hooks"), key))
  {
    hide Plan, SwitchesOn, SectionJson, Accepted;
    var form := FormOf(t.target, wrappedDroid);
    if !form.Named? {
      ASectionStays(t, BlocksOf(t.target, form, root));
    }
  }

  /** The members of block `b`, which are none if there is no such block. */
  function BlockMembers(form: Form, root: Members, b: string): Members {
    if form.Named? then MembersAt(root, b) else if b == "" then OneSection(form, root) else map[]
  }

  lemma SettingIsRead(target: string, form: Form, root: Members, b: string, key: string)
    requires Accepted(target, form, root) && IsSettingName(target, key)
    ensures SettingAt(BlocksOf(target, form, root), b, key) == Member(BlockMembers(form, root, b), key)
  {
    hide EventOk;
  }

  /** Every setting of every block stays. */
  lemma PlanKeepsBlockSettings(t: Task, wrappedDroid: bool, root: Members, b: string, key: string)
    requires t.Built() && Accepted(t.target, FormOf(t.target, wrappedDroid), root) && IsSettingName(t.target, key)
    ensures var form, r := FormOf(t.target, wrappedDroid), PlannedRoot(t, wrappedDroid, root);
      Member(BlockMembers(form, r, b), key) == Member(BlockMembers(form, root, b), key)
  {
    hide Plan, SwitchesOn, Rebuilt, Accepted, BlocksOf, PlannedRoot, BlockMembers, SettingAt;
    var form := FormOf(t.target, wrappedDroid);
    var bs := BlocksOf(t.target, form, root);
    PlannedIsRead(t, wrappedDroid, root);
    ParsedIsProper(t, form, root);
    PlanKeepsSettings(t, bs, b, key);
    SettingIsRead(t.target, form, root, b, key);
    SettingIsRead(t.target, form, PlannedRoot(t, wrappedDroid, root), b, key);
  }

  // ---------------------------------------------------------------------
  // Planning a planned file
  // ---------------------------------------------------------------------

  lemma SwitchIsBool(t: Task, root: Members)
    requires Accepted(t.target, Events, root)
    ensures Switch(root).Some? ==> Switch(root).value.Bool?
  {
  }

  /** ZCode's switch is set only where it was unset, by an installation, and
      when no handler of the operator's would be switched on with it. */
  lemma SwitchAfter(t: Task, root: Members, bs: Blocks, p: Blocks)
    requires t.target == "zcode" && Accepted(t.target, Events, root) && "" in p
    ensures Switch(Rebuilt(Events, root, p, SwitchesOn(t, root, bs))) ==
      if Switch(root) == None && !t.remove && (t.contract || t.attention) && !HasForeign(t, bs) then Some(Bool(true))
      else Switch(root)
  {
    hide HasForeign, SectionJson;
    SwitchIsBool(t, root);
    assert Supports("zcode", Contract) && Supports("zcode", AttentionStart);
  }

  lemma ForeignAnywhere(t: Task, bs: Blocks)
    ensures HasForeign(t, bs) <==> exists b, e :: Foreign(t, bs, b, e) != []
  {
    if b, e :| Foreign(t, bs, b, e) != [] {
      assert Regs(bs, b, e) != [];
      assert b in bs && e in bs[b];
    }
  }

  lemma ForeignStays(t: Task, bs: Blocks)
    requires t.Built() && !WritesUnrecognized(t)
    ensures HasForeign(t, Plan(t, bs)) <==> HasForeign(t, bs)
  {
    hide HasForeign, Plan, WritesUnrecognized;
    PlanKeepsForeign(t, bs);
    ForeignAnywhere(t, bs);
    ForeignAnywhere(t, Plan(t, bs));
  }

  /** A second installation leaves the switch as the first one left it. */
  lemma SwitchStays(t: Task, root: Members, bs: Blocks)
    requires t.Built() && t.target == "zcode" && Accepted(t.target, Events, root) && !WritesUnrecognized(t)
    requires "" in Plan(t, bs)
    ensures var r := Rebuilt(Events, root, Plan(t, bs), SwitchesOn(t, root, bs));
      SwitchesOn(t, r, Plan(t, bs)) ==> Switch(r) == Some(Bool(true))
  {
    hide HasForeign, Plan, WritesUnrecognized, Rebuilt, Switch;
    SwitchAfter(t, root, bs, Plan(t, bs));
    ForeignStays(t, bs);
    SwitchIsBool(t, root);
  }

  lemma SetAgain(root: Members, bs: Blocks, first: bool, second: bool)
    requires "" in bs
    requires var r := Rebuilt(Events, root, bs, first); second ==> Switch(r) == Some(Bool(true))
    ensures var r := Rebuilt(Events, root, bs, first); Rebuilt(Events, r, bs, second) == r
  {
    hide SectionJson;
    var r := Rebuilt(Events, root, bs, first);
    var hooks := MembersAt(r, "hooks");
    assert hooks["events" := Obj(SectionJson(bs[""]))] == hooks;
    if second {
      assert hooks["enabled" := Bool(true)] == hooks;
    }
  }

  lemma RebuiltAgain(form: Form, root: Members, bs: Blocks)
    requires (form.Named? || "" in bs) && !form.Events?
    ensures var r := Rebuilt(form, root, bs, false); Rebuilt(form, r, bs, false) == r
  {
    hide SectionJson;
  }

  lemma OneBlockIsRead(target: string, form: Form, root: Members)
    requires Accepted(target, form, root)
    ensures !form.Named? ==> "" in BlocksOf(target, form, root)
  {
  }

  /** A root that was planned is planned to be as it is, provided what was
      written is recognized. */
  lemma PlannedTwice(t: Task, wrappedDroid: bool, root: Members)
    requires t.Built() && !WritesUnrecognized(t) && Accepted(t.target, FormOf(t.target, wrappedDroid), root)
    ensures var r := PlannedRoot(t, wrappedDroid, root);
      Accepted(t.target, FormOf(t.target, wrappedDroid), r) && PlannedRoot(t, wrappedDroid, r) == r
  {
    hide Plan, SwitchesOn, Rebuilt, Accepted, NonEmptyGroups, WritesUnrecognized, Switch, BlocksOf;
    var form := FormOf(t.target, wrappedDroid);
    var bs := BlocksOf(t.target, form, root);
    var p, r := Plan(t, bs), PlannedRoot(t, wrappedDroid, root);
    ParsedIsProper(t, form, root);
    PlannedIsRead(t, wrappedDroid, root);
    OneBlockIsRead(t.target, form, root);
    PlanIsIdempotent(t, bs);
    if form.Events? {
      ASectionStays(t, bs);
      SwitchStays(t, root, bs);
      SetAgain(root, p, SwitchesOn(t, root, bs), SwitchesOn(t, r, p));
    } else {
      OnlyZcodeSwitches(t, root, bs);
      OnlyZcodeSwitches(t, r, p);
      if !form.Named? {
        ASectionStays(t, bs);
      }
      RebuiltAgain(form, root, p);
    }
  }

  /** Installing or removing once more leaves the file as it is, byte for byte. */
  lemma PlannedFileStays(t: Task, wrappedDroid: bool, root: Members, document: L.Document)
    requires t.Built() && !WritesUnrecognized(t) && Accepted(t.target, FormOf(t.target, wrappedDroid), root)
    requires document.Text? && L.Value(document.root) == Obj(PlannedRoot(t, wrappedDroid, root))
    ensures Planned(t, wrappedDroid, document, true) == Content(document)
  {
    hide PlannedRoot, Idle, Accepted, BlocksOf, WritesUnrecognized, L.Value;
    PlannedTwice(t, wrappedDroid, root);
  }
}
