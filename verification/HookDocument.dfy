/** Planning hooks in a configuration file, from its text to its new text (cmd/kata/agent_hooks_extra_json.go). */
module HookDocument {
  import opened HookEntries
  import opened HookKinds
  import opened HookPlan
  import opened Json
  import L = LosslessJson
  import opened Options

  type Members = map<string, Json>

  // ---------------------------------------------------------------------
  // Entries as JSON
  // ---------------------------------------------------------------------

  function Handlers(hooks: seq<Handler>): seq<Json> {
    seq(|hooks|, i requires 0 <= i < |hooks| => Obj(hooks[i]))
  }

  function EntryJson(entry: Entry): Json {
    match entry
    case Flat(h) => Obj(h)
    case Group(fields, hooks) => Obj(fields["hooks" := Arr(Handlers(hooks))])
  }

  function EntriesJson(entries: seq<Entry>): seq<Json> {
    seq(|entries|, i requires 0 <= i < |entries| => EntryJson(entries[i]))
  }

  function EventJson(v: EventValue): Json {
    match v
    case Items(entries) => Arr(EntriesJson(entries))
    case Setting(value) => value
  }

  function SectionJson(s: Section): Members {
    map e | e in s :: EventJson(s[e])
  }

  // ---------------------------------------------------------------------
  // Reading a configuration
  // ---------------------------------------------------------------------

  /** Antigravity lists bare handlers for these events. */
  predicate IsFlatEvent(target: string, event: string) {
    target == "antigravity" && event in {"PreInvocation", "PostInvocation", "Stop"}
  }

  predicate IsSettingName(target: string, event: string) {
    (target == "antigravity" && event == "enabled") || (target == "muse" && event == "state")
  }

  predicate GroupOk(m: Members) {
    && "hooks" in m && m["hooks"].Arr? && m["hooks"].items != []
    && (forall i :: 0 <= i < |m["hooks"].items| ==> m["hooks"].items[i].Obj?)
    && ("matcher" in m ==> m["matcher"].Null? || m["matcher"].Str?)
  }

  predicate EntryOk(flat: bool, v: Json) {
    v.Obj? && (flat || GroupOk(v.members))
  }

  function EntryOf(flat: bool, v: Json): Entry
    requires EntryOk(flat, v)
  {
    if flat then Flat(v.members)
    else
      var hooks := v.members["hooks"].items;
      Group(v.members - {"hooks"}, seq(|hooks|, i requires 0 <= i < |hooks| => hooks[i].members))
  }

  /** What extraJSONRegistrations and the checks before it accept. */
  predicate EventOk(target: string, event: string, v: Json) {
    if IsSettingName(target, event) then (if target == "antigravity" then v.Bool? else v.Obj?)
    else v.Arr? && forall i :: 0 <= i < |v.items| ==> EntryOk(IsFlatEvent(target, event), v.items[i])
  }

  function EventOfJson(target: string, event: string, v: Json): EventValue
    requires EventOk(target, event, v)
  {
    if IsSettingName(target, event) then Setting(v)
    else Items(seq(|v.items|, i requires 0 <= i < |v.items| => EntryOf(IsFlatEvent(target, event), v.items[i])))
  }

  predicate SectionOk(target: string, m: Members) {
    forall e :: e in m ==> EventOk(target, e, m[e])
  }

  function SectionOf(target: string, m: Members): Section
    requires SectionOk(target, m)
  {
    map e | e in m :: EventOfJson(target, e, m[e])
  }

  lemma EntryBack(flat: bool, v: Json)
    requires EntryOk(flat, v)
    ensures EntryJson(EntryOf(flat, v)) == v
  {
    if !flat {
      var m := v.members;
      var entry := EntryOf(flat, v);
      assert Handlers(entry.hooks) == m["hooks"].items;
      assert entry.fields["hooks" := m["hooks"]] == m;
    }
  }

  lemma EventBack(target: string, event: string, v: Json)
    requires EventOk(target, event, v)
    ensures EventJson(EventOfJson(target, event, v)) == v
  {
    if !IsSettingName(target, event) {
      forall i | 0 <= i < |v.items|
        ensures EntryJson(EntryOf(IsFlatEvent(target, event), v.items[i])) == v.items[i]
      {
        EntryBack(IsFlatEvent(target, event), v.items[i]);
      }
      assert EntriesJson(EventOfJson(target, event, v).entries) == v.items;
    }
  }

  /** Nothing is lost in reading a section. */
  lemma SectionBack(target: string, m: Members)
    requires SectionOk(target, m)
    ensures SectionJson(SectionOf(target, m)) == m
  {
    forall e | e in m ensures EventJson(EventOfJson(target, e, m[e])) == m[e] {
      EventBack(target, e, m[e]);
    }
  }

  // ---------------------------------------------------------------------
  // Where the sections are
  // ---------------------------------------------------------------------

  /** The root's members are named blocks, or the section itself, or hold it
      under "hooks", or under "events" there. */
  datatype Form = Named | Bare | Wrapped | Events

  function FormOf(target: string, wrappedDroid: bool): Form {
    if IsFlatTarget(target) then Named
    else if target == "zcode" then Events
    else if target == "droid" && !wrappedDroid then Bare
    else Wrapped
  }

  /** extraJSONObject succeeds, taking an absent object for an empty one. */
  predicate ObjectAt(m: Members, key: string) {
    key in m ==> m[key].Obj?
  }

  function MembersAt(m: Members, key: string): Members {
    if key in m && m[key].Obj? then m[key].members else map[]
  }

  predicate Accepted(target: string, form: Form, root: Members) {
    match form
    case Named => forall b :: b in root ==> root[b].Obj? && SectionOk(target, root[b].members)
    case Bare => SectionOk(target, root)
    case Wrapped => ObjectAt(root, "hooks") && SectionOk(target, MembersAt(root, "hooks"))
    case Events =>
      var hooks := MembersAt(root, "hooks");
      && ObjectAt(root, "hooks") && ("enabled" in hooks ==> hooks["enabled"].Bool?)
      && ObjectAt(hooks, "events") && SectionOk(target, MembersAt(hooks, "events"))
  }

  /** The members of the one section of a form without named blocks. */
  function OneSection(form: Form, root: Members): Members {
    match form
    case Wrapped => MembersAt(root, "hooks")
    case Events => MembersAt(MembersAt(root, "hooks"), "events")
    case _ => root
  }

  function BlocksOf(target: string, form: Form, root: Members): Blocks
    requires Accepted(target, form, root)
  {
    if form.Named? then map b | b in root :: SectionOf(target, root[b].members)
    else map["" := SectionOf(target, OneSection(form, root))]
  }

  /** The root with other sections; `switchOn` sets ZCode's switch. */
  function Rebuilt(form: Form, root: Members, bs: Blocks, switchOn: bool): Members
    requires form.Named? || "" in bs
  {
    match form
    case Named => map b | b in bs :: Obj(SectionJson(bs[b]))
    case Bare => SectionJson(bs[""])
    case Wrapped => root["hooks" := Obj(SectionJson(bs[""]))]
    case Events =>
      var hooks := MembersAt(root, "hooks");
      var switched := if switchOn then hooks["enabled" := Bool(true)] else hooks;
      root["hooks" := Obj(switched["events" := Obj(SectionJson(bs[""]))])]
  }

  // ---------------------------------------------------------------------
  // ZCode's switch
  // ---------------------------------------------------------------------

  function Switch(root: Members): Option<Json> {
    var hooks := MembersAt(root, "hooks");
    if "enabled" in hooks then Some(hooks["enabled"]) else None
  }

  /** A handler of the kind is configured and active. */
  predicate Current(t: Task, k: Kind, root: Members, bs: Blocks) {
    Switch(root) == Some(Bool(true)) &&
    exists b | b in bs :: exists e | e in bs[b] :: exists r | r in Owned(t, k, bs, b, e) ::
      Eligible(t.platform, t.target, e, r, k)
  }

  /** extraHookDesired. */
  predicate Desired(t: Task, k: Kind, root: Members, bs: Blocks) {
    Supports(t.target, k) &&
    if t.Selected(k) then !t.remove else Current(t, k, root, bs)
  }

  predicate HasForeign(t: Task, bs: Blocks) {
    exists b | b in bs :: exists e | e in bs[b] :: Foreign(t, bs, b, e) != []
  }

  /** Installing switches hooks on, unless the operator has switched them off or
      has left the switch unset beside hooks of his own. */
  predicate SwitchesOn(t: Task, root: Members, bs: Blocks) {
    && t.target == "zcode" && !t.remove
    && (Desired(t, Contract, root, bs) || Desired(t, AttentionStart, root, bs))
    && Switch(root) != Some(Bool(false))
    && !(Switch(root) == None && HasForeign(t, bs))
  }

  // ---------------------------------------------------------------------
  // The whole plan
  // ---------------------------------------------------------------------

  lemma ASectionStays(t: Task, bs: Blocks)
    requires !IsFlatTarget(t.target) && "" in bs
    ensures "" in Plan(t, bs)
  {
    RoundsAre(t, bs);
  }

  function PlannedRoot(t: Task, wrappedDroid: bool, root: Members): Members
    requires Accepted(t.target, FormOf(t.target, wrappedDroid), root)
  {
    var form := FormOf(t.target, wrappedDroid);
    var bs := BlocksOf(t.target, form, root);
    if !form.Named? then
      ASectionStays(t, bs);
      Rebuilt(form, root, Plan(t, bs), SwitchesOn(t, root, bs))
    else Rebuilt(form, root, Plan(t, bs), false)
  }

  datatype Outcome = Refusal | Content(document: L.Document)

  /** Nothing of what is to be removed is there. */
  predicate Idle(t: Task, bs: Blocks) {
    t.remove && !SelectedOwned(t, bs)
  }

  /** planExtraJSONHooks: a file that does not exist counts as an empty object;
      an empty file, one that is no object, and malformed hooks are refused. */
  ghost function Planned(t: Task, wrappedDroid: bool, original: L.Document, present: bool): Outcome {
    if present && original.Blank? then Refusal
    else
      var root := if present then L.Value(original.root) else Obj(map[]);
      var form := FormOf(t.target, wrappedDroid);
      if !root.Obj? || !Accepted(t.target, form, root.members) then Refusal
      else if Idle(t, BlocksOf(t.target, form, root.members)) then Content(original)
      else Content(L.RenderDocument(original, Obj(PlannedRoot(t, wrappedDroid, root.members))))
  }

  method PlanExtraJSONHooks(t: Task, wrappedDroid: bool, original: L.Document, present: bool) returns (r: Outcome)
    ensures r == Planned(t, wrappedDroid, original, present)
  {
    if present && original.Blank? {
      return Refusal;
    }
    var root := if present then L.Value(original.root) else Obj(map[]);
    var form := FormOf(t.target, wrappedDroid);
    if !root.Obj? || !Accepted(t.target, form, root.members) {
      return Refusal;
    }
    var blocks := BlocksOf(t.target, form, root.members);
    if Idle(t, blocks) {
      return Content(original);
    }
    var bs := PlanHooks(t, blocks);
    if !form.Named? {
      ASectionStays(t, blocks);
    }
    var switchOn := !form.Named? && SwitchesOn(t, root.members, blocks);
    var document := L.RenderExtraJSON(original, Obj(Rebuilt(form, root.members, bs, switchOn)));
    r := Content(document);
  }

  // ---------------------------------------------------------------------
  // Nulls
  // ---------------------------------------------------------------------

  predicate HasNull(v: Json) {
    match v
    case Null => true
    case Arr(items) => exists i :: 0 <= i < |items| && HasNull(items[i])
    case Obj(m) => exists k :: k in m && HasNull(m[k])
    case _ => false
  }

  /** A value written anew adds no null exactly if it holds none. */
  lemma {:induction false} NewAddsItsNulls(v: Json)
    ensures L.NoAddedNull(None, v) <==> !HasNull(v)
  {
    match v
    case Arr(items) =>
      forall i | 0 <= i < |items| ensures L.NoAddedNull(None, items[i]) <==> !HasNull(items[i]) {
        NewAddsItsNulls(items[i]);
      }
    case Obj(m) =>
      forall k | k in m ensures L.NoAddedNull(L.MemberOf(None, k), m[k]) <==> !HasNull(m[k]) {
        NewAddsItsNulls(m[k]);
      }
    case _ =>
  }

  lemma SameAddsNone(v: Json)
    ensures L.NoAddedNull(Some(v), v)
  {
  }

  lemma ObjectAdds(before: Option<Json>, m: Members)
    ensures L.NoAddedNull(before, Obj(m)) <==> forall k :: k in m ==> L.NoAddedNull(L.MemberOf(before, k), m[k])
  {
    if before == Some(Obj(m)) {
      forall k | k in m ensures L.NoAddedNull(L.MemberOf(before, k), m[k]) {
        SameAddsNone(m[k]);
      }
    }
  }

  lemma ArrayAdds(before: Option<Json>, items: seq<Json>)
    ensures L.NoAddedNull(before, Arr(items)) <==>
      forall i :: 0 <= i < |items| ==> L.HasItem(before, items[i]) || !HasNull(items[i])
  {
    forall i | 0 <= i < |items| ensures L.NoAddedNull(None, items[i]) <==> !HasNull(items[i]) {
      NewAddsItsNulls(items[i]);
    }
  }

  /** If only one member of an object is new or other than it was, it decides. */
  lemma OneMemberAdds(before: Option<Json>, m: Members, key: string)
    requires key in m
    requires forall k :: k in m && k != key ==> L.MemberOf(before, k) == Some(m[k]) || m[k].Bool?
    ensures L.NoAddedNull(before, Obj(m)) <==> L.NoAddedNull(L.MemberOf(before, key), m[key])
  {
    ObjectAdds(before, m);
    forall k | k in m && k != key ensures L.NoAddedNull(L.MemberOf(before, k), m[k]) {
      if !m[k].Bool? {
        SameAddsNone(m[k]);
      }
    }
  }

  // ---------------------------------------------------------------------
  // Which entries fit
  // ---------------------------------------------------------------------

  /** The entry can be written: it was there before, or holds no null. */
  predicate Fits(before: seq<Entry>, x: Entry) {
    EntryJson(x) in EntriesJson(before) || !HasNull(EntryJson(x))
  }

  predicate AllFit(before: seq<Entry>, after: seq<Entry>) {
    forall x :: x in after ==> Fits(before, x)
  }

  function SectionEntries(s: Section, e: string): seq<Entry> {
    if e in s && s[e].Items? then s[e].entries else []
  }

  lemma EventAdds(before: Option<Json>, was: seq<Entry>, entries: seq<Entry>)
    requires before == Some(Arr(EntriesJson(was))) || (before == None && was == [])
    ensures L.NoAddedNull(before, Arr(EntriesJson(entries))) <==> AllFit(was, entries)
  {
    var items := EntriesJson(entries);
    ArrayAdds(before, items);
    forall i | 0 <= i < |items|
      ensures L.HasItem(before, items[i]) || !HasNull(items[i]) <==> Fits(was, entries[i])
    {
    }
    if forall i :: 0 <= i < |items| ==> L.HasItem(before, items[i]) || !HasNull(items[i]) {
      forall x | x in entries ensures Fits(was, x) {
        var i :| 0 <= i < |entries| && entries[i] == x;
      }
    }
  }

  /** A section, given that its settings are those it had. */
  lemma SectionAdds(before: Option<Json>, was: Section, s: Section)
    requires before == Some(Obj(SectionJson(was))) || (before == None && was == map[])
    requires forall e :: e in s && s[e].Setting? ==> e in was && was[e] == s[e]
    requires forall e :: e in s && s[e].Items? && e in was ==> was[e].Items?
    ensures L.NoAddedNull(before, Obj(SectionJson(s))) <==>
      forall e :: AllFit(SectionEntries(was, e), SectionEntries(s, e))
  {
    hide AllFit, L.NoAddedNull;
    ObjectAdds(before, SectionJson(s));
    forall e | e in s
      ensures L.NoAddedNull(L.MemberOf(before, e), EventJson(s[e])) <==>
        AllFit(SectionEntries(was, e), SectionEntries(s, e))
    {
      OneEventAdds(before, was, s, e);
    }
    forall e | e !in s ensures AllFit(SectionEntries(was, e), SectionEntries(s, e)) {
      NoneToFit(SectionEntries(was, e));
    }
  }

  lemma NoneToFit(was: seq<Entry>)
    ensures AllFit(was, [])
  {
  }

  lemma OneEventAdds(before: Option<Json>, was: Section, s: Section, e: string)
    requires before == Some(Obj(SectionJson(was))) || (before == None && was == map[])
    requires e in s && (s[e].Setting? ==> e in was && was[e] == s[e]) && (s[e].Items? && e in was ==> was[e].Items?)
    ensures L.NoAddedNull(L.MemberOf(before, e), EventJson(s[e])) <==>
      AllFit(SectionEntries(was, e), SectionEntries(s, e))
  {
    if s[e].Setting? {
      SameAddsNone(s[e].value);
    } else {
      EventAdds(L.MemberOf(before, e), SectionEntries(was, e), s[e].entries);
    }
  }

  // ---------------------------------------------------------------------
  // Parsed configurations
  // ---------------------------------------------------------------------

  lemma EventsAreEvents(target: string, k: Kind)
    ensures !IsSettingName(target, EventOf(target, k))
  {
    assert |EventOf(target, k)| >= 10;
  }

  lemma SectionIsProper(target: string, m: Members)
    requires SectionOk(target, m)
    ensures forall e :: e in m ==> FullValue(SectionOf(target, m)[e])
    ensures forall e :: e in m && SectionOf(target, m)[e].Setting? ==> IsSettingName(target, e)
  {
    forall e | e in m ensures FullValue(SectionOf(target, m)[e]) {
      var v := SectionOf(target, m)[e];
      if v.Items? {
        forall i | 0 <= i < |v.entries| && v.entries[i].Group? ensures v.entries[i].hooks != [] {
          assert EntryOk(IsFlatEvent(target, e), m[e].items[i]);
        }
      }
    }
  }

  /** What is read has no empty groups, and no event of Kata's is a setting. */
  lemma ParsedIsProper(t: Task, form: Form, root: Members)
    requires Accepted(t.target, form, root)
    ensures NonEmptyGroups(BlocksOf(t.target, form, root)) && EventsAreNoSettings(t, BlocksOf(t.target, form, root))
  {
    hide FullValue, EventOf, IsSettingName, SectionOf;
    var bs := BlocksOf(t.target, form, root);
    forall b | b in bs
      ensures forall e :: e in bs[b] ==> FullValue(bs[b][e]) && (bs[b][e].Setting? ==> IsSettingName(t.target, e))
    {
      var m := if form.Named? then root[b].members else OneSection(form, root);
      SectionIsProper(t.target, m);
      SectionKeys(t.target, m);
    }
    forall k ensures !IsSettingName(t.target, EventOf(t.target, k)) {
      EventsAreEvents(t.target, k);
    }
  }

  lemma SectionKeys(target: string, m: Members)
    requires SectionOk(target, m)
    ensures SectionOf(target, m).Keys == m.Keys
  {
  }

  ghost predicate BlockFits(bs: Blocks, p: Blocks, b: string) {
    forall e :: AllFit(Entries(bs, b, e), Entries(p, b, e))
  }

  /** The block's section in the plan, beside the one it had. */
  lemma BlockAdds(t: Task, bs: Blocks, b: string, before: Option<Json>)
    requires EventsAreNoSettings(t, bs) && b in Plan(t, bs)
    requires if b in bs then
        before == Some(Obj(SectionJson(bs[b]))) || (before == None && bs[b] == map[])
      else before == None
    ensures L.NoAddedNull(before, Obj(SectionJson(Plan(t, bs)[b]))) <==> BlockFits(bs, Plan(t, bs), b)
  {
    hide Plan, AllFit, L.NoAddedNull, SectionJson;
    var p := Plan(t, bs);
    var was: Section := if b in bs then bs[b] else map[];
    forall e ensures SettingAt(p, b, e) == SettingAt(bs, b, e) {
      PlanKeepsSettings(t, bs, b, e);
    }
    SettingsAre(bs, p, b);
    SectionAdds(before, was, p[b]);
    forall e ensures SectionEntries(was, e) == Entries(bs, b, e) && SectionEntries(p[b], e) == Entries(p, b, e) {
      EntriesAre(bs, b, was, e);
      EntriesAre(p, b, p[b], e);
    }
    assert forall e :: AllFit(SectionEntries(was, e), SectionEntries(p[b], e)) <==>
        AllFit(Entries(bs, b, e), Entries(p, b, e));
  }

  lemma EntriesAre(bs: Blocks, b: string, s: Section, e: string)
    requires if b in bs then s == bs[b] else s == map[]
    ensures Entries(bs, b, e) == SectionEntries(s, e)
  {
  }

  lemma SettingsAre(bs: Blocks, p: Blocks, b: string)
    requires b in p && forall e :: SettingAt(p, b, e) == SettingAt(bs, b, e)
    ensures var was: Section := if b in bs then bs[b] else map[];
      && (forall e :: e in p[b] && p[b][e].Setting? ==> e in was && was[e] == p[b][e])
      && (forall e :: e in p[b] && p[b][e].Items? && e in was ==> was[e].Items?)
  {
    forall e | e in p[b]
      ensures var was: Section := if b in bs then bs[b] else map[];
        && (p[b][e].Setting? ==> e in was && was[e] == p[b][e])
        && (p[b][e].Items? && e in was ==> was[e].Items?)
    {
      assert SettingAt(p, b, e) == SettingAt(bs, b, e);
    }
  }

  // ---------------------------------------------------------------------
  // The whole root
  // ---------------------------------------------------------------------

  ghost predicate EveryEntryFits(bs: Blocks, p: Blocks) {
    forall b :: BlockFits(bs, p, b)
  }

  lemma AbsentFits(bs: Blocks, p: Blocks, b: string)
    requires b !in p
    ensures BlockFits(bs, p, b)
  {
    forall e ensures AllFit(Entries(bs, b, e), Entries(p, b, e)) {
      NoneToFit(Entries(bs, b, e));
    }
  }

  lemma OneBlock(t: Task, bs: Blocks)
    requires !IsFlatTarget(t.target) && bs.Keys == {""}
    ensures Plan(t, bs).Keys == {""}
  {
    hide Settled, SelectedOwned;
    RoundsAre(t, bs);
  }

  lemma OnlyBlockFits(bs: Blocks, p: Blocks)
    requires p.Keys == {""}
    ensures EveryEntryFits(bs, p) <==> BlockFits(bs, p, "")
  {
    hide BlockFits;
    forall b | b != "" ensures BlockFits(bs, p, b) {
      AbsentFits(bs, p, b);
    }
  }

  /** The one section of a root without named blocks. */
  lemma OneSectionAdds(t: Task, bs: Blocks, before: Option<Json>)
    requires EventsAreNoSettings(t, bs) && !IsFlatTarget(t.target) && bs.Keys == {""}
    requires before == Some(Obj(SectionJson(bs[""]))) || (before == None && bs[""] == map[])
    ensures "" in Plan(t, bs)
    ensures L.NoAddedNull(before, Obj(SectionJson(Plan(t, bs)[""]))) <==> EveryEntryFits(bs, Plan(t, bs))
  {
    hide Plan, AllFit, L.NoAddedNull, SectionJson, EveryEntryFits;
    OneBlock(t, bs);
    BlockAdds(t, bs, "", before);
    OnlyBlockFits(bs, Plan(t, bs));
  }

  lemma NamedAdds(t: Task, root: Members)
    requires Accepted(t.target, Named, root)
    ensures var bs := BlocksOf(t.target, Named, root);
      L.NoAddedNull(Some(Obj(root)), Obj(Rebuilt(Named, root, Plan(t, bs), false))) <==>
        EveryEntryFits(bs, Plan(t, bs))
  {
    hide Plan, BlockFits, L.NoAddedNull, SectionJson, SectionOf;
    var bs := BlocksOf(t.target, Named, root);
    var p := Plan(t, bs);
    var m := Rebuilt(Named, root, p, false);
    ParsedIsProper(t, Named, root);
    ObjectAdds(Some(Obj(root)), m);
    forall b | b in m
      ensures L.NoAddedNull(L.MemberOf(Some(Obj(root)), b), m[b]) <==> BlockFits(bs, p, b)
    {
      if b in root {
        SectionBack(t.target, root[b].members);
      }
      BlockAdds(t, bs, b, L.MemberOf(Some(Obj(root)), b));
    }
    forall b | b !in p ensures BlockFits(bs, p, b) {
      AbsentFits(bs, p, b);
    }
  }

  lemma SectionBefore(target: string, m: Members, key: string)
    requires ObjectAt(m, key) && SectionOk(target, MembersAt(m, key))
    ensures var before := L.MemberOf(Some(Obj(m)), key);
      var s := SectionOf(target, MembersAt(m, key));
      before == Some(Obj(SectionJson(s))) || (before == None && s == map[])
  {
    SectionBack(target, MembersAt(m, key));
  }

  lemma WrappedAdds(t: Task, root: Members)
    requires Accepted(t.target, Wrapped, root) && !IsFlatTarget(t.target)
    ensures var bs := BlocksOf(t.target, Wrapped, root);
      && "" in Plan(t, bs)
      && (L.NoAddedNull(Some(Obj(root)), Obj(Rebuilt(Wrapped, root, Plan(t, bs), false))) <==>
        EveryEntryFits(bs, Plan(t, bs)))
  {
    hide Plan, AllFit, L.NoAddedNull, SectionJson, SectionOf, EveryEntryFits;
    var bs := BlocksOf(t.target, Wrapped, root);
    ParsedIsProper(t, Wrapped, root);
    SectionBefore(t.target, root, "hooks");
    OneSectionAdds(t, bs, L.MemberOf(Some(Obj(root)), "hooks"));
    OneMemberAdds(Some(Obj(root)), Rebuilt(Wrapped, root, Plan(t, bs), false), "hooks");
  }

  lemma BareAdds(t: Task, root: Members)
    requires Accepted(t.target, Bare, root) && !IsFlatTarget(t.target)
    ensures var bs := BlocksOf(t.target, Bare, root);
      && "" in Plan(t, bs)
      && (L.NoAddedNull(Some(Obj(root)), Obj(Rebuilt(Bare, root, Plan(t, bs), false))) <==>
        EveryEntryFits(bs, Plan(t, bs)))
  {
    hide Plan, AllFit, L.NoAddedNull, SectionJson, SectionOf, EveryEntryFits;
    ParsedIsProper(t, Bare, root);
    SectionBack(t.target, root);
    OneSectionAdds(t, BlocksOf(t.target, Bare, root), Some(Obj(root)));
  }

  lemma EventsAdd(t: Task, root: Members, switchOn: bool)
    requires Accepted(t.target, Events, root) && !IsFlatTarget(t.target)
    ensures var bs := BlocksOf(t.target, Events, root);
      && "" in Plan(t, bs)
      && (L.NoAddedNull(Some(Obj(root)), Obj(Rebuilt(Events, root, Plan(t, bs), switchOn))) <==>
        EveryEntryFits(bs, Plan(t, bs)))
  {
    hide Plan, AllFit, L.NoAddedNull, SectionJson, SectionOf, EveryEntryFits;
    var bs := BlocksOf(t.target, Events, root);
    var hooks, before := MembersAt(root, "hooks"), L.MemberOf(Some(Obj(root)), "hooks");
    ParsedIsProper(t, Events, root);
    SectionBefore(t.target, hooks, "events");
    OneSectionAdds(t, bs, L.MemberOf(Some(Obj(hooks)), "events"));
    var m := Rebuilt(Events, root, Plan(t, bs), switchOn);
    OneMemberAdds(Some(Obj(root)), m, "hooks");
    OneMemberAdds(before, m["hooks"].members, "events");
  }

  /** The new root adds no null exactly if all its entries fit. */
  lemma RootAdds(t: Task, wrappedDroid: bool, root: Members)
    requires Accepted(t.target, FormOf(t.target, wrappedDroid), root)
    ensures var bs := BlocksOf(t.target, FormOf(t.target, wrappedDroid), root);
      L.NoAddedNull(Some(Obj(root)), Obj(PlannedRoot(t, wrappedDroid, root))) <==> EveryEntryFits(bs, Plan(t, bs))
  {
    hide Plan, L.NoAddedNull, EveryEntryFits, Rebuilt, SwitchesOn, Accepted, BlocksOf;
    var form := FormOf(t.target, wrappedDroid);
    match form
    case Named => NamedAdds(t, root);
    case Bare => OnlyZcodeSwitches(t, root, BlocksOf(t.target, form, root)); BareAdds(t, root);
    case Wrapped => OnlyZcodeSwitches(t, root, BlocksOf(t.target, form, root)); WrappedAdds(t, root);
    case Events => EventsAdd(t, root, SwitchesOn(t, root, BlocksOf(t.target, form, root)));
  }

  lemma OnlyZcodeSwitches(t: Task, root: Members, bs: Blocks)
    ensures t.target != "zcode" ==> !SwitchesOn(t, root, bs)
  {
  }

  // ---------------------------------------------------------------------
  // When the new text can be read
  // ---------------------------------------------------------------------

  /** What the plan leaves of an entry can be written. */
  predicate LeftFits(t: Task, kinds: set<Kind>, before: seq<Entry>, entry: Entry) {
    AllFit(before, KeepEntry(entry, Outside(t, kinds)))
  }

  /** Whatever is left of an entry that loses a handler holds no null, unless the
      event had that very entry already. (What loses nothing always fits.) */
  ghost predicate Clean(t: Task, bs: Blocks) {
    forall b, e :: EventClean(t, bs, b, e)
  }

  ghost predicate EventClean(t: Task, bs: Blocks, b: string, e: string) {
    forall entry :: entry in Entries(bs, b, e) ==> LeftFits(t, Removed(t, bs), Entries(bs, b, e), entry)
  }

  lemma {:induction false} KeptMembers(entries: seq<Entry>, keep: Handler -> bool)
    ensures forall x :: x in KeepEntries(entries, keep) <==>
      exists entry :: entry in entries && x in KeepEntry(entry, keep)
  {
    if entries != [] {
      var n := |entries| - 1;
      KeptMembers(entries[..n], keep);
      KeepLast(entries, keep);
      assert entries == entries[..n] + [entries[n]];
    }
  }

  lemma NewHasNoNull(t: Task, k: Kind)
    ensures !HasNull(EntryJson(NewEntry(t, k)))
  {
    HandlerHasNoNull(t, k);
    if !IsFlatTarget(t.target) {
      var none: map<string, Json> := map[];
      var hooks := Handlers([t.New(k)]);
      assert hooks == [Obj(t.New(k))];
      assert !HasNull(Arr(hooks));
      assert EntryJson(NewEntry(t, k)) == Obj(none["hooks" := Arr(hooks)]);
    }
  }

  lemma HandlerHasNoNull(t: Task, k: Kind)
    ensures !HasNull(Obj(t.New(k)))
  {
    var h := t.New(k);
    if t.target == "zcode" {
      assert h["args"].Arr? && forall i :: 0 <= i < |h["args"].items| ==> h["args"].items[i].Str?;
      assert !HasNull(h["args"]);
    }
  }

  lemma AllNewFit(t: Task, bs: Blocks, b: string, e: string, before: seq<Entry>)
    ensures AllFit(before, AllNew(t, bs, b, e))
  {
    hide HasNull, NewEntry, Removes, EntryJson;
    NewHasNoNull(t, Contract);
    NewHasNoNull(t, AttentionStart);
    NewHasNoNull(t, AttentionEnd);
  }

  lemma TwoFit(before: seq<Entry>, x: seq<Entry>, y: seq<Entry>)
    ensures AllFit(before, x + y) <==> AllFit(before, x) && AllFit(before, y)
  {
    hide Fits;
    assert (forall a :: a in x ==> a in x + y) && forall a :: a in y ==> a in x + y;
  }

  lemma EventFits(t: Task, bs: Blocks, b: string, e: string)
    requires t.Built() && NonEmptyGroups(bs) && !Idle(t, bs)
    ensures AllFit(Entries(bs, b, e), Entries(Plan(t, bs), b, e)) <==> EventClean(t, bs, b, e)
  {
    hide Plan, Fits, KeepEntry, KeepEntries, Removed, AllNew, Entries, Outside;
    var was, keep := Entries(bs, b, e), Outside(t, Removed(t, bs));
    PlanEntries(t, bs, b, e);
    AllNewFit(t, bs, b, e, was);
    TwoFit(was, KeepEntries(was, keep), AllNew(t, bs, b, e));
    KeptMembers(was, keep);
  }

  lemma PlanFits(t: Task, bs: Blocks)
    requires t.Built() && NonEmptyGroups(bs) && !Idle(t, bs)
    ensures EveryEntryFits(bs, Plan(t, bs)) <==> Clean(t, bs)
  {
    hide Plan, AllFit, Entries, EventClean;
    forall b, e ensures AllFit(Entries(bs, b, e), Entries(Plan(t, bs), b, e)) <==> EventClean(t, bs, b, e) {
      EventFits(t, bs, b, e);
    }
    if Clean(t, bs) {
      forall b ensures BlockFits(bs, Plan(t, bs), b) {
        assert forall e :: EventClean(t, bs, b, e);
      }
    }
    if EveryEntryFits(bs, Plan(t, bs)) {
      forall b, e ensures EventClean(t, bs, b, e) {
        assert BlockFits(bs, Plan(t, bs), b);
      }
    }
  }

  /** The text that planning writes reads as the configuration that was planned
      if and only if the configuration is clean. Any other is written as a text
      that does not read back: removing a handler of Kata's from a group that
      holds a null loses the null. */
  lemma PlannedReads(t: Task, wrappedDroid: bool, original: L.Document)
    requires t.Built() && original.Text? && L.IsAuthored(original.root) && L.Value(original.root).Obj?
    requires Accepted(t.target, FormOf(t.target, wrappedDroid), L.Value(original.root).members)
    ensures var root := L.Value(original.root).members;
      var bs := BlocksOf(t.target, FormOf(t.target, wrappedDroid), root);
      var r := Planned(t, wrappedDroid, original, true);
      && r.Content?
      && (if Idle(t, bs) then r.document == original
          else L.ReadDocument(r.document) == Some(Obj(PlannedRoot(t, wrappedDroid, root))) <==> Clean(t, bs))
  {
    hide Plan, PlannedRoot, L.ReadDocument, L.RenderDocument, EveryEntryFits, Clean, L.NoAddedNull, BlocksOf, Accepted;
    var root := L.Value(original.root).members;
    var form := FormOf(t.target, wrappedDroid);
    var bs := BlocksOf(t.target, form, root);
    if !Idle(t, bs) {
      ParsedIsProper(t, form, root);
      PlanFits(t, bs);
      RootAdds(t, wrappedDroid, root);
      L.DocumentReads(original, Obj(PlannedRoot(t, wrappedDroid, root)));
    }
  }

  /** A file that does not exist yet is planned as an empty object, and what is
      written for it always reads back. One that is there but blank is refused. */
  lemma NewFileReads(t: Task, wrappedDroid: bool, nothing: L.Document)
    requires nothing.Blank?
    ensures var root: Members := map[];
      var form := FormOf(t.target, wrappedDroid);
      var r := Planned(t, wrappedDroid, nothing, false);
      && r.Content? && Accepted(t.target, form, root)
      && (if Idle(t, BlocksOf(t.target, form, root)) then r.document == nothing
          else L.ReadDocument(r.document) == Some(Obj(PlannedRoot(t, wrappedDroid, root))))
    ensures Planned(t, wrappedDroid, nothing, true) == Refusal
  {
    hide PlannedRoot, Idle, BlocksOf, L.ReadDocument, L.RenderDocument;
    var root: Members := map[];
    L.DocumentReads(nothing, Obj(PlannedRoot(t, wrappedDroid, root)));
  }
}
