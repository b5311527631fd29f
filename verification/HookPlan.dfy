/** Reconciling Kata's handlers with foreign ones (cmd/kata/agent_hooks_extra_json.go, planExtraJSONHooks). */
module HookPlan {
  import opened Decimal
  import opened HookKinds
  import opened Json
  import opened Options
  import ShellWords

  // A configuration is a map of blocks (one unnamed block, except for
  // Antigravity), each a map of events, each a list of entries.

  /** A group of handlers with its other fields, or a bare handler. */
  datatype Entry = Group(fields: map<string, Json>, hooks: seq<Handler>) | Flat(handler: Handler)

  /** An event's entries, or a setting that is no event. */
  datatype EventValue = Items(entries: seq<Entry>) | Setting(value: Json)

  type Section = map<string, EventValue>
  type Blocks = map<string, Section>

  /** What planning is asked to do. `native` gives the command line for a kind. */
  datatype Task = Task(platform: Platform, target: string, executable: string, native: Kind -> string,
                       contract: bool, attention: bool, remove: bool)
  {
    function KindOf(h: Handler): Option<Kind> {
      HookKinds.KindOf(platform, target, h)
    }

    function New(k: Kind): Handler {
      NewHandler(target, executable, native(k), k)
    }

    predicate Selected(k: Kind) {
      if k == Contract then contract else attention
    }

    /** What extraHookDesired decides for a selected kind. */
    predicate Wanted(k: Kind) {
      !remove && Supports(target, k)
    }

    /** The plan generates a handler of this kind. */
    predicate Writes(k: Kind) {
      Selected(k) && Wanted(k)
    }

    /** The command lines that are needed spell the argv they were built for. */
    ghost predicate Built() {
      forall k :: Writes(k) ==> Spells(platform, native(k), Argv(target, executable, k)) && !BlankText(native(k))
    }
  }

  // ---------------------------------------------------------------------
  // Registrations
  // ---------------------------------------------------------------------

  /** A handler with the condition its group or block puts on it. */
  datatype Reg = Reg(handler: Handler, unconditional: bool)

  predicate Unmatched(fields: map<string, Json>) {
    "matcher" !in fields || fields["matcher"] in {Null, Str(""), Str("*")}
  }

  predicate Enabled(s: Section) {
    !("enabled" in s && s["enabled"] == Setting(Bool(false)))
  }

  function EntryRegs(entry: Entry, enabled: bool): seq<Reg> {
    match entry
    case Flat(h) => [Reg(h, enabled)]
    case Group(fields, hooks) => seq(|hooks|, i requires 0 <= i < |hooks| => Reg(hooks[i], Unmatched(fields)))
  }

  function ListRegs(entries: seq<Entry>, enabled: bool): seq<Reg> {
    if entries == [] then []
    else ListRegs(entries[..|entries| - 1], enabled) + EntryRegs(entries[|entries| - 1], enabled)
  }

  /** The registrations of one event of one block, in order. */
  function Regs(bs: Blocks, b: string, e: string): seq<Reg> {
    if b in bs && e in bs[b] && bs[b][e].Items? then ListRegs(bs[b][e].entries, Enabled(bs[b])) else []
  }

  /** Those whose handler passes a test. */
  function Filter(rs: seq<Reg>, keep: Handler -> bool): seq<Reg> {
    if rs == [] then []
    else Filter(rs[..|rs| - 1], keep) + if keep(rs[|rs| - 1].handler) then [rs[|rs| - 1]] else []
  }

  function IsKind(t: Task, k: Kind): Handler -> bool { h => t.KindOf(h) == Some(k) }
  function NotKind(t: Task, k: Kind): Handler -> bool { h => t.KindOf(h) != Some(k) }
  function IsForeign(t: Task): Handler -> bool { h => t.KindOf(h) == None }

  /** The owned registrations of a kind, and the foreign ones. */
  function Owned(t: Task, k: Kind, bs: Blocks, b: string, e: string): seq<Reg> { Filter(Regs(bs, b, e), IsKind(t, k)) }
  function Foreign(t: Task, bs: Blocks, b: string, e: string): seq<Reg> { Filter(Regs(bs, b, e), IsForeign(t)) }

  // ---------------------------------------------------------------------
  // Removal
  // ---------------------------------------------------------------------

  function KeepHooks(hooks: seq<Handler>, keep: Handler -> bool): seq<Handler> {
    if hooks == [] then []
    else KeepHooks(hooks[..|hooks| - 1], keep) + if keep(hooks[|hooks| - 1]) then [hooks[|hooks| - 1]] else []
  }

  function KeepEntry(entry: Entry, keep: Handler -> bool): seq<Entry> {
    match entry
    case Flat(h) => if keep(h) then [entry] else []
    case Group(fields, hooks) => if KeepHooks(hooks, keep) == [] then [] else [Group(fields, KeepHooks(hooks, keep))]
  }

  function KeepEntries(entries: seq<Entry>, keep: Handler -> bool): seq<Entry> {
    if entries == [] then []
    else KeepEntries(entries[..|entries| - 1], keep) + KeepEntry(entries[|entries| - 1], keep)
  }

  /** An event that loses its last entry disappears. */
  predicate Vanishes(v: EventValue, keep: Handler -> bool) {
    v.Items? && v.entries != [] && KeepEntries(v.entries, keep) == []
  }

  function Thin(v: EventValue, keep: Handler -> bool): EventValue {
    if v.Items? then Items(KeepEntries(v.entries, keep)) else v
  }

  /** removeExtraJSONKind, whatever order the map is walked in. */
  function Thinned(s: Section, keep: Handler -> bool): Section {
    map e | e in s && !Vanishes(s[e], keep) :: Thin(s[e], keep)
  }

  function AllThinned(bs: Blocks, keep: Handler -> bool): Blocks {
    map b | b in bs :: Thinned(bs[b], keep)
  }

  /** removeExtraJSONKind with its loops over a section that it changes. */
  method RemoveKind(t: Task, section: Section, k: Kind) returns (s: Section)
    ensures s == Thinned(section, NotKind(t, k))
  {
    s := section;
    var left := section.Keys;
    while left != {}
      invariant left <= section.Keys
      invariant forall e :: e in left ==> e in s && s[e] == section[e]
      invariant forall e :: e in section && e !in left ==>
                  if Vanishes(section[e], NotKind(t, k)) then e !in s
                  else e in s && s[e] == Thin(section[e], NotKind(t, k))
      invariant forall e :: e in s ==> e in section
      decreases left
    {
      var event :| event in left;
      if s[event].Items? {
        var kept := RemoveFromEntries(t, s[event].entries, k);
        if kept == [] && s[event].entries != [] {
          s := map e | e in s && e != event :: s[e];
        } else {
          s := s[event := Items(kept)];
        }
      }
      left := left - {event};
    }
  }

  method RemoveFromEntries(t: Task, entries: seq<Entry>, k: Kind) returns (kept: seq<Entry>)
    ensures kept == KeepEntries(entries, NotKind(t, k))
  {
    kept := [];
    for i := 0 to |entries|
      invariant kept == KeepEntries(entries[..i], NotKind(t, k))
    {
      assert entries[..i + 1][..i] == entries[..i];
      match entries[i] {
        case Flat(h) =>
          if t.KindOf(h) != Some(k) {
            kept := kept + [entries[i]];
          }
        case Group(fields, hooks) =>
          var remaining := RemoveFromHooks(t, hooks, k);
          if remaining != [] {
            kept := kept + [Group(fields, remaining)];
          }
      }
    }
    assert entries[..|entries|] == entries;
  }

  method RemoveFromHooks(t: Task, hooks: seq<Handler>, k: Kind) returns (remaining: seq<Handler>)
    ensures remaining == KeepHooks(hooks, NotKind(t, k))
  {
    remaining := [];
    for i := 0 to |hooks|
      invariant remaining == KeepHooks(hooks[..i], NotKind(t, k))
    {
      assert hooks[..i + 1][..i] == hooks[..i];
      if t.KindOf(hooks[i]) != Some(k) {
        remaining := remaining + [hooks[i]];
      }
    }
    assert hooks[..|hooks|] == hooks;
  }

  // ---------------------------------------------------------------------
  // Filtering registrations
  // ---------------------------------------------------------------------

  lemma {:induction false} FilterConcat(x: seq<Reg>, y: seq<Reg>, keep: Handler -> bool)
    ensures Filter(x + y, keep) == Filter(x, keep) + Filter(y, keep)
  {
    if y == [] {
      assert x + y == x;
    } else {
      var n := |y| - 1;
      assert (x + y)[..|x| + n] == x + y[..n];
      FilterConcat(x, y[..n], keep);
    }
  }

  lemma {:induction false} FilterHooks(fields: map<string, Json>, hooks: seq<Handler>, keep: Handler -> bool,
      enabled: bool)
    ensures EntryRegs(Group(fields, KeepHooks(hooks, keep)), enabled)
      == Filter(EntryRegs(Group(fields, hooks), enabled), keep)
  {
    if hooks != [] {
      var n := |hooks| - 1;
      FilterHooks(fields, hooks[..n], keep, enabled);
      var rs := EntryRegs(Group(fields, hooks), enabled);
      assert rs[..n] == EntryRegs(Group(fields, hooks[..n]), enabled);
      assert rs[n] == Reg(hooks[n], Unmatched(fields));
      var front := KeepHooks(hooks[..n], keep);
      assert EntryRegs(Group(fields, front + [hooks[n]]), enabled)
        == EntryRegs(Group(fields, front), enabled) + [rs[n]];
    }
  }

  lemma FilterEntry(entry: Entry, keep: Handler -> bool, enabled: bool)
    ensures ListRegs(KeepEntry(entry, keep), enabled) == Filter(EntryRegs(entry, enabled), keep)
  {
    if entry.Group? {
      FilterHooks(entry.fields, entry.hooks, keep, enabled);
      OneEntry(Group(entry.fields, KeepHooks(entry.hooks, keep)), enabled);
    } else {
      OneEntry(entry, enabled);
      assert [Reg(entry.handler, enabled)][..0] == [];
    }
  }

  lemma OneEntry(entry: Entry, enabled: bool)
    ensures ListRegs([entry], enabled) == EntryRegs(entry, enabled)
  {
    assert [entry][..0] == [];
  }

  lemma LastEntry(x: seq<Entry>, y: seq<Entry>)
    requires y != []
    ensures var n := |y| - 1; (x + y)[..|x| + n] == x + y[..n] && (x + y)[|x| + n] == y[n] && |x + y| == |x| + n + 1
  {
  }

  lemma {:induction false} ListConcat(x: seq<Entry>, y: seq<Entry>, enabled: bool)
    ensures ListRegs(x + y, enabled) == ListRegs(x, enabled) + ListRegs(y, enabled)
  {
    hide EntryRegs;
    if y == [] {
      assert x + y == x;
    } else {
      var n := |y| - 1;
      LastEntry(x, y);
      ListConcat(x, y[..n], enabled);
      Associative(ListRegs(x, enabled), ListRegs(y[..n], enabled), EntryRegs(y[n], enabled));
    }
  }

  lemma Associative<T>(x: seq<T>, y: seq<T>, z: seq<T>)
    ensures (x + y) + z == x + (y + z)
  {
  }

  lemma {:induction false} FilterEntries(entries: seq<Entry>, keep: Handler -> bool, enabled: bool)
    ensures ListRegs(KeepEntries(entries, keep), enabled) == Filter(ListRegs(entries, enabled), keep)
  {
    if entries != [] {
      var n := |entries| - 1;
      FilterEntries(entries[..n], keep, enabled);
      FilterEntry(entries[n], keep, enabled);
      ListConcat(KeepEntries(entries[..n], keep), KeepEntry(entries[n], keep), enabled);
      FilterConcat(ListRegs(entries[..n], enabled), EntryRegs(entries[n], enabled), keep);
    }
  }

  /** Removal filters every event's registrations and nothing else. */
  lemma {:induction false} ThinningFilters(bs: Blocks, keep: Handler -> bool, b: string, e: string)
    ensures Regs(AllThinned(bs, keep), b, e) == Filter(Regs(bs, b, e), keep)
  {
    if b in bs {
      var s, thin := bs[b], Thinned(bs[b], keep);
      assert Enabled(thin) == Enabled(s);
      if e in s && s[e].Items? {
        FilterEntries(s[e].entries, keep, Enabled(s));
      }
    }
  }

  // ---------------------------------------------------------------------
  // One kind
  // ---------------------------------------------------------------------

  /** extraJSONHandlerMatches: every generated field is there unchanged, and
      the handler is neither disabled nor asynchronous. */
  predicate Matches(current: Handler, desired: Handler) {
    && (forall f :: f in desired ==> f in current && current[f] == desired[f])
    && !("enabled" in current && current["enabled"] == Bool(false))
    && !("async" in current && current["async"] == Bool(true))
  }

  predicate BlankText(s: string) {
    forall c :: c in s ==> c == ' ' || '\t' <= c <= '\r'
  }

  /** strconv.ParseUint(s, 10, 64) succeeds. */
  predicate IsUint64(s: string) {
    s != "" && (forall c :: c in s ==> IsDigit(c)) && Number(s) < 0x1_0000_0000_0000_0000
  }

  /** extraMuseHandlerTypesValid. */
  predicate MuseTypes(v: Json) {
    v.Obj? && forall f :: f in v.members ==>
      var x := v.members[f];
      if f in {"type", "command", "commandWindows", "command_windows", "statusMessage"} then x.Str?
      else if f == "timeout" then x.Num? && IsUint64(x.literal)
      else if f == "async" then x.Bool?
      else if f == "onFailure" then MuseTypes(x)
      else if f == "outputCapabilities" then x.Arr? && forall i :: 0 <= i < |x.items| ==> x.items[i].Str?
      else true
  }

  const MUSE_FIELDS := {"type", "command", "commandWindows", "command_windows", "timeout", "statusMessage", "async",
                        "onFailure", "silent"}

  /** What Muse itself asks of a handler. */
  predicate MuseAccepts(h: Handler) {
    "type" in h && h["type"] == Str("command") && MuseTypes(Obj(h)) && h.Keys <= MUSE_FIELDS
  }

  /** A nonempty text in a field, or else the given one. */
  function TextOr(h: Handler, field: string, other: string): string {
    if field in h && h[field].Str? && h[field].s != "" then h[field].s else other
  }

  /** The command line that the target runs on this system. */
  function CommandOf(p: Platform, target: string, h: Handler): string {
    var command := TextOr(h, "command", "");
    if target == "muse" && p.windows then TextOr(h, "commandWindows", TextOr(h, "command_windows", command))
    else command
  }

  /** extraJSONRegistrationEligible. */
  predicate Eligible(p: Platform, target: string, event: string, r: Reg, k: Kind) {
    && event == EventOf(target, k) && r.unconditional
    && !("enabled" in r.handler && r.handler["enabled"] == Bool(false))
    && Supports(target, k)
    && !(k == Contract && "async" in r.handler && r.handler["async"] == Bool(true))
    && !BlankText(CommandOf(p, target, r.handler))
    && (target == "muse" ==> MuseAccepts(r.handler))
  }

  /** The only owned registration of the kind is the one of block `b`, event
      `e`, and it needs no repair. */
  predicate SettledAt(t: Task, k: Kind, bs: Blocks, b: string, e: string) {
    var owned := Owned(t, k, bs, b, e);
    |owned| == 1 && Eligible(t.platform, t.target, e, owned[0], k) && Matches(owned[0].handler, t.New(k)) &&
    forall c :: c in bs ==> forall f :: f in bs[c] && (c != b || f != e) ==> Owned(t, k, bs, c, f) == []
  }

  predicate Settled(t: Task, k: Kind, bs: Blocks) {
    exists b :: b in bs && exists e :: e in bs[b] && SettledAt(t, k, bs, b, e)
  }

  predicate IsFlatTarget(target: string) {
    target == "antigravity"
  }

  /** Where a new handler goes: the unnamed block, or a new block of its own. */
  function NewEntry(t: Task, k: Kind): Entry {
    if IsFlatTarget(t.target) then Flat(t.New(k)) else Group(map[], [t.New(k)])
  }

  /** One more entry at the end of an event. */
  function WithEntry(bs: Blocks, b: string, e: string, entry: Entry): Blocks {
    var s: Section := if b in bs then bs[b] else map[];
    bs[b := s[e := Items((if e in s && s[e].Items? then s[e].entries else []) + [entry])]]
  }

  function Appended(t: Task, k: Kind, bs: Blocks, b: string): Blocks {
    WithEntry(bs, b, EventOf(t.target, k), NewEntry(t, k))
  }

  /** "kata", "kata-2", "kata-3", ... */
  function BlockName(n: nat): string {
    if n <= 1 then "kata" else "kata-" + Digits(n)
  }

  /** Which of the given names are block names from `n` on. */
  ghost function UsedFrom(names: set<string>, n: nat): set<string> {
    set b | b in names && exists i :: i >= n && BlockName(i) == b
  }

  lemma NamesDiffer(i: nat, j: nat)
    requires 1 <= i < j
    ensures BlockName(i) != BlockName(j)
  {
    assert |BlockName(j)| > 5 && BlockName(j)[5..] == Digits(j);
    if i > 1 {
      assert BlockName(i)[5..] == Digits(i);
      if Digits(i) == Digits(j) {
        DigitsInjective(i, j);
      }
    } else {
      assert |BlockName(i)| == 4;
    }
  }

  lemma UsedShrinks(names: set<string>, n: nat)
    requires n >= 1 && BlockName(n) in names
    ensures UsedFrom(names, n + 1) < UsedFrom(names, n)
    ensures |UsedFrom(names, n + 1)| < |UsedFrom(names, n)|
  {
    forall i | i >= n + 1 ensures BlockName(i) != BlockName(n) {
      NamesDiffer(n, i);
    }
    assert BlockName(n) in UsedFrom(names, n) && BlockName(n) !in UsedFrom(names, n + 1);
    SmallerSet(UsedFrom(names, n + 1), UsedFrom(names, n));
  }

  lemma {:induction false} SmallerSet<T>(a: set<T>, b: set<T>)
    requires a < b
    ensures |a| < |b|
  {
    var x :| x in b && x !in a;
    assert a <= b - {x};
    SubsetSize(a, b - {x});
  }

  lemma {:induction false} SubsetSize<T>(a: set<T>, b: set<T>)
    requires a <= b
    ensures |a| <= |b|
    decreases |a|
  {
    if a != {} {
      var x :| x in a;
      SubsetSize(a - {x}, b - {x});
    }
  }

  /** The first name from `n` on that is free; the map is finite. */
  function FreeName(names: set<string>, n: nat): string
    requires n >= 1
    decreases |UsedFrom(names, n)|
  {
    if BlockName(n) in names then
      UsedShrinks(names, n);
      FreeName(names, n + 1)
    else BlockName(n)
  }

  function Home(t: Task, bs: Blocks): string {
    if IsFlatTarget(t.target) then FreeName(bs.Keys, 1) else ""
  }

  /** One round of the reconciliation loop. */
  function Reconciled(t: Task, k: Kind, bs: Blocks): Blocks {
    if !t.Selected(k) || (t.Wanted(k) && Settled(t, k, bs)) then bs
    else
      var thin := AllThinned(bs, NotKind(t, k));
      if t.Wanted(k) then Appended(t, k, thin, Home(t, thin)) else thin
  }

  // ---------------------------------------------------------------------
  // The whole plan
  // ---------------------------------------------------------------------

  /** Some handler of a selected kind is configured. */
  predicate SelectedOwned(t: Task, bs: Blocks) {
    exists k | k in KINDS :: t.Selected(k) && exists b | b in bs :: exists e | e in bs[b] :: Owned(t, k, bs, b, e) != []
  }

  /** Antigravity blocks that lost their last event are deleted. */
  function Tidied(t: Task, before: Blocks, bs: Blocks): Blocks {
    if !IsFlatTarget(t.target) then bs
    else map b | b in bs && !(bs[b] == map[] && b in before && before[b] != map[]) :: bs[b]
  }

  function RoundsFrom(t: Task, bs: Blocks, i: nat): Blocks
    requires i <= |KINDS|
    decreases |KINDS| - i
  {
    if i == |KINDS| then bs else RoundsFrom(t, Reconciled(t, KINDS[i], bs), i + 1)
  }

  /** planExtraJSONHooks, as far as the configuration goes. */
  function Plan(t: Task, bs: Blocks): Blocks {
    if t.remove && !SelectedOwned(t, bs) then bs else Tidied(t, bs, RoundsFrom(t, bs, 0))
  }

  /** planExtraJSONHooks with its loops over kinds and sections. */
  method PlanHooks(t: Task, root: Blocks) returns (bs: Blocks)
    ensures bs == Plan(t, root)
  {
    bs := root;
    if t.remove && !SelectedOwned(t, root) {
      return;
    }
    for i := 0 to |KINDS|
      invariant RoundsFrom(t, bs, i) == RoundsFrom(t, root, 0)
    {
      var k := KINDS[i];
      if t.Selected(k) && !(t.Wanted(k) && Settled(t, k, bs)) {
        bs := RemoveEverywhere(t, bs, k);
        if t.Wanted(k) {
          bs := Appended(t, k, bs, Home(t, bs));
        }
      }
    }
    bs := Tidied(t, root, bs);
  }

  method RemoveEverywhere(t: Task, bs: Blocks, k: Kind) returns (r: Blocks)
    ensures r == AllThinned(bs, NotKind(t, k))
  {
    r := bs;
    var left := bs.Keys;
    while left != {}
      invariant left <= bs.Keys && r.Keys == bs.Keys
      invariant forall b :: b in bs ==> r[b] == if b in left then bs[b] else Thinned(bs[b], NotKind(t, k))
      decreases left
    {
      var b :| b in left;
      var s := RemoveKind(t, r[b], k);
      r, left := r[b := s], left - {b};
    }
  }

  // ---------------------------------------------------------------------
  // What one round does to the registrations
  // ---------------------------------------------------------------------

  lemma EventIsNoSetting(target: string, k: Kind)
    ensures EventOf(target, k) != "enabled"
  {
    assert |EventOf(target, k)| >= 10;
  }

  lemma GroupOfOne(h: Handler, enabled: bool)
    ensures EntryRegs(Group(map[], [h]), enabled) == [Reg(h, true)]
  {
    var none: map<string, Json> := map[];
    assert Unmatched(none);
  }

  lemma EnabledStays(s: Section, e: string, v: EventValue)
    requires e != "enabled"
    ensures Enabled(s[e := v]) == Enabled(s)
  {
  }

  lemma WithEntryRegs(bs: Blocks, b: string, e: string, entry: Entry, r: Reg, c: string, f: string)
    requires e != "enabled"
    requires EntryRegs(entry, if b in bs then Enabled(bs[b]) else true) == [r]
    ensures Regs(WithEntry(bs, b, e, entry), c, f) == Regs(bs, c, f) + (if c == b && f == e then [r] else [])
  {
    var s: Section := if b in bs then bs[b] else map[];
    var entries := if e in s && s[e].Items? then s[e].entries else [];
    EnabledStays(s, e, Items(entries + [entry]));
    if c == b && f == e {
      ListConcat(entries, [entry], Enabled(s));
      OneEntry(entry, Enabled(s));
    }
  }

  lemma AppendingAppends(t: Task, k: Kind, bs: Blocks, b: string, c: string, f: string)
    requires IsFlatTarget(t.target) ==> b !in bs
    ensures Regs(Appended(t, k, bs, b), c, f) ==
            Regs(bs, c, f) + (if c == b && f == EventOf(t.target, k) then [Reg(t.New(k), true)] else [])
  {
    EventIsNoSetting(t.target, k);
    GroupOfOne(t.New(k), if b in bs then Enabled(bs[b]) else true);
    WithEntryRegs(bs, b, EventOf(t.target, k), NewEntry(t, k), Reg(t.New(k), true), c, f);
  }

  lemma FreeNameIsFree(names: set<string>, n: nat)
    requires n >= 1
    ensures FreeName(names, n) !in names
    decreases |UsedFrom(names, n)|
  {
    if BlockName(n) in names {
      UsedShrinks(names, n);
      FreeNameIsFree(names, n + 1);
    }
  }

  /** A round keeps the registrations as they are, or filters one kind out of
      every event and adds a fresh handler at one place. */
  lemma {:induction false} RoundRegs(t: Task, k: Kind, bs: Blocks, b: string, e: string)
    requires t.Selected(k) && !(t.Wanted(k) && Settled(t, k, bs))
    ensures Regs(Reconciled(t, k, bs), b, e) ==
            Filter(Regs(bs, b, e), NotKind(t, k)) +
            (if t.Wanted(k) && b == Home(t, AllThinned(bs, NotKind(t, k))) && e == EventOf(t.target, k)
             then [Reg(t.New(k), true)] else [])
  {
    var thin := AllThinned(bs, NotKind(t, k));
    ThinningFilters(bs, NotKind(t, k), b, e);
    if t.Wanted(k) {
      FreeNameIsFree(thin.Keys, 1);
      AppendingAppends(t, k, thin, Home(t, thin), b, e);
    }
  }

  lemma {:induction false} FilterTwice(rs: seq<Reg>, first: Handler -> bool, second: Handler -> bool)
    requires forall h :: second(h) ==> first(h)
    ensures Filter(Filter(rs, first), second) == Filter(rs, second)
  {
    if rs != [] {
      var n := |rs| - 1;
      FilterTwice(rs[..n], first, second);
      FilterConcat(Filter(rs[..n], first), if first(rs[n].handler) then [rs[n]] else [], second);
      FilterOne(rs[n], second);
    }
  }

  lemma FilterOne(r: Reg, keep: Handler -> bool)
    ensures Filter([r], keep) == if keep(r.handler) then [r] else []
  {
    assert [r][..0] == [];
  }

  lemma {:induction false} FilterOut(rs: seq<Reg>, first: Handler -> bool, second: Handler -> bool)
    requires forall h :: !(first(h) && second(h))
    ensures Filter(Filter(rs, first), second) == []
  {
    if rs != [] {
      var n := |rs| - 1;
      FilterOut(rs[..n], first, second);
      FilterConcat(Filter(rs[..n], first), if first(rs[n].handler) then [rs[n]] else [], second);
      FilterOne(rs[n], second);
    }
  }

  /** Registrations that pass a test which no handler of kind `k` and no new
      handler passes are the same after a round for `k`. */
  lemma {:induction false} RoundKeeps(t: Task, k: Kind, bs: Blocks, b: string, e: string, keep: Handler -> bool)
    requires forall h :: keep(h) ==> t.KindOf(h) != Some(k)
    requires t.Writes(k) ==> !keep(t.New(k))
    ensures Filter(Regs(Reconciled(t, k, bs), b, e), keep) == Filter(Regs(bs, b, e), keep)
  {
    if t.Selected(k) && !(t.Wanted(k) && Settled(t, k, bs)) {
      RoundRegs(t, k, bs, b, e);
      var rest := Filter(Regs(bs, b, e), NotKind(t, k));
      FilterTwice(Regs(bs, b, e), NotKind(t, k), keep);
      assert rest + [] == rest;
      if t.Wanted(k) {
        FilterConcat(rest, [Reg(t.New(k), true)], keep);
        FilterOne(Reg(t.New(k), true), keep);
      }
    }
  }

  // ---------------------------------------------------------------------
  // Generated handlers
  // ---------------------------------------------------------------------

  lemma {:induction false} NewIsRecognized(t: Task, k: Kind)
    requires t.Built() && t.Writes(k)
    ensures t.KindOf(t.New(k)) == if MayOwn(t.executable) then Some(k) else None
  {
    assert Spells(t.platform, t.native(k), Argv(t.target, t.executable, k));
    GeneratorAgrees(t.platform, t.target, t.executable, t.native(k), k);
  }

  lemma OwnerIsNotBlank(executable: string)
    requires MayOwn(executable)
    ensures !BlankText(executable)
  {
    MayOwnMeans(executable);
    if HasSlash(executable) {
      var c :| c in executable && IsSlash(c);
    } else {
      assert executable[0] == 'k' && executable[0] in executable;
    }
  }

  lemma NewMatchesItself(t: Task, k: Kind)
    ensures Matches(t.New(k), t.New(k))
  {
    var h := t.New(k);
    assert "enabled" !in h && "async" !in h;
  }

  lemma TenIsUint64()
    ensures IsUint64("10")
  {
    assert "10"[..1] == "1" && "1"[..0] == "";
    assert Number("1") == 1;
  }

  lemma MuseAcceptsNew(t: Task, k: Kind)
    requires t.target != "zcode"
    ensures MuseAccepts(t.New(k))
  {
    TenIsUint64();
    var h := t.New(k);
    assert h.Keys == {"type", "command", "timeout"};
  }

  lemma NewCommand(t: Task, k: Kind)
    requires t.Built() && MayOwn(t.executable) && t.Writes(k)
    ensures !BlankText(CommandOf(t.platform, t.target, t.New(k)))
  {
    var h := t.New(k);
    OwnerIsNotBlank(t.executable);
    assert "commandWindows" !in h && "command_windows" !in h;
  }

  /** A freshly added handler needs no repair. */
  lemma NewIsEligible(t: Task, k: Kind)
    requires t.Built() && MayOwn(t.executable) && t.Writes(k)
    ensures Eligible(t.platform, t.target, EventOf(t.target, k), Reg(t.New(k), true), k)
  {
    hide BlankText, MuseAccepts, MayOwn, CommandOf;
    var h := t.New(k);
    NewCommand(t, k);
    if t.target == "muse" {
      MuseAcceptsNew(t, k);
    }
    assert "enabled" !in h && "async" !in h;
  }

  /** Only an executable that may own handlers can have one that matches what
      would be generated. */
  lemma {:induction false} MatchMeansRecognized(t: Task, k: Kind, h: Handler)
    requires t.Built() && t.Writes(k) && t.KindOf(h).Some? && Matches(h, t.New(k))
    ensures MayOwn(t.executable)
  {
    var want := t.New(k);
    ArgvAgrees(t.target, t.executable, k);
    if t.target == "zcode" {
      assert "type" in want && "command" in want && "args" in want;
      var rest := OwnershipArgs(t.executable, Arguments(t.target, k), k);
      assert Strings(Texts(rest)) == rest;
    } else {
      assert "type" in want && "command" in want;
      assert Spells(t.platform, t.native(k), Argv(t.target, t.executable, k));
      assert h["type"] == Str("command") && h["command"] == Str(t.native(k));
      if !MayOwn(t.executable) {
        ForeignCommand(t.platform, t.target, h, Argv(t.target, t.executable, k));
      }
    }
  }

  // ---------------------------------------------------------------------
  // What a plan achieves
  // ---------------------------------------------------------------------

  /** Settled, without naming the places that have no registrations. */
  ghost predicate OneInPlace(t: Task, k: Kind, bs: Blocks) {
    exists b, e :: OneAt(t, k, bs, b, e)
  }

  ghost predicate OneAt(t: Task, k: Kind, bs: Blocks, b: string, e: string) {
    var owned := Owned(t, k, bs, b, e);
    |owned| == 1 && Eligible(t.platform, t.target, e, owned[0], k) && Matches(owned[0].handler, t.New(k)) &&
    forall c, f :: c != b || f != e ==> Owned(t, k, bs, c, f) == []
  }

  ghost predicate NoneOwned(t: Task, k: Kind, bs: Blocks) {
    forall b, e :: Owned(t, k, bs, b, e) == []
  }

  lemma {:induction false} SettledIsOneInPlace(t: Task, k: Kind, bs: Blocks)
    ensures Settled(t, k, bs) <==> OneInPlace(t, k, bs)
  {
    if Settled(t, k, bs) {
      var b :| b in bs && exists e :: e in bs[b] && SettledAt(t, k, bs, b, e);
      var e :| e in bs[b] && SettledAt(t, k, bs, b, e);
      forall c, f | c != b || f != e ensures Owned(t, k, bs, c, f) == [] {
        if c in bs && f in bs[c] {
          assert Owned(t, k, bs, c, f) == [];
        }
      }
      assert OneAt(t, k, bs, b, e);
    }
    if OneInPlace(t, k, bs) {
      var b, e :| OneAt(t, k, bs, b, e);
      assert Regs(bs, b, e) != [];
      assert SettledAt(t, k, bs, b, e);
    }
  }

  /** A kind that is settled has an executable that may own it. */
  lemma SettledIsRecognized(t: Task, k: Kind, bs: Blocks)
    requires t.Built() && t.Writes(k) && Settled(t, k, bs)
    ensures MayOwn(t.executable) && OneInPlace(t, k, bs)
  {
    SettledIsOneInPlace(t, k, bs);
    var b, e :| OneAt(t, k, bs, b, e);
    OwnedAreOfTheKind(t, k, Regs(bs, b, e));
    MatchMeansRecognized(t, k, Owned(t, k, bs, b, e)[0].handler);
  }

  lemma FreshIsInPlace(t: Task, k: Kind, bs: Blocks, home: string)
    requires t.Built() && t.Writes(k) && MayOwn(t.executable)
    requires forall b, e :: Owned(t, k, bs, b, e) ==
                            if b == home && e == EventOf(t.target, k) then [Reg(t.New(k), true)] else []
    ensures OneInPlace(t, k, bs)
  {
    NewIsEligible(t, k);
    NewMatchesItself(t, k);
    assert OneAt(t, k, bs, home, EventOf(t.target, k));
  }

  /** A round for `k` leaves one handler of `k` in place if it wants one and may
      own it, and none otherwise. */
  lemma {:induction false} RoundSettles(t: Task, k: Kind, bs: Blocks)
    requires t.Built() && t.Selected(k)
    ensures if t.Wanted(k) && MayOwn(t.executable) then OneInPlace(t, k, Reconciled(t, k, bs))
            else NoneOwned(t, k, Reconciled(t, k, bs))
  {
    if t.Wanted(k) && Settled(t, k, bs) {
      SettledIsRecognized(t, k, bs);
    } else {
      forall b, e ensures Owned(t, k, Reconciled(t, k, bs), b, e) ==
                          if t.Wanted(k) && MayOwn(t.executable) && b == Home(t, AllThinned(bs, NotKind(t, k))) &&
                            e == EventOf(t.target, k)
                          then [Reg(t.New(k), true)] else []
      {
        OwnedAfterRound(t, k, bs, b, e);
      }
      if t.Wanted(k) && MayOwn(t.executable) {
        FreshIsInPlace(t, k, Reconciled(t, k, bs), Home(t, AllThinned(bs, NotKind(t, k))));
      }
    }
  }

  lemma {:induction false} OwnedAfterRound(t: Task, k: Kind, bs: Blocks, b: string, e: string)
    requires t.Built() && t.Selected(k) && !(t.Wanted(k) && Settled(t, k, bs))
    ensures Owned(t, k, Reconciled(t, k, bs), b, e) ==
            if t.Wanted(k) && MayOwn(t.executable) && b == Home(t, AllThinned(bs, NotKind(t, k))) &&
              e == EventOf(t.target, k)
            then [Reg(t.New(k), true)] else []
  {
    RoundRegs(t, k, bs, b, e);
    var rest := Filter(Regs(bs, b, e), NotKind(t, k));
    FilterOut(Regs(bs, b, e), NotKind(t, k), IsKind(t, k));
    assert rest + [] == rest;
    if t.Wanted(k) {
      NewIsRecognized(t, k);
      FilterConcat(rest, [Reg(t.New(k), true)], IsKind(t, k));
      FilterOne(Reg(t.New(k), true), IsKind(t, k));
    }
  }

  lemma {:induction false} OwnedAreOfTheKind(t: Task, k: Kind, rs: seq<Reg>)
    ensures forall r :: r in Filter(rs, IsKind(t, k)) ==> t.KindOf(r.handler) == Some(k)
  {
    if rs != [] {
      OwnedAreOfTheKind(t, k, rs[..|rs| - 1]);
    }
  }

  /** A round for another kind leaves the owned registrations of `k` alone. */
  lemma RoundKeepsOtherKinds(t: Task, k: Kind, j: Kind, bs: Blocks)
    requires t.Built() && k != j
    ensures forall b, e :: Owned(t, k, Reconciled(t, j, bs), b, e) == Owned(t, k, bs, b, e)
  {
    if t.Writes(j) {
      NewIsRecognized(t, j);
    }
    forall b, e ensures Owned(t, k, Reconciled(t, j, bs), b, e) == Owned(t, k, bs, b, e) {
      RoundKeeps(t, j, bs, b, e, IsKind(t, k));
    }
  }

  lemma {:induction false} OneInPlaceDependsOnOwned(t: Task, k: Kind, bs: Blocks, cs: Blocks)
    requires forall b, e :: Owned(t, k, cs, b, e) == Owned(t, k, bs, b, e)
    ensures OneInPlace(t, k, cs) <==> OneInPlace(t, k, bs)
    ensures NoneOwned(t, k, cs) <==> NoneOwned(t, k, bs)
  {
    forall b, e ensures OneAt(t, k, cs, b, e) <==> OneAt(t, k, bs, b, e) {
      assert Owned(t, k, cs, b, e) == Owned(t, k, bs, b, e);
    }
  }

  /** The state of one selected kind that a plan aims at. */
  ghost predicate Done(t: Task, k: Kind, bs: Blocks) {
    if t.Wanted(k) && MayOwn(t.executable) then OneInPlace(t, k, bs) else NoneOwned(t, k, bs)
  }

  lemma {:induction false} RoundsFinish(t: Task, bs: Blocks, k: Kind)
    requires t.Built() && t.Selected(k)
    ensures Done(t, k, RoundsFrom(t, bs, 0))
  {
    var b1 := Reconciled(t, Contract, bs);
    var b2 := Reconciled(t, AttentionStart, b1);
    var b3 := Reconciled(t, AttentionEnd, b2);
    RoundsAre(t, bs);
    match k
    case Contract =>
      RoundSettles(t, k, bs);
      RoundKeepsOtherKinds(t, k, AttentionStart, b1);
      RoundKeepsOtherKinds(t, k, AttentionEnd, b2);
      OneInPlaceDependsOnOwned(t, k, b1, b2);
      OneInPlaceDependsOnOwned(t, k, b2, b3);
    case AttentionStart =>
      RoundSettles(t, k, b1);
      RoundKeepsOtherKinds(t, k, AttentionEnd, b2);
      OneInPlaceDependsOnOwned(t, k, b2, b3);
    case AttentionEnd =>
      RoundSettles(t, k, b2);
  }

  lemma RoundsAre(t: Task, bs: Blocks)
    ensures RoundsFrom(t, bs, 0) ==
            Reconciled(t, AttentionEnd, Reconciled(t, AttentionStart, Reconciled(t, Contract, bs)))
  {
    var b1 := Reconciled(t, Contract, bs);
    var b2 := Reconciled(t, AttentionStart, b1);
    assert RoundsFrom(t, bs, 0) == RoundsFrom(t, b1, 1);
    assert RoundsFrom(t, b1, 1) == RoundsFrom(t, b2, 2);
    assert RoundsFrom(t, b2, 2) == RoundsFrom(t, Reconciled(t, AttentionEnd, b2), 3);
  }

  lemma TidyKeepsRegs(t: Task, before: Blocks, bs: Blocks, b: string, e: string)
    ensures Regs(Tidied(t, before, bs), b, e) == Regs(bs, b, e)
  {
  }

  /** Installing leaves exactly one handler of each selected supported kind, in
      place and needing no repair, and uninstalling leaves none of the selected
      kinds; for an executable that may not own handlers, none is recognized. */
  lemma {:induction false} PlanFinishes(t: Task, bs: Blocks, k: Kind)
    requires t.Built() && t.Selected(k)
    ensures Done(t, k, Plan(t, bs))
  {
    if t.remove && !SelectedOwned(t, bs) {
      forall b, e ensures Owned(t, k, bs, b, e) == [] {
        if b in bs && e in bs[b] {
          assert k in KINDS;
        }
      }
    } else {
      var r := RoundsFrom(t, bs, 0);
      RoundsFinish(t, bs, k);
      forall b, e ensures Owned(t, k, Tidied(t, bs, r), b, e) == Owned(t, k, r, b, e) {
        TidyKeepsRegs(t, bs, r, b, e);
      }
      OneInPlaceDependsOnOwned(t, k, r, Tidied(t, bs, r));
    }
  }

  /** Some selected kind is to be written by an executable that will not be
      recognized afterwards. */
  predicate WritesUnrecognized(t: Task) {
    !MayOwn(t.executable) && exists k :: k in KINDS && t.Writes(k)
  }

  lemma IsOneOfTheKinds(k: Kind)
    ensures k in KINDS
  {
    assert KINDS[0] == Contract && KINDS[1] == AttentionStart && KINDS[2] == AttentionEnd;
  }

  /** The handler of `k` that a plan adds to event `e` of block `b` when no
      handler of the kind can be in place. */
  function Added(t: Task, k: Kind, bs: Blocks, b: string, e: string): seq<Reg> {
    if t.Writes(k) && b == Home(t, bs) && e == EventOf(t.target, k) then [Reg(t.New(k), true)] else []
  }

  function AllAdded(t: Task, bs: Blocks, b: string, e: string): seq<Reg> {
    Added(t, Contract, bs, b, e) + Added(t, AttentionStart, bs, b, e) + Added(t, AttentionEnd, bs, b, e)
  }

  /** A round by an executable that may not own handlers adds foreign ones. */
  lemma RoundAddsForeign(t: Task, k: Kind, bs: Blocks, b: string, e: string)
    requires t.Built() && !MayOwn(t.executable)
    ensures Foreign(t, Reconciled(t, k, bs), b, e) == Foreign(t, bs, b, e) + Added(t, k, bs, b, e)
  {
    if t.Writes(k) {
      RoundWritesForeign(t, k, bs, b, e);
    } else {
      hide Reconciled, Regs, Filter;
      RoundKeeps(t, k, bs, b, e, IsForeign(t));
      assert Foreign(t, bs, b, e) + [] == Foreign(t, bs, b, e);
    }
  }

  lemma RoundWritesForeign(t: Task, k: Kind, bs: Blocks, b: string, e: string)
    requires t.Built() && !MayOwn(t.executable) && t.Writes(k)
    ensures Foreign(t, Reconciled(t, k, bs), b, e) == Foreign(t, bs, b, e) + Added(t, k, bs, b, e)
  {
    hide Reconciled, Regs, Filter, Settled, AllThinned, MayOwn, FreeName, NewHandler, HookKinds.KindOf;
    if Settled(t, k, bs) {
      SettledIsRecognized(t, k, bs);
    }
    NewIsRecognized(t, k);
    RoundRegs(t, k, bs, b, e);
    ThinnedKeys(bs, NotKind(t, k));
    FilterTwice(Regs(bs, b, e), NotKind(t, k), IsForeign(t));
    FilterConcat(Filter(Regs(bs, b, e), NotKind(t, k)), Added(t, k, bs, b, e), IsForeign(t));
    FilterAdded(t, k, bs, b, e);
  }

  lemma FilterAdded(t: Task, k: Kind, bs: Blocks, b: string, e: string)
    requires t.KindOf(t.New(k)) == None
    ensures Filter(Added(t, k, bs, b, e), IsForeign(t)) == Added(t, k, bs, b, e)
  {
    FilterOne(Reg(t.New(k), true), IsForeign(t));
  }

  lemma ThinnedKeys(bs: Blocks, keep: Handler -> bool)
    ensures AllThinned(bs, keep).Keys == bs.Keys
  {
  }

  /** Only a block of its own is a home that a round changes, and no agent with
      such blocks has more than one kind. */
  lemma HomeStays(t: Task, k: Kind, j: Kind, bs: Blocks, b: string, e: string)
    requires k != j
    ensures Added(t, k, Reconciled(t, j, bs), b, e) == Added(t, k, bs, b, e)
  {
    ThinnedKeys(bs, NotKind(t, j));
  }

  /** What a plan makes of the ordered foreign registrations of every event: it
      keeps them all, with the conditions on them. Only handlers that the plan
      writes and that will not be recognized come after them. */
  lemma {:induction false} PlanForeign(t: Task, bs: Blocks, b: string, e: string)
    requires t.Built()
    ensures Foreign(t, Plan(t, bs), b, e)
      == Foreign(t, bs, b, e) + if MayOwn(t.executable) then [] else AllAdded(t, bs, b, e)
  {
    hide AllAdded, Regs, Filter, Foreign, MayOwn, RoundsFrom;
    var r := RoundsFrom(t, bs, 0);
    RoundsForeign(t, bs, b, e);
    if t.remove && !SelectedOwned(t, bs) {
      RemovesNothing(t, bs, b, e);
    } else {
      TidyKeepsForeign(t, bs, r, b, e);
    }
  }

  lemma TidyKeepsForeign(t: Task, before: Blocks, bs: Blocks, b: string, e: string)
    ensures Foreign(t, Tidied(t, before, bs), b, e) == Foreign(t, bs, b, e)
  {
    hide Regs, Filter, Tidied;
    TidyKeepsRegs(t, before, bs, b, e);
  }

  lemma RemovesNothing(t: Task, bs: Blocks, b: string, e: string)
    requires t.remove
    ensures AllAdded(t, bs, b, e) == [] && forall rs: seq<Reg> :: rs + [] == rs
  {
  }

  lemma {:induction false} RoundsForeign(t: Task, bs: Blocks, b: string, e: string)
    requires t.Built()
    ensures Foreign(t, RoundsFrom(t, bs, 0), b, e)
      == Foreign(t, bs, b, e) + if MayOwn(t.executable) then [] else AllAdded(t, bs, b, e)
  {
    hide Added, Reconciled, Regs, Filter, Foreign, MayOwn, RoundsFrom;
    var b1 := Reconciled(t, Contract, bs);
    var b2 := Reconciled(t, AttentionStart, b1);
    RoundsAre(t, bs);
    if MayOwn(t.executable) {
      RoundKeepsForeign(t, Contract, bs, b, e);
      RoundKeepsForeign(t, AttentionStart, b1, b, e);
      RoundKeepsForeign(t, AttentionEnd, b2, b, e);
      assert Foreign(t, bs, b, e) + [] == Foreign(t, bs, b, e);
    } else {
      RoundsAddForeign(t, bs, b, e);
    }
  }

  lemma {:induction false} RoundsAddForeign(t: Task, bs: Blocks, b: string, e: string)
    requires t.Built() && !MayOwn(t.executable)
    ensures var b2 := Reconciled(t, AttentionStart, Reconciled(t, Contract, bs));
      Foreign(t, Reconciled(t, AttentionEnd, b2), b, e) == Foreign(t, bs, b, e) + AllAdded(t, bs, b, e)
  {
    hide Added, Reconciled, Regs, Filter, Foreign, MayOwn;
    var b1 := Reconciled(t, Contract, bs);
    RoundAddsForeign(t, Contract, bs, b, e);
    RoundAddsForeign(t, AttentionStart, b1, b, e);
    RoundAddsForeign(t, AttentionEnd, Reconciled(t, AttentionStart, b1), b, e);
    HomeStays(t, AttentionStart, Contract, bs, b, e);
    HomeStays(t, AttentionEnd, Contract, bs, b, e);
    HomeStays(t, AttentionEnd, AttentionStart, b1, b, e);
    OneByOne(Foreign(t, bs, b, e), Added(t, Contract, bs, b, e), Added(t, AttentionStart, bs, b, e),
      Added(t, AttentionEnd, bs, b, e));
  }

  lemma OneByOne<T>(r: seq<T>, x: seq<T>, y: seq<T>, z: seq<T>)
    ensures r + x + y + z == r + (x + y + z)
  {
  }

  lemma RoundKeepsForeign(t: Task, k: Kind, bs: Blocks, b: string, e: string)
    requires t.Built() && MayOwn(t.executable)
    ensures Foreign(t, Reconciled(t, k, bs), b, e) == Foreign(t, bs, b, e)
  {
    if t.Writes(k) {
      NewIsRecognized(t, k);
    }
    RoundKeeps(t, k, bs, b, e, IsForeign(t));
  }

  /** The foreign handlers are the same after a plan exactly when it writes
      none that will not be recognized; no removal does. */
  lemma PlanKeepsForeign(t: Task, bs: Blocks)
    requires t.Built()
    ensures (forall b, e :: Foreign(t, Plan(t, bs), b, e) == Foreign(t, bs, b, e)) <==> !WritesUnrecognized(t)
    ensures t.remove ==> !WritesUnrecognized(t)
  {
    if WritesUnrecognized(t) {
      SomeForeignAdded(t, bs);
    } else {
      forall b, e ensures Foreign(t, Plan(t, bs), b, e) == Foreign(t, bs, b, e) {
        hide Foreign, Plan, MayOwn, AllAdded, WritesUnrecognized;
        PlanForeign(t, bs, b, e);
        AddsNothing(t, bs, b, e);
        assert Foreign(t, bs, b, e) + [] == Foreign(t, bs, b, e);
      }
    }
  }

  lemma SomeForeignAdded(t: Task, bs: Blocks)
    requires t.Built() && WritesUnrecognized(t)
    ensures exists b, e :: Foreign(t, Plan(t, bs), b, e) != Foreign(t, bs, b, e)
  {
    hide Foreign, Plan, MayOwn;
    var k :| k in KINDS && t.Writes(k);
    var b, e := Home(t, bs), EventOf(t.target, k);
    PlanForeign(t, bs, b, e);
    assert |AllAdded(t, bs, b, e)| > 0;
    assert |Foreign(t, Plan(t, bs), b, e)| > |Foreign(t, bs, b, e)|;
  }

  lemma AddsNothing(t: Task, bs: Blocks, b: string, e: string)
    requires !WritesUnrecognized(t)
    ensures MayOwn(t.executable) || AllAdded(t, bs, b, e) == []
  {
    IsOneOfTheKinds(Contract);
    IsOneOfTheKinds(AttentionStart);
    IsOneOfTheKinds(AttentionEnd);
  }

  /** So do the handlers of the kinds that were not selected. */
  lemma PlanKeepsUnselected(t: Task, bs: Blocks, b: string, e: string, k: Kind)
    requires t.Built() && !t.Selected(k)
    ensures Owned(t, k, Plan(t, bs), b, e) == Owned(t, k, bs, b, e)
  {
    if !(t.remove && !SelectedOwned(t, bs)) {
      var b1 := Reconciled(t, Contract, bs);
      var b2 := Reconciled(t, AttentionStart, b1);
      RoundsAre(t, bs);
      if k != Contract { RoundKeepsOtherKinds(t, k, Contract, bs); }
      if k != AttentionStart { RoundKeepsOtherKinds(t, k, AttentionStart, b1); }
      if k != AttentionEnd { RoundKeepsOtherKinds(t, k, AttentionEnd, b2); }
      TidyKeepsRegs(t, bs, RoundsFrom(t, bs, 0), b, e);
    }
  }

  lemma RoundKeepsSettled(t: Task, k: Kind, j: Kind, bs: Blocks)
    requires t.Built() && t.Writes(k) && Settled(t, k, bs)
    ensures Settled(t, k, Reconciled(t, j, bs))
    ensures forall b, e :: Owned(t, k, Reconciled(t, j, bs), b, e) == Owned(t, k, bs, b, e)
  {
    hide Settled, Owned;
    if k != j {
      RoundKeepsOtherKinds(t, k, j, bs);
      OneInPlaceDependsOnOwned(t, k, bs, Reconciled(t, j, bs));
      SettledIsOneInPlace(t, k, bs);
      SettledIsOneInPlace(t, k, Reconciled(t, j, bs));
    }
  }

  /** Nor does a plan touch a handler that is in place and needs no repair,
      whatever else it has. */
  lemma PlanKeepsSettled(t: Task, bs: Blocks, b: string, e: string, k: Kind)
    requires t.Built() && t.Writes(k) && Settled(t, k, bs)
    ensures Owned(t, k, Plan(t, bs), b, e) == Owned(t, k, bs, b, e)
  {
    hide Settled, Reconciled, RoundsFrom;
    var b1 := Reconciled(t, Contract, bs);
    var b2 := Reconciled(t, AttentionStart, b1);
    RoundsAre(t, bs);
    RoundKeepsSettled(t, k, Contract, bs);
    RoundKeepsSettled(t, k, AttentionStart, b1);
    RoundKeepsSettled(t, k, AttentionEnd, b2);
    TidyKeepsRegs(t, bs, RoundsFrom(t, bs, 0), b, e);
  }

  // ---------------------------------------------------------------------
  // Planning twice
  // ---------------------------------------------------------------------

  /** As the planner requires of every configuration: no group is empty. */
  ghost predicate NonEmptyGroups(bs: Blocks) {
    forall b, e :: b in bs && e in bs[b] ==> FullValue(bs[b][e])
  }

  ghost predicate FullValue(v: EventValue) {
    v.Items? ==> FullEntries(v.entries)
  }

  ghost predicate FullEntries(entries: seq<Entry>) {
    forall i :: 0 <= i < |entries| && entries[i].Group? ==> entries[i].hooks != []
  }

  lemma {:induction false} KeepStaysFull(entries: seq<Entry>, keep: Handler -> bool)
    ensures FullEntries(KeepEntries(entries, keep))
  {
    if entries != [] {
      KeepStaysFull(entries[..|entries| - 1], keep);
    }
  }

  lemma {:induction false} RoundStaysFull(t: Task, k: Kind, bs: Blocks)
    requires NonEmptyGroups(bs)
    ensures NonEmptyGroups(Reconciled(t, k, bs))
  {
    if t.Selected(k) && !(t.Wanted(k) && Settled(t, k, bs)) {
      var thin := AllThinned(bs, NotKind(t, k));
      forall b, e | b in thin && e in thin[b] ensures FullValue(thin[b][e]) {
        assert FullValue(bs[b][e]);
        if bs[b][e].Items? {
          KeepStaysFull(bs[b][e].entries, NotKind(t, k));
        }
      }
      if t.Wanted(k) {
        EntryStaysFull(thin, Home(t, thin), EventOf(t.target, k), NewEntry(t, k));
      }
    }
  }

  lemma EntryStaysFull(bs: Blocks, b: string, e: string, entry: Entry)
    requires NonEmptyGroups(bs) && FullEntries([entry])
    ensures NonEmptyGroups(WithEntry(bs, b, e, entry))
  {
    assert [entry][0] == entry;
    assert b in bs && e in bs[b] ==> FullValue(bs[b][e]);
  }

  lemma {:induction false} FilterNothing(rs: seq<Reg>, keep: Handler -> bool, drop: Handler -> bool)
    requires Filter(rs, drop) == [] && forall h :: keep(h) <==> !drop(h)
    ensures Filter(rs, keep) == rs && forall r :: r in rs ==> keep(r.handler)
  {
    if rs != [] {
      var n := |rs| - 1;
      assert rs == rs[..n] + [rs[n]];
      FilterNothing(rs[..n], keep, drop);
    }
  }

  lemma {:induction false} KeepAllHooks(fields: map<string, Json>, hooks: seq<Handler>, keep: Handler -> bool,
      enabled: bool)
    requires forall r :: r in EntryRegs(Group(fields, hooks), enabled) ==> keep(r.handler)
    ensures KeepHooks(hooks, keep) == hooks
  {
    if hooks != [] {
      var n := |hooks| - 1;
      var rs := EntryRegs(Group(fields, hooks), enabled);
      assert rs[n] in rs && rs[n].handler == hooks[n];
      assert rs[..n] == EntryRegs(Group(fields, hooks[..n]), enabled);
      KeepAllHooks(fields, hooks[..n], keep, enabled);
      assert hooks == hooks[..n] + [hooks[n]];
    }
  }

  lemma {:induction false} KeepAllEntries(entries: seq<Entry>, keep: Handler -> bool, enabled: bool)
    requires FullEntries(entries) && forall r :: r in ListRegs(entries, enabled) ==> keep(r.handler)
    ensures KeepEntries(entries, keep) == entries
  {
    if entries != [] {
      var n := |entries| - 1;
      KeepAllEntries(entries[..n], keep, enabled);
      assert entries == entries[..n] + [entries[n]];
      KeepLastEntry(entries[n], keep, enabled);
    }
  }

  lemma KeepLastEntry(entry: Entry, keep: Handler -> bool, enabled: bool)
    requires entry.Group? ==> entry.hooks != []
    requires forall r :: r in EntryRegs(entry, enabled) ==> keep(r.handler)
    ensures KeepEntry(entry, keep) == [entry]
  {
    if entry.Group? {
      KeepAllHooks(entry.fields, entry.hooks, keep, enabled);
    } else {
      assert EntryRegs(entry, enabled)[0] in EntryRegs(entry, enabled);
    }
  }

  /** Removing a kind that is not there changes nothing. */
  lemma {:induction false} RemovingNothing(t: Task, k: Kind, bs: Blocks)
    requires NonEmptyGroups(bs) && NoneOwned(t, k, bs)
    ensures AllThinned(bs, NotKind(t, k)) == bs
  {
    forall b | b in bs ensures Thinned(bs[b], NotKind(t, k)) == bs[b] {
      forall e | e in bs[b] ensures !Vanishes(bs[b][e], NotKind(t, k)) && Thin(bs[b][e], NotKind(t, k)) == bs[b][e] {
        assert FullValue(bs[b][e]);
        if bs[b][e].Items? {
          assert Owned(t, k, bs, b, e) == [];
          FilterNothing(Regs(bs, b, e), NotKind(t, k), IsKind(t, k));
          KeepAllEntries(bs[b][e].entries, NotKind(t, k), Enabled(bs[b]));
        }
      }
    }
  }

  lemma {:induction false} PlanStaysFull(t: Task, bs: Blocks)
    requires NonEmptyGroups(bs)
    ensures NonEmptyGroups(Plan(t, bs))
  {
    RoundsAre(t, bs);
    RoundStaysFull(t, Contract, bs);
    RoundStaysFull(t, AttentionStart, Reconciled(t, Contract, bs));
    RoundStaysFull(t, AttentionEnd, Reconciled(t, AttentionStart, Reconciled(t, Contract, bs)));
  }

  lemma RoundIsStable(t: Task, k: Kind, bs: Blocks)
    requires t.Built() && NonEmptyGroups(bs) && (t.Selected(k) ==> Done(t, k, bs))
    requires t.Writes(k) ==> MayOwn(t.executable)
    ensures Reconciled(t, k, bs) == bs
  {
    if t.Selected(k) {
      SettledIsOneInPlace(t, k, bs);
      if !t.Wanted(k) {
        RemovingNothing(t, k, bs);
      }
    }
  }

  lemma {:induction false} RoundsAreStable(t: Task, bs: Blocks)
    requires t.Built() && NonEmptyGroups(bs) && forall k :: t.Selected(k) ==> Done(t, k, bs)
    requires !WritesUnrecognized(t)
    ensures RoundsFrom(t, bs, 0) == bs
  {
    forall k: Kind ensures Reconciled(t, k, bs) == bs {
      IsOneOfTheKinds(k);
      RoundIsStable(t, k, bs);
    }
    RoundsAre(t, bs);
  }

  lemma NothingSelectedIsOwned(t: Task, bs: Blocks)
    requires forall k :: t.Selected(k) ==> NoneOwned(t, k, bs)
    ensures !SelectedOwned(t, bs)
  {
  }

  lemma TidyingNothing(t: Task, bs: Blocks)
    ensures Tidied(t, bs, bs) == bs
  {
  }

  /** Planning again changes nothing, provided what the first plan wrote is
      recognized. */
  lemma {:induction false} PlanIsIdempotent(t: Task, bs: Blocks)
    requires t.Built() && NonEmptyGroups(bs) && !WritesUnrecognized(t)
    ensures Plan(t, Plan(t, bs)) == Plan(t, bs)
  {
    var r := Plan(t, bs);
    PlanStaysFull(t, bs);
    forall k | t.Selected(k) ensures Done(t, k, r) {
      PlanFinishes(t, bs, k);
    }
    if t.remove {
      NothingSelectedIsOwned(t, r);
    } else {
      RoundsAreStable(t, r);
      TidyingNothing(t, r);
    }
  }

  /** With nothing owned, a round only adds. */
  lemma {:induction false} RoundOnlyAdds(t: Task, k: Kind, bs: Blocks, b: string, e: string)
    requires t.Selected(k) ==> NoneOwned(t, k, bs)
    ensures |Regs(Reconciled(t, k, bs), b, e)| >= |Regs(bs, b, e)|
  {
    if t.Selected(k) && !(t.Wanted(k) && Settled(t, k, bs)) {
      RoundRegs(t, k, bs, b, e);
      assert Owned(t, k, bs, b, e) == [];
      FilterNothing(Regs(bs, b, e), NotKind(t, k), IsKind(t, k));
    }
  }

  lemma {:induction false} RoundRepeats(t: Task, k: Kind, bs: Blocks) returns (b: string, e: string)
    requires t.Built() && t.Writes(k) && NoneOwned(t, k, bs)
    ensures |Regs(Reconciled(t, k, bs), b, e)| > |Regs(bs, b, e)|
  {
    b, e := Home(t, AllThinned(bs, NotKind(t, k))), EventOf(t.target, k);
    SettledIsOneInPlace(t, k, bs);
    RoundRegs(t, k, bs, b, e);
    assert Owned(t, k, bs, b, e) == [];
    FilterNothing(Regs(bs, b, e), NotKind(t, k), IsKind(t, k));
  }

  /** Nothing of the selected kinds is owned, and a round keeps it so. */
  ghost predicate Barren(t: Task, bs: Blocks) {
    forall k :: t.Selected(k) ==> NoneOwned(t, k, bs)
  }

  lemma RoundStaysBarren(t: Task, j: Kind, bs: Blocks)
    requires t.Built() && !MayOwn(t.executable) && Barren(t, bs)
    ensures Barren(t, Reconciled(t, j, bs))
  {
    forall k | t.Selected(k) ensures NoneOwned(t, k, Reconciled(t, j, bs)) {
      if k == j {
        RoundSettles(t, k, bs);
      } else {
        RoundKeepsOtherKinds(t, k, j, bs);
      }
    }
  }

  /** Otherwise every plan adds the unrecognized handlers once more. */
  lemma {:induction false} UnrecognizedPlanRepeats(t: Task, bs: Blocks)
    requires t.Built() && WritesUnrecognized(t)
    ensures Plan(t, Plan(t, bs)) != Plan(t, bs)
  {
    var r := Plan(t, bs);
    forall k | t.Selected(k) ensures NoneOwned(t, k, r) {
      PlanFinishes(t, bs, k);
    }
    var b1 := Reconciled(t, Contract, r);
    var b2 := Reconciled(t, AttentionStart, b1);
    RoundStaysBarren(t, Contract, r);
    RoundStaysBarren(t, AttentionStart, b1);
    RoundsAre(t, r);
    var k :| k in KINDS && t.Writes(k);
    var before := if k == Contract then r else if k == AttentionStart then b1 else b2;
    var b, e := RoundRepeats(t, k, before);
    RoundOnlyAdds(t, Contract, r, b, e);
    RoundOnlyAdds(t, AttentionStart, b1, b, e);
    RoundOnlyAdds(t, AttentionEnd, b2, b, e);
    TidyKeepsRegs(t, r, RoundsFrom(t, r, 0), b, e);
  }

  /** Installing the contract for droid, not on Windows, with an executable that
      is neither a path nor called kata. */
  function RenamedTask(p: Platform): Task {
    Task(p.(windows := false), "droid", "hooks", k => ShellWords.Command(Argv("droid", "hooks", k)), true, false, false)
  }

  lemma RenamedIsNotRecognized(p: Platform)
    ensures WritesUnrecognized(RenamedTask(p))
  {
    MayOwnMeans("hooks");
    IsOneOfTheKinds(Contract);
    assert RenamedTask(p).Writes(Contract);
  }

  lemma RenamedIsBuilt(p: Platform)
    ensures RenamedTask(p).Built()
  {
    forall k ensures Spells(RenamedTask(p).platform, ShellWords.Command(Argv("droid", "hooks", k)),
        Argv("droid", "hooks", k))
      && !BlankText(ShellWords.Command(Argv("droid", "hooks", k)))
    {
      QuotingSpells(RenamedTask(p).platform, Argv("droid", "hooks", k));
      NotBlank(Argv("droid", "hooks", k));
    }
  }

  lemma NotBlank(argv: seq<string>)
    requires argv != []
    ensures !BlankText(ShellWords.Command(argv))
  {
    ShellWords.CommandBegins(argv);
  }

  /** A concrete input for which installing twice is not installing once. */
  lemma RenamedPlanRepeats(p: Platform, bs: Blocks)
    ensures Plan(RenamedTask(p), Plan(RenamedTask(p), bs)) != Plan(RenamedTask(p), bs)
  {
    hide *;
    RenamedIsBuilt(p);
    RenamedIsNotRecognized(p);
    UnrecognizedPlanRepeats(RenamedTask(p), bs);
  }
}
