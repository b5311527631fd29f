/** What a hook plan makes of the entries and settings of a configuration (cmd/kata/agent_hooks_extra_json.go). */
module HookEntries {
  import opened HookKinds
  import opened HookPlan
  import opened Json
  import opened Options

  /** The entries of one event of one block, in order. */
  function Entries(bs: Blocks, b: string, e: string): seq<Entry> {
    if b in bs && e in bs[b] && bs[b][e].Items? then bs[b][e].entries else []
  }

  function SettingAt(bs: Blocks, b: string, e: string): Option<Json> {
    if b in bs && e in bs[b] && bs[b][e].Setting? then Some(bs[b][e].value) else None
  }

  /** The round for `k` takes the owned handlers of the kind out: it is selected,
      and not already as wanted. */
  predicate Removes(t: Task, k: Kind, bs: Blocks) {
    t.Selected(k) && !(t.Wanted(k) && Settled(t, k, bs))
  }

  function Removed(t: Task, bs: Blocks): set<Kind> {
    set k | k in KINDS && Removes(t, k, bs)
  }

  /** Handlers that are of none of the kinds. */
  function Outside(t: Task, kinds: set<Kind>): Handler -> bool {
    h => t.KindOf(h).None? || t.KindOf(h).value !in kinds
  }

  /** The entry that the round for `k` adds. */
  function NewAt(t: Task, k: Kind, bs: Blocks, b: string, e: string): seq<Entry> {
    if Removes(t, k, bs) && t.Wanted(k) && b == Home(t, bs) && e == EventOf(t.target, k) then [NewEntry(t, k)] else []
  }

  function AllNew(t: Task, bs: Blocks, b: string, e: string): seq<Entry> {
    NewAt(t, Contract, bs, b, e) + NewAt(t, AttentionStart, bs, b, e) + NewAt(t, AttentionEnd, bs, b, e)
  }

  // ---------------------------------------------------------------------
  // Keeping handlers
  // ---------------------------------------------------------------------

  lemma {:induction false} KeepHooksTwice(hooks: seq<Handler>, f: Handler -> bool, g: Handler -> bool,
      both: Handler -> bool)
    requires forall h :: both(h) <==> f(h) && g(h)
    ensures KeepHooks(KeepHooks(hooks, f), g) == KeepHooks(hooks, both)
  {
    if hooks != [] {
      var n := |hooks| - 1;
      KeepHooksTwice(hooks[..n], f, g, both);
      KeepHooksConcat(KeepHooks(hooks[..n], f), if f(hooks[n]) then [hooks[n]] else [], g);
      KeepOneHook(hooks[n], g);
    }
  }

  lemma KeepOneHook(h: Handler, keep: Handler -> bool)
    ensures KeepHooks([h], keep) == if keep(h) then [h] else []
  {
    assert [h][..0] == [];
  }

  lemma {:induction false} KeepHooksConcat(x: seq<Handler>, y: seq<Handler>, keep: Handler -> bool)
    ensures KeepHooks(x + y, keep) == KeepHooks(x, keep) + KeepHooks(y, keep)
  {
    if y == [] {
      assert x + y == x;
    } else {
      var n := |y| - 1;
      assert (x + y)[..|x| + n] == x + y[..n];
      KeepHooksConcat(x, y[..n], keep);
    }
  }

  lemma {:induction false} KeepConcat(x: seq<Entry>, y: seq<Entry>, keep: Handler -> bool)
    ensures KeepEntries(x + y, keep) == KeepEntries(x, keep) + KeepEntries(y, keep)
  {
    if y == [] {
      assert x + y == x;
    } else {
      hide KeepEntries, KeepEntry;
      var n := |y| - 1;
      assert (x + y)[..|x| + n] == x + y[..n];
      assert (x + y)[|x| + n] == y[n];
      KeepConcat(x, y[..n], keep);
      KeepLast(x + y, keep);
      KeepLast(y, keep);
      Associative(KeepEntries(x, keep), KeepEntries(y[..n], keep), KeepEntry(y[n], keep));
    }
  }

  lemma KeepLast(entries: seq<Entry>, keep: Handler -> bool)
    requires entries != []
    ensures KeepEntries(entries, keep)
      == KeepEntries(entries[..|entries| - 1], keep) + KeepEntry(entries[|entries| - 1], keep)
  {
  }

  lemma KeepOne(entry: Entry, keep: Handler -> bool)
    ensures KeepEntries([entry], keep) == KeepEntry(entry, keep)
  {
    assert [entry][..0] == [];
  }

  lemma KeepEntryTwice(entry: Entry, f: Handler -> bool, g: Handler -> bool, both: Handler -> bool)
    requires forall h :: both(h) <==> f(h) && g(h)
    ensures KeepEntries(KeepEntry(entry, f), g) == KeepEntry(entry, both)
  {
    if entry.Group? {
      KeepHooksTwice(entry.hooks, f, g, both);
      KeepOne(Group(entry.fields, KeepHooks(entry.hooks, f)), g);
    } else {
      KeepOne(entry, g);
    }
  }

  lemma {:induction false} KeepTwice(entries: seq<Entry>, f: Handler -> bool, g: Handler -> bool, both: Handler -> bool)
    requires forall h :: both(h) <==> f(h) && g(h)
    ensures KeepEntries(KeepEntries(entries, f), g) == KeepEntries(entries, both)
  {
    if entries != [] {
      var n := |entries| - 1;
      KeepTwice(entries[..n], f, g, both);
      KeepConcat(KeepEntries(entries[..n], f), KeepEntry(entries[n], f), g);
      KeepEntryTwice(entries[n], f, g, both);
    }
  }

  lemma {:induction false} KeepEveryHook(hooks: seq<Handler>, keep: Handler -> bool)
    requires forall h :: keep(h)
    ensures KeepHooks(hooks, keep) == hooks
  {
    if hooks != [] {
      var n := |hooks| - 1;
      KeepEveryHook(hooks[..n], keep);
      assert hooks == hooks[..n] + [hooks[n]];
    }
  }

  lemma {:induction false} KeepEverything(entries: seq<Entry>, keep: Handler -> bool)
    requires FullEntries(entries) && forall h :: keep(h)
    ensures KeepEntries(entries, keep) == entries
  {
    if entries != [] {
      var n := |entries| - 1;
      hide KeepEntries, KeepEntry;
      KeepEverything(entries[..n], keep);
      KeepLast(entries, keep);
      KeepWhole(entries[n], keep);
      assert entries == entries[..n] + [entries[n]];
    }
  }

  lemma KeepWhole(entry: Entry, keep: Handler -> bool)
    requires (entry.Group? ==> entry.hooks != []) && forall h :: keep(h)
    ensures KeepEntry(entry, keep) == [entry]
  {
    if entry.Group? {
      KeepEveryHook(entry.hooks, keep);
    }
  }

  lemma {:induction false} KeepAlike(entries: seq<Entry>, f: Handler -> bool, g: Handler -> bool)
    requires forall h :: f(h) <==> g(h)
    ensures KeepEntries(entries, f) == KeepEntries(entries, g)
  {
    if entries != [] {
      var n := |entries| - 1;
      KeepAlike(entries[..n], f, g);
      if entries[n].Group? {
        KeepHooksAlike(entries[n].hooks, f, g);
      }
    }
  }

  lemma {:induction false} KeepHooksAlike(hooks: seq<Handler>, f: Handler -> bool, g: Handler -> bool)
    requires forall h :: f(h) <==> g(h)
    ensures KeepHooks(hooks, f) == KeepHooks(hooks, g)
  {
    if hooks != [] {
      KeepHooksAlike(hooks[..|hooks| - 1], f, g);
    }
  }

  // ---------------------------------------------------------------------
  // One round
  // ---------------------------------------------------------------------

  lemma ThinnedEntries(bs: Blocks, keep: Handler -> bool, b: string, e: string)
    ensures Entries(AllThinned(bs, keep), b, e) == KeepEntries(Entries(bs, b, e), keep)
  {
  }

  lemma AddedEntry(bs: Blocks, c: string, f: string, entry: Entry, b: string, e: string)
    ensures Entries(WithEntry(bs, c, f, entry), b, e) == Entries(bs, b, e) + if b == c && e == f then [entry] else []
  {
  }

  /** What a round makes of an event's entries. */
  lemma RoundEntries(t: Task, k: Kind, bs: Blocks, b: string, e: string)
    requires NonEmptyGroups(bs)
    ensures Entries(Reconciled(t, k, bs), b, e)
      == KeepEntries(Entries(bs, b, e), Outside(t, if Removes(t, k, bs) then {k} else {})) + NewAt(t, k, bs, b, e)
  {
    var before := Entries(bs, b, e);
    if Removes(t, k, bs) {
      var thin := AllThinned(bs, NotKind(t, k));
      ThinnedKeys(bs, NotKind(t, k));
      ThinnedEntries(bs, NotKind(t, k), b, e);
      KeepAlike(before, NotKind(t, k), Outside(t, {k}));
      AddedEntry(thin, Home(t, thin), EventOf(t.target, k), NewEntry(t, k), b, e);
      assert KeepEntries(before, Outside(t, {k})) + [] == KeepEntries(before, Outside(t, {k}));
    } else {
      FullEntriesOf(bs, b, e);
      KeepEverything(before, Outside(t, {}));
      assert before + [] == before;
    }
  }

  lemma FullEntriesOf(bs: Blocks, b: string, e: string)
    requires NonEmptyGroups(bs)
    ensures FullEntries(Entries(bs, b, e))
  {
    if b in bs && e in bs[b] {
      assert FullValue(bs[b][e]);
    }
  }

  /** A round for another kind makes no difference to what a kind needs. */
  lemma RemovesStays(t: Task, k: Kind, j: Kind, bs: Blocks)
    requires t.Built() && k != j
    ensures Removes(t, k, Reconciled(t, j, bs)) <==> Removes(t, k, bs)
  {
    hide Settled, Reconciled, OneInPlace, Owned;
    RoundKeepsOtherKinds(t, k, j, bs);
    OneInPlaceDependsOnOwned(t, k, bs, Reconciled(t, j, bs));
    SettledIsOneInPlace(t, k, bs);
    SettledIsOneInPlace(t, k, Reconciled(t, j, bs));
  }

  /** Only the contract goes to a block of its own, and it goes first. */
  lemma NewAtStays(t: Task, k: Kind, j: Kind, bs: Blocks, b: string, e: string)
    requires t.Built() && k != j
    ensures NewAt(t, k, Reconciled(t, j, bs), b, e) == NewAt(t, k, bs, b, e)
  {
    RemovesStays(t, k, j, bs);
    ThinnedKeys(bs, NotKind(t, j));
  }

  /** A new entry is not taken out by the round for another kind. */
  lemma NewEntryStays(t: Task, k: Kind, bs: Blocks, b: string, e: string, kinds: set<Kind>)
    requires t.Built() && k !in kinds
    ensures KeepEntries(NewAt(t, k, bs, b, e), Outside(t, kinds)) == NewAt(t, k, bs, b, e)
  {
    if NewAt(t, k, bs, b, e) != [] {
      NewIsRecognized(t, k);
      KeepOne(NewEntry(t, k), Outside(t, kinds));
      KeepOneHook(t.New(k), Outside(t, kinds));
    }
  }

  // ---------------------------------------------------------------------
  // The whole plan
  // ---------------------------------------------------------------------

  function Only(t: Task, k: Kind, bs: Blocks): set<Kind> {
    if Removes(t, k, bs) then {k} else {}
  }

  lemma TwoKinds(t: Task, a: set<Kind>, b: set<Kind>)
    ensures forall h :: Outside(t, a + b)(h) <==> Outside(t, a)(h) && Outside(t, b)(h)
  {
  }

  lemma RemovedAre(t: Task, bs: Blocks)
    ensures Removed(t, bs) == Only(t, Contract, bs) + Only(t, AttentionStart, bs) + Only(t, AttentionEnd, bs)
  {
    IsOneOfTheKinds(Contract);
    IsOneOfTheKinds(AttentionStart);
    IsOneOfTheKinds(AttentionEnd);
  }

  /** One more round on what earlier ones have left of `before`. */
  lemma NextRound(t: Task, k: Kind, bs: Blocks, b: string, e: string, before: seq<Entry>, kinds: set<Kind>,
      added: seq<Entry>)
    requires NonEmptyGroups(bs) && Entries(bs, b, e) == KeepEntries(before, Outside(t, kinds)) + added
    requires KeepEntries(added, Outside(t, Only(t, k, bs))) == added
    ensures Entries(Reconciled(t, k, bs), b, e)
      == KeepEntries(before, Outside(t, kinds + Only(t, k, bs))) + (added + NewAt(t, k, bs, b, e))
  {
    hide Reconciled, Removes, NewAt, Outside, KeepEntries, Entries;
    var only := Only(t, k, bs);
    RoundEntries(t, k, bs, b, e);
    OnlyIs(t, k, bs);
    KeepConcat(KeepEntries(before, Outside(t, kinds)), added, Outside(t, only));
    TwoKinds(t, kinds, only);
    KeepTwice(before, Outside(t, kinds), Outside(t, only), Outside(t, kinds + only));
    Regroup(KeepEntries(before, Outside(t, kinds + only)), added, NewAt(t, k, bs, b, e));
  }

  lemma OnlyIs(t: Task, k: Kind, bs: Blocks)
    ensures Only(t, k, bs) == if Removes(t, k, bs) then {k} else {}
  {
  }

  lemma Regroup<T>(x: seq<T>, y: seq<T>, z: seq<T>)
    ensures x + y + z == x + (y + z)
  {
  }

  /** A plan takes the owned handlers of the kinds that need it out of every
      entry and adds the new entries behind. Entries keep their order, groups
      their other fields and the handlers left in them, and only a group that
      nothing is left in disappears. */
  lemma {:induction false} PlanEntries(t: Task, bs: Blocks, b: string, e: string)
    requires t.Built() && NonEmptyGroups(bs) && !(t.remove && !SelectedOwned(t, bs))
    ensures Entries(Plan(t, bs), b, e)
      == KeepEntries(Entries(bs, b, e), Outside(t, Removed(t, bs))) + AllNew(t, bs, b, e)
  {
    hide Reconciled, Removed, NewAt, Outside, KeepEntries, Entries, RoundsFrom, Only;
    RoundsAre(t, bs);
    RoundsEntries(t, bs, b, e);
    TidyKeepsEntries(t, bs, RoundsFrom(t, bs, 0), b, e);
  }

  lemma TidyKeepsEntries(t: Task, before: Blocks, bs: Blocks, b: string, e: string)
    ensures Entries(Tidied(t, before, bs), b, e) == Entries(bs, b, e)
  {
  }

  lemma FirstRound(t: Task, bs: Blocks, b: string, e: string)
    requires NonEmptyGroups(bs)
    ensures Entries(Reconciled(t, Contract, bs), b, e)
      == KeepEntries(Entries(bs, b, e), Outside(t, Only(t, Contract, bs))) + NewAt(t, Contract, bs, b, e)
  {
    hide Reconciled, Outside, KeepEntries, Entries;
    RoundEntries(t, Contract, bs, b, e);
    OnlyIs(t, Contract, bs);
  }

  lemma {:induction false} RoundsEntries(t: Task, bs: Blocks, b: string, e: string)
    requires t.Built() && NonEmptyGroups(bs)
    ensures Entries(Reconciled(t, AttentionEnd, Reconciled(t, AttentionStart, Reconciled(t, Contract, bs))), b, e)
      == KeepEntries(Entries(bs, b, e), Outside(t, Removed(t, bs))) + AllNew(t, bs, b, e)
  {
    hide Reconciled, Removed, NewAt, Outside, KeepEntries, Entries, Only, NonEmptyGroups;
    var before, b1 := Entries(bs, b, e), Reconciled(t, Contract, bs);
    var b2 := Reconciled(t, AttentionStart, b1);
    RoundStaysFull(t, Contract, bs);
    RoundStaysFull(t, AttentionStart, b1);
    Unaffected(t, bs, b, e);
    RemovedAre(t, bs);
    var c, s := Only(t, Contract, bs), Only(t, AttentionStart, bs);
    var x, y := NewAt(t, Contract, bs, b, e), NewAt(t, AttentionStart, bs, b, e);
    FirstRound(t, bs, b, e);
    NewEntryStays(t, Contract, bs, b, e, s);
    NextRound(t, AttentionStart, b1, b, e, before, c, x);
    KeepConcat(x, y, Outside(t, Only(t, AttentionEnd, bs)));
    NewEntryStays(t, Contract, bs, b, e, Only(t, AttentionEnd, bs));
    NewEntryStays(t, AttentionStart, bs, b, e, Only(t, AttentionEnd, bs));
    NextRound(t, AttentionEnd, b2, b, e, before, c + s, x + y);
  }

  /** Later rounds do what they would have done first. */
  lemma Unaffected(t: Task, bs: Blocks, b: string, e: string)
    requires t.Built()
    ensures var b1 := Reconciled(t, Contract, bs);
      var b2 := Reconciled(t, AttentionStart, b1);
      && Only(t, AttentionStart, b1) == Only(t, AttentionStart, bs)
      && Only(t, AttentionEnd, b2) == Only(t, AttentionEnd, bs)
      && NewAt(t, AttentionStart, b1, b, e) == NewAt(t, AttentionStart, bs, b, e)
      && NewAt(t, AttentionEnd, b2, b, e) == NewAt(t, AttentionEnd, bs, b, e)
    ensures Contract !in Only(t, AttentionStart, bs) && Contract !in Only(t, AttentionEnd, bs)
    ensures AttentionStart !in Only(t, AttentionEnd, bs)
  {
    hide Reconciled, Removes, NewAt;
    var b1 := Reconciled(t, Contract, bs);
    RemovesStays(t, AttentionStart, Contract, bs);
    RemovesStays(t, AttentionEnd, Contract, bs);
    RemovesStays(t, AttentionEnd, AttentionStart, b1);
    NewAtStays(t, AttentionStart, Contract, bs, b, e);
    NewAtStays(t, AttentionEnd, Contract, bs, b, e);
    NewAtStays(t, AttentionEnd, AttentionStart, b1, b, e);
  }

  // ---------------------------------------------------------------------
  // Settings
  // ---------------------------------------------------------------------

  /** No event that Kata writes to is a setting. */
  ghost predicate EventsAreNoSettings(t: Task, bs: Blocks) {
    forall b, k :: SettingAt(bs, b, EventOf(t.target, k)) == None
  }

  lemma RoundSettings(t: Task, k: Kind, bs: Blocks, b: string, e: string)
    requires SettingAt(bs, b, EventOf(t.target, k)) == None
    ensures SettingAt(Reconciled(t, k, bs), b, e) == SettingAt(bs, b, e)
  {
    hide KeepEntries, Settled, Home, NewEntry;
  }

  lemma TidySettings(t: Task, before: Blocks, bs: Blocks, b: string, e: string)
    ensures SettingAt(Tidied(t, before, bs), b, e) == SettingAt(bs, b, e)
  {
  }

  /** A plan leaves every setting as it was. */
  lemma {:induction false} PlanKeepsSettings(t: Task, bs: Blocks, b: string, e: string)
    requires EventsAreNoSettings(t, bs)
    ensures SettingAt(Plan(t, bs), b, e) == SettingAt(bs, b, e)
  {
    hide Reconciled, SettingAt, RoundsFrom;
    var b1 := Reconciled(t, Contract, bs);
    var b2 := Reconciled(t, AttentionStart, b1);
    RoundsAre(t, bs);
    forall c, f ensures SettingAt(b1, c, f) == SettingAt(bs, c, f) {
      RoundSettings(t, Contract, bs, c, f);
    }
    forall c, f ensures SettingAt(b2, c, f) == SettingAt(bs, c, f) {
      RoundSettings(t, AttentionStart, b1, c, f);
    }
    RoundSettings(t, AttentionEnd, b2, b, e);
    TidySettings(t, bs, RoundsFrom(t, bs, 0), b, e);
  }

  // ---------------------------------------------------------------------
  // Blocks
  // ---------------------------------------------------------------------

  lemma RoundKeepsBlocks(t: Task, k: Kind, bs: Blocks)
    ensures bs.Keys <= Reconciled(t, k, bs).Keys
  {
    hide Settled, Home, NewEntry, Thinned;
    ThinnedKeys(bs, NotKind(t, k));
  }

  lemma RoundsKeepBlocks(t: Task, bs: Blocks)
    ensures bs.Keys <= RoundsFrom(t, bs, 0).Keys
  {
    hide Reconciled, RoundsFrom;
    var b1 := Reconciled(t, Contract, bs);
    RoundsAre(t, bs);
    RoundKeepsBlocks(t, Contract, bs);
    RoundKeepsBlocks(t, AttentionStart, b1);
    RoundKeepsBlocks(t, AttentionEnd, Reconciled(t, AttentionStart, b1));
  }

  /** A block stays unless it loses its last event, and then all it held was
      Kata's. Only Antigravity has blocks that go. */
  lemma PlanKeepsBlocks(t: Task, bs: Blocks, b: string)
    requires t.Built() && EventsAreNoSettings(t, bs) && b in bs
    ensures b !in Plan(t, bs) ==> IsFlatTarget(t.target) && bs[b] != map[]
    ensures b !in Plan(t, bs) ==> forall e :: SettingAt(bs, b, e) == None && Foreign(t, bs, b, e) == []
    ensures b in Plan(t, bs) && IsFlatTarget(t.target) && bs[b] != map[] ==> Plan(t, bs)[b] != map[]
    ensures bs[b] == map[] ==> b in Plan(t, bs)
  {
    hide Reconciled, RoundsFrom, SelectedOwned;
    RoundsKeepBlocks(t, bs);
    if b !in Plan(t, bs) {
      forall e ensures SettingAt(bs, b, e) == None && Foreign(t, bs, b, e) == [] {
        PlanKeepsSettings(t, bs, b, e);
        PlanForeign(t, bs, b, e);
      }
    }
  }
}
