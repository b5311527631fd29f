/** Which handlers are Kata's own, and those it writes (cmd/kata/agent_hooks_extra.go, agent_hooks_config.go). */
module HookKinds {
  import opened Json
  import opened Options
  import ShellWords

  datatype Kind = Contract | AttentionStart | AttentionEnd

  const KINDS := [Contract, AttentionStart, AttentionEnd]

  type Handler = map<string, Json>

  function KindName(k: Kind): string {
    match k case Contract => "contract" case AttentionStart => "start" case AttentionEnd => "end"
  }

  /** extraHookCapabilities. */
  predicate Supports(target: string, k: Kind) {
    match k
    case Contract => target in {"droid", "kimi-code", "muse", "antigravity", "zcode"}
    case AttentionStart => target in {"droid", "kimi-code", "muse", "zcode", "kimi", "grok"}
    case AttentionEnd => target in {"droid", "kimi-code", "muse", "kimi", "grok"}
  }

  /** extraHookEvent. */
  function EventOf(target: string, k: Kind): string {
    if k == AttentionEnd then "SessionEnd"
    else if k == Contract && target == "kimi-code" then "UserPromptSubmit"
    else if target == "antigravity" then "PreInvocation"
    else "SessionStart"
  }

  /** extraHookArguments. */
  function Arguments(target: string, k: Kind): seq<string> {
    if k == Contract then ["agent-hook", "contract", target]
    else ["agent-hook", "attention-native", target, KindName(k)]
  }

  function Source(k: Kind): string {
    if k == Contract then "kata-agent-contract-hook" else "kata-agent-hook-" + KindName(k)
  }

  // ---------------------------------------------------------------------
  // Executables
  // ---------------------------------------------------------------------

  predicate IsSlash(c: char) { c == '/' || c == '\\' }

  predicate HasSlash(s: string) { exists c :: c in s && IsSlash(c) }

  /** The name after the last separator of either kind. */
  function BaseName(s: string): string {
    if s == [] then [] else if HasSlash(s) then BaseName(s[1..]) else s
  }

  /** isKataHookExecutable. */
  predicate IsKata(executable: string) {
    var name := if HasSlash(executable) then BaseName(executable) else executable;
    name == "kata" || name == "kata.exe"
  }

  /** agentHookOwnershipArgs for the arguments Kata generates: a renamed
      executable is marked as Kata's. */
  function OwnershipArgs(executable: string, args: seq<string>, k: Kind): seq<string> {
    if IsKata(executable) then args
    else if |args| >= 2 && args[|args| - 2..] == ["--source", Source(k)] then args
    else args + ["--source", Source(k)]
  }

  // ---------------------------------------------------------------------
  // Classification
  // ---------------------------------------------------------------------

  /** canonicalAgentHookArgs. */
  function Canonical(args: seq<string>): seq<string> {
    if args != [] && args[0] == "agent-hooks" then ["agent-hook"] + args[1..] else args
  }

  /** An executable that may stand in an owned command at all. */
  predicate MayOwn(executable: string) {
    && executable != ""
    && !('=' in executable && !HasSlash(executable))
    && (IsKata(executable) || HasSlash(executable))
  }

  /** The loop of extraHookArgvKind over the kinds from `i` on. */
  function ArgvKindFrom(target: string, executable: string, rest: seq<string>, i: nat): Option<Kind>
    requires i <= |KINDS|
    decreases |KINDS| - i
  {
    if i == |KINDS| then None
    else
      var args := Arguments(target, KINDS[i]);
      if (IsKata(executable) && rest == args) || rest == args + ["--source", Source(KINDS[i])] then Some(KINDS[i])
      else ArgvKindFrom(target, executable, rest, i + 1)
  }

  /** extraHookArgvKind. */
  function ArgvKind(target: string, argv: seq<string>): Option<Kind> {
    if |argv| < 2 || !MayOwn(argv[0]) then None
    else ArgvKindFrom(target, argv[0], Canonical(argv[1..]), 0)
  }

  /** Whether the system is Windows, and how a field is tokenized that does not
      follow the POSIX rules, in a way nothing is assumed about. */
  datatype Platform = Platform(words: (string, string) -> Option<seq<string>>, windows: bool)

  function FieldWords(p: Platform, field: string, command: string): Option<seq<string>> {
    if field == "bash" || (field == "command" && !p.windows) then ShellWords.Words(command)
    else p.words(field, command)
  }

  const COMMAND_FIELDS := ["command", "commandWindows", "command_windows", "bash", "powershell"]

  /** Agreement of the populated command fields from `i` on, given what the
      earlier ones said; `None` is "not Kata's". */
  function FieldsKind(p: Platform, target: string, h: Handler, i: nat, so: Option<Kind>): Option<Kind>
    requires i <= |COMMAND_FIELDS|
    decreases |COMMAND_FIELDS| - i
  {
    if i == |COMMAND_FIELDS| then so
    else if COMMAND_FIELDS[i] !in h then FieldsKind(p, target, h, i + 1, so)
    else
      var raw := h[COMMAND_FIELDS[i]];
      if !raw.Str? then None
      else if raw.s == "" then FieldsKind(p, target, h, i + 1, so)
      else
        var argv := FieldWords(p, COMMAND_FIELDS[i], raw.s);
        if argv.None? then None
        else
          var candidate := ArgvKind(target, argv.value);
          if candidate.None? || (so.Some? && so != candidate) then None
          else FieldsKind(p, target, h, i + 1, candidate)
  }

  predicate AllStrings(items: seq<Json>) {
    forall i :: 0 <= i < |items| ==> items[i].Str?
  }

  function Strings(items: seq<Json>): seq<string>
    requires AllStrings(items)
  {
    seq(|items|, i requires 0 <= i < |items| => items[i].s)
  }

  function Texts(items: seq<string>): seq<Json> {
    seq(|items|, i requires 0 <= i < |items| => Str(items[i]))
  }

  /** extraHookKind. */
  function KindOf(p: Platform, target: string, h: Handler): Option<Kind> {
    if target == "zcode" && "type" in h && h["type"] == Str("process") then
      if !("command" in h && h["command"].Str?) then None
      else if !("args" in h && h["args"].Arr? && AllStrings(h["args"].items)) then None
      else if exists f :: f in COMMAND_FIELDS && f != "command" && f in h && h[f] != Str("") then None
      else ArgvKind(target, [h["command"].s] + Strings(h["args"].items))
    else if "type" in h && h["type"] != Str("command") then None
    else if "args" in h && h["args"] != Arr([]) then None
    else FieldsKind(p, target, h, 0, None)
  }

  // ---------------------------------------------------------------------
  // Generation
  // ---------------------------------------------------------------------

  /** The argv of a generated handler. */
  function Argv(target: string, executable: string, k: Kind): seq<string> {
    [executable] + OwnershipArgs(executable, Arguments(target, k), k)
  }

  /** extraHookHandler; `native` is the command line built for the argv. */
  function NewHandler(target: string, executable: string, native: string, k: Kind): Handler {
    if target == "zcode" then
      map["type" := Str("process"), "command" := Str(executable),
          "args" := Arr(Texts(OwnershipArgs(executable, Arguments(target, k), k))), "timeoutMs" := Num("10000")]
    else
      map["type" := Str("command"), "command" := Str(native), "timeout" := Num("10")]
  }

  /** A command line that the platform's shell reads as `argv`. */
  ghost predicate Spells(p: Platform, native: string, argv: seq<string>) {
    native != "" && FieldWords(p, "command", native) == Some(argv)
  }

  /** Single-quote quoting makes such a command line for POSIX shells. */
  lemma QuotingSpells(p: Platform, argv: seq<string>)
    requires argv != [] && !p.windows
    ensures Spells(p, ShellWords.Command(argv), argv)
  {
    ShellWords.WordsUndoQuoting(argv);
  }

  /** The arguments of one kind are those of no other. */
  lemma ArgumentsDiffer(target: string, k: Kind, j: Kind)
    requires k != j
    ensures Arguments(target, k) != Arguments(target, j)
    ensures Arguments(target, k) != Arguments(target, j) + ["--source", Source(j)]
    ensures Arguments(target, k) + ["--source", Source(k)] != Arguments(target, j)
    ensures Arguments(target, k) + ["--source", Source(k)] != Arguments(target, j) + ["--source", Source(j)]
  {
    var a, b := Arguments(target, k), Arguments(target, j);
    if k == Contract || j == Contract {
      assert a[1] != b[1];
      assert (a + ["--source", Source(k)])[1] == a[1] && (b + ["--source", Source(j)])[1] == b[1];
    } else {
      assert a[3] != b[3];
      assert (a + ["--source", Source(k)])[3] == a[3] && (b + ["--source", Source(j)])[3] == b[3];
    }
  }

  lemma GeneratedRest(target: string, executable: string, k: Kind)
    ensures var rest := OwnershipArgs(executable, Arguments(target, k), k);
            rest == (if IsKata(executable) then Arguments(target, k)
              else Arguments(target, k) + ["--source", Source(k)]) &&
            Canonical(rest) == rest && |rest| >= 3
  {
    var args := Arguments(target, k);
    if k == Contract {
      assert args[|args| - 2] == "contract";
    } else {
      assert args[|args| - 1] == KindName(k);
      assert |KindName(k)| <= 5 && |Source(k)| > 5;
    }
    var tail := args[|args| - 2..];
    assert tail[0] == args[|args| - 2] && tail[1] == args[|args| - 1];
    assert tail != ["--source", Source(k)];
    var rest := OwnershipArgs(executable, args, k);
    assert rest[0] == "agent-hook";
  }

  /** The classifier gives a generated argv its own kind exactly when the
      executable may stand in an owned command. */
  lemma {:induction false} ArgvAgrees(target: string, executable: string, k: Kind)
    ensures ArgvKind(target, Argv(target, executable, k)) == if MayOwn(executable) then Some(k) else None
  {
    var argv := Argv(target, executable, k);
    var rest := OwnershipArgs(executable, Arguments(target, k), k);
    GeneratedRest(target, executable, k);
    assert argv[0] == executable && argv[1..] == rest;
    if MayOwn(executable) {
      match k
      case Contract =>
      case AttentionStart =>
        ArgumentsDiffer(target, k, Contract);
        assert ArgvKindFrom(target, executable, rest, 0) == ArgvKindFrom(target, executable, rest, 1);
      case AttentionEnd =>
        ArgumentsDiffer(target, k, Contract);
        ArgumentsDiffer(target, k, AttentionStart);
        assert ArgvKindFrom(target, executable, rest, 0) == ArgvKindFrom(target, executable, rest, 1);
        assert ArgvKindFrom(target, executable, rest, 1) == ArgvKindFrom(target, executable, rest, 2);
    }
  }

  lemma {:induction false} ProcessAgrees(p: Platform, executable: string, native: string, k: Kind)
    ensures KindOf(p, "zcode", NewHandler("zcode", executable, native, k))
      == ArgvKind("zcode", Argv("zcode", executable, k))
  {
    var h := NewHandler("zcode", executable, native, k);
    var rest := OwnershipArgs(executable, Arguments("zcode", k), k);
    assert Strings(Texts(rest)) == rest;
    assert h.Keys == {"type", "command", "args", "timeoutMs"};
  }

  lemma CommandAgrees(p: Platform, target: string, executable: string, native: string, k: Kind)
    requires target != "zcode" && Spells(p, native, Argv(target, executable, k))
    ensures KindOf(p, target, NewHandler(target, executable, native, k))
      == ArgvKind(target, Argv(target, executable, k))
  {
    var h := NewHandler(target, executable, native, k);
    assert h.Keys == {"type", "command", "timeout"};
    CommandOnly(p, target, h);
  }

  /** Generator and classifier agree exactly on executables that are named by a
      path or are called kata or kata.exe: any other handler that Kata writes is
      not recognized as its own afterwards. */
  lemma {:induction false} GeneratorAgrees(p: Platform, target: string, executable: string, native: string, k: Kind)
    requires Spells(p, native, Argv(target, executable, k))
    ensures KindOf(p, target, NewHandler(target, executable, native, k)) == if MayOwn(executable) then Some(k) else None
  {
    ArgvAgrees(target, executable, k);
    if target == "zcode" {
      ProcessAgrees(p, executable, native, k);
    } else {
      CommandAgrees(p, target, executable, native, k);
    }
  }

  /** With no other command field, the command field decides. */
  lemma CommandOnly(p: Platform, target: string, h: Handler)
    requires "command" in h && h["command"].Str? && h["command"].s != ""
    requires forall f :: f in COMMAND_FIELDS && f != "command" ==> f !in h
    requires FieldWords(p, "command", h["command"].s).Some?
    ensures FieldsKind(p, target, h, 0, None) == ArgvKind(target, FieldWords(p, "command", h["command"].s).value)
  {
    var candidate := ArgvKind(target, FieldWords(p, "command", h["command"].s).value);
    assert COMMAND_FIELDS[0] == "command";
    assert forall i :: 1 <= i < |COMMAND_FIELDS| ==>
      COMMAND_FIELDS[i] in COMMAND_FIELDS && COMMAND_FIELDS[i] != "command";
    if candidate.Some? {
      SkipAbsent(p, target, h, 1, candidate);
    }
  }

  /** A command that is not Kata's makes the handler foreign. */
  lemma {:induction false} ForeignCommand(p: Platform, target: string, h: Handler, argv: seq<string>)
    requires "command" in h && h["command"].Str? && h["command"].s != ""
    requires FieldWords(p, "command", h["command"].s) == Some(argv) && ArgvKind(target, argv) == None
    requires target != "zcode"
    ensures KindOf(p, target, h) == None
  {
    assert COMMAND_FIELDS[0] == "command";
    assert FieldWords(p, COMMAND_FIELDS[0], h["command"].s) == Some(argv);
    assert FieldsKind(p, target, h, 0, None) == None;
  }

  lemma {:induction false} SkipAbsent(p: Platform, target: string, h: Handler, i: nat, so: Option<Kind>)
    requires i <= |COMMAND_FIELDS|
    requires forall j :: i <= j < |COMMAND_FIELDS| ==> COMMAND_FIELDS[j] !in h
    ensures FieldsKind(p, target, h, i, so) == so
    decreases |COMMAND_FIELDS| - i
  {
    if i < |COMMAND_FIELDS| {
      SkipAbsent(p, target, h, i + 1, so);
    }
  }

  /** What MayOwn comes to. */
  lemma MayOwnMeans(executable: string)
    ensures MayOwn(executable) <==> HasSlash(executable) || executable == "kata" || executable == "kata.exe"
  {
    if executable == "kata" || executable == "kata.exe" {
      assert '=' !in executable;
    }
  }

  // ---------------------------------------------------------------------
  // What is Kata's, in so many words
  // ---------------------------------------------------------------------

  /** The executable is called kata or kata.exe, in whatever directory. */
  predicate EndsInKata(executable: string) {
    IsCalled(executable, "kata") || IsCalled(executable, "kata.exe")
  }

  /** `s` is the name, or ends in a slash and the name. */
  predicate IsCalled(s: string, name: string) {
    && |name| <= |s| && s[|s| - |name|..] == name
    && (|name| < |s| ==> IsSlash(s[|s| - |name| - 1]))
  }

  /** The argv of an owned command of this kind: an executable named by a path or
      called kata, the words of the kind, and the mark of the kind, without
      which only an executable called kata is trusted. */
  ghost predicate Invokes(target: string, argv: seq<string>, k: Kind) {
    && |argv| >= 2
    && (HasSlash(argv[0]) || argv[0] in {"kata", "kata.exe"})
    && argv[1] in {"agent-hook", "agent-hooks"}
    && (argv[2..] == Arguments(target, k)[1..] + ["--source", Source(k)]
        || (EndsInKata(argv[0]) && argv[2..] == Arguments(target, k)[1..]))
  }

  lemma {:induction false} BaseNameIs(s: string)
    ensures !HasSlash(BaseName(s)) && IsCalled(s, BaseName(s))
  {
    if s != [] && HasSlash(s) {
      BaseNameIs(s[1..]);
      if BaseName(s[1..]) == s[1..] {
        var c :| c in s && IsSlash(c);
        assert s == [s[0]] + s[1..];
      }
    }
  }

  lemma IsKataMeans(executable: string)
    ensures IsKata(executable) <==> EndsInKata(executable)
  {
    BaseNameIs(executable);
    OnlyBaseName(executable, "kata");
    OnlyBaseName(executable, "kata.exe");
  }

  /** What stands behind the last slash is the only such name without one. */
  lemma OnlyBaseName(s: string, name: string)
    requires !HasSlash(name)
    ensures IsCalled(s, name) <==> BaseName(s) == name
  {
    BaseNameIs(s);
    if IsCalled(s, name) && |name| < |BaseName(s)| {
      LongerHasSlash(s, name, BaseName(s));
    }
    if IsCalled(s, name) && |BaseName(s)| < |name| {
      LongerHasSlash(s, BaseName(s), name);
    }
  }

  lemma LongerHasSlash(s: string, x: string, y: string)
    requires IsCalled(s, x) && IsCalled(s, y) && |x| < |y|
    ensures HasSlash(y)
  {
    assert y[|y| - |x| - 1] == s[|s| - |x| - 1] && y[|y| - |x| - 1] in y;
  }

  lemma ArgumentsBegin(target: string, k: Kind)
    ensures |Arguments(target, k)| >= 3 && Arguments(target, k)[0] == "agent-hook"
    ensures Arguments(target, k) == ["agent-hook"] + Arguments(target, k)[1..]
  {
  }

  /** A canonical argument list is these words exactly if the rest of the argv
      is, behind either spelling of the first word. */
  lemma CanonicalMeans(args: seq<string>, words: seq<string>)
    requires args != []
    ensures Canonical(args) == ["agent-hook"] + words <==>
      args[0] in {"agent-hook", "agent-hooks"} && args[1..] == words
  {
    assert args == [args[0]] + args[1..];
    var c := Canonical(args);
    assert c[1..] == args[1..] && c == [c[0]] + c[1..];
    assert (["agent-hook"] + words)[0] == "agent-hook" && (["agent-hook"] + words)[1..] == words;
  }

  predicate IsOf(target: string, executable: string, rest: seq<string>, k: Kind) {
    (IsKata(executable) && rest == Arguments(target, k)) || rest == Arguments(target, k) + ["--source", Source(k)]
  }

  lemma OfOneKind(target: string, executable: string, rest: seq<string>, k: Kind, j: Kind)
    requires k != j && IsOf(target, executable, rest, k)
    ensures !IsOf(target, executable, rest, j)
  {
    ArgumentsDiffer(target, k, j);
  }

  /** The loop over the kinds finds the one kind there is. */
  lemma FirstKindIs(target: string, executable: string, rest: seq<string>, k: Kind)
    ensures ArgvKindFrom(target, executable, rest, 0) == Some(k) <==> IsOf(target, executable, rest, k)
  {
    assert KINDS[0] == Contract && KINDS[1] == AttentionStart && KINDS[2] == AttentionEnd;
    forall j: Kind | j != k && IsOf(target, executable, rest, j) ensures !IsOf(target, executable, rest, k) {
      OfOneKind(target, executable, rest, j, k);
    }
    LoopOverKinds(target, executable, rest);
  }

  lemma LoopOverKinds(target: string, executable: string, rest: seq<string>)
    ensures ArgvKindFrom(target, executable, rest, 0) ==
      if IsOf(target, executable, rest, Contract) then Some(Contract)
      else if IsOf(target, executable, rest, AttentionStart) then Some(AttentionStart)
      else if IsOf(target, executable, rest, AttentionEnd) then Some(AttentionEnd)
      else None
  {
    assert ArgvKindFrom(target, executable, rest, 3) == None;
    assert ArgvKindFrom(target, executable, rest, 2) ==
      if IsOf(target, executable, rest, AttentionEnd) then Some(AttentionEnd) else None;
    assert ArgvKindFrom(target, executable, rest, 1) ==
      if IsOf(target, executable, rest, AttentionStart) then Some(AttentionStart)
      else ArgvKindFrom(target, executable, rest, 2);
  }

  /** An argv is recognized as Kata's exactly if it invokes one of its hooks. */
  lemma ArgvKindMeans(target: string, argv: seq<string>, k: Kind)
    ensures ArgvKind(target, argv) == Some(k) <==> Invokes(target, argv, k)
  {
    hide ArgvKindFrom, Canonical, IsKata, EndsInKata, Arguments, Source;
    if |argv| >= 2 {
      MayOwnMeans(argv[0]);
      IsKataMeans(argv[0]);
      FirstKindIs(target, argv[0], Canonical(argv[1..]), k);
      ArgumentsBegin(target, k);
      var words := Arguments(target, k)[1..];
      CanonicalMeans(argv[1..], words);
      CanonicalMeans(argv[1..], words + ["--source", Source(k)]);
      assert argv[1..][0] == argv[1] && argv[1..][1..] == argv[2..];
      assert ["agent-hook"] + words + ["--source", Source(k)] == ["agent-hook"] + (words + ["--source", Source(k)]);
    }
  }

  const COMMAND_NAMES := {"command", "commandWindows", "command_windows", "bash", "powershell"}

  /** A field holds a command line. */
  predicate Populated(h: Handler, field: string) {
    field in h && h[field] != Str("")
  }

  /** The field is absent or empty, or its command line invokes the hook. */
  ghost predicate FieldInvokes(p: Platform, target: string, h: Handler, field: string, k: Kind) {
    Populated(h, field) ==>
      h[field].Str? && FieldWords(p, field, h[field].s).Some? &&
      Invokes(target, FieldWords(p, field, h[field].s).value, k)
  }

  /** An owned handler of this kind: every command line it has invokes the one
      hook, it has one, and it has no arguments apart; or it is a process of
      ZCode's with one command and its arguments. */
  ghost predicate IsOwn(p: Platform, target: string, h: Handler, k: Kind) {
    if target == "zcode" && "type" in h && h["type"] == Str("process") then
      && "command" in h && h["command"].Str? && "args" in h && h["args"].Arr? && AllStrings(h["args"].items)
      && (forall f :: f in COMMAND_NAMES && f != "command" ==> !Populated(h, f))
      && Invokes(target, [h["command"].s] + Strings(h["args"].items), k)
    else
      && ("type" in h ==> h["type"] == Str("command")) && ("args" in h ==> h["args"] == Arr([]))
      && (forall f :: f in COMMAND_NAMES ==> FieldInvokes(p, target, h, f, k))
      && (exists f :: f in COMMAND_NAMES && Populated(h, f))
  }

  ghost predicate RestInvokes(p: Platform, target: string, h: Handler, i: nat, k: Kind)
    requires i <= |COMMAND_FIELDS|
  {
    forall j :: i <= j < |COMMAND_FIELDS| ==> FieldInvokes(p, target, h, COMMAND_FIELDS[j], k)
  }

  ghost predicate RestPopulated(h: Handler, i: nat)
    requires i <= |COMMAND_FIELDS|
  {
    exists j :: i <= j < |COMMAND_FIELDS| && Populated(h, COMMAND_FIELDS[j])
  }

  lemma {:induction false} FieldsKindMeans(p: Platform, target: string, h: Handler, i: nat, so: Option<Kind>, k: Kind)
    requires i <= |COMMAND_FIELDS|
    ensures FieldsKind(p, target, h, i, so) == Some(k) <==>
      RestInvokes(p, target, h, i, k) && (so == Some(k) || (so == None && RestPopulated(h, i)))
    decreases |COMMAND_FIELDS| - i
  {
    hide ArgvKind, Invokes, FieldWords;
    if i < |COMMAND_FIELDS| {
      var field := COMMAND_FIELDS[i];
      assert RestInvokes(p, target, h, i, k) <==>
        FieldInvokes(p, target, h, field, k) && RestInvokes(p, target, h, i + 1, k);
      assert RestPopulated(h, i) <==> Populated(h, field) || RestPopulated(h, i + 1);
      if !Populated(h, field) {
        FieldsKindMeans(p, target, h, i + 1, so, k);
      } else if h[field].Str? && FieldWords(p, field, h[field].s).Some? {
        var argv := FieldWords(p, field, h[field].s).value;
        ArgvKindMeans(target, argv, k);
        FieldsKindMeans(p, target, h, i + 1, ArgvKind(target, argv), k);
      }
    }
  }

  lemma FieldsAreFive()
    ensures forall f :: f in COMMAND_FIELDS <==> f in COMMAND_NAMES
  {
    assert COMMAND_FIELDS[0] == "command" && COMMAND_FIELDS[1] == "commandWindows";
    assert COMMAND_FIELDS[2] == "command_windows" && COMMAND_FIELDS[3] == "bash" && COMMAND_FIELDS[4] == "powershell";
  }

  /** A handler is recognized as Kata's exactly if it is its own in these words;
      any other is foreign. */
  lemma KindOfMeans(p: Platform, target: string, h: Handler, k: Kind)
    ensures KindOf(p, target, h) == Some(k) <==> IsOwn(p, target, h, k)
  {
    hide FieldsKind, ArgvKind, Invokes, FieldWords, FieldInvokes;
    FieldsAreFive();
    if target == "zcode" && "type" in h && h["type"] == Str("process") {
      ProcessMeans(p, target, h, k);
    } else {
      FieldsKindMeans(p, target, h, 0, None, k);
      AllFields(p, target, h, k);
    }
  }

  lemma AllFields(p: Platform, target: string, h: Handler, k: Kind)
    ensures RestInvokes(p, target, h, 0, k) <==> forall f :: f in COMMAND_NAMES ==> FieldInvokes(p, target, h, f, k)
    ensures RestPopulated(h, 0) <==> exists f :: f in COMMAND_NAMES && Populated(h, f)
  {
    hide FieldInvokes, Populated;
    FieldsAreFive();
    if RestInvokes(p, target, h, 0, k) {
      forall f | f in COMMAND_NAMES ensures FieldInvokes(p, target, h, f, k) {
        var j :| 0 <= j < |COMMAND_FIELDS| && COMMAND_FIELDS[j] == f;
      }
    }
    if f :| f in COMMAND_NAMES && Populated(h, f) {
      var j :| 0 <= j < |COMMAND_FIELDS| && COMMAND_FIELDS[j] == f;
    }
    forall j | 0 <= j < |COMMAND_FIELDS| ensures COMMAND_FIELDS[j] in COMMAND_NAMES {
      assert COMMAND_FIELDS[j] in COMMAND_FIELDS;
    }
  }

  lemma ProcessMeans(p: Platform, target: string, h: Handler, k: Kind)
    requires target == "zcode" && "type" in h && h["type"] == Str("process")
    ensures KindOf(p, target, h) == Some(k) <==> IsOwn(p, target, h, k)
  {
    hide FieldsKind, ArgvKind, Invokes;
    FieldsAreFive();
    assert (exists f :: f in COMMAND_FIELDS && f != "command" && f in h && h[f] != Str("")) <==>
      exists f :: f in COMMAND_NAMES && f != "command" && Populated(h, f);
    if "command" in h && h["command"].Str? && "args" in h && h["args"].Arr? && AllStrings(h["args"].items) {
      ArgvKindMeans(target, [h["command"].s] + Strings(h["args"].items), k);
    }
  }
}
