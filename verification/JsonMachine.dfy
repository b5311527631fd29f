/** A JSON reader that takes one byte at a time, as the configuration editor's
    decoder does: RFC 8259 with distinct names in every object. */
module JsonMachine {
  import opened Jsonc
  import opened Options

  /** The parts of the JSON library that stay abstract: the string that a
      complete token stands for, if it is well formed, and which other tokens
      are numbers or literals. */
  datatype Library = Library(decode: string -> Option<string>, scalar: string -> bool)

  /** Numbers and literals hold no slash. */
  ghost predicate PlainScalars(lib: Library) {
    forall t: string :: lib.scalar(t) ==> '/' !in t
  }

  datatype Frame = InObject(seen: set<string>) | InArray

  datatype Stack = Bottom | Push(top: Frame, below: Stack)

  datatype Need = Value | FirstItem | FirstKey | NextKey | Colon | After

  datatype State =
    | Fail
    | Want(k: Stack, need: Need)
    | Quote(k: Stack, isKey: bool, raw: string, escaped: bool)
    | Bare(k: Stack, text: string)

  predicate Structural(c: char) {
    c == '{' || c == '}' || c == '[' || c == ']' || c == ':' || c == ',' || c == '"'
  }

  function StartValue(k: Stack, c: char): State {
    if c == '{' then Want(Push(InObject({}), k), FirstKey)
    else if c == '[' then Want(Push(InArray, k), FirstItem)
    else if c == '"' then Quote(k, false, [c], false)
    else if Structural(c) then Fail
    else Bare(k, [c])
  }

  /** What may follow a value. */
  function AfterValue(k: Stack, c: char): State {
    match k
    case Bottom => Fail
    case Push(InObject(seen), below) =>
      if c == ',' then Want(k, NextKey) else if c == '}' then Want(below, After) else Fail
    case Push(InArray, below) =>
      if c == ',' then Want(k, Value) else if c == ']' then Want(below, After) else Fail
  }

  function EndString(lib: Library, k: Stack, isKey: bool, token: string): State {
    match lib.decode(token)
    case None => Fail
    case Some(s) =>
      if !isKey then Want(k, After)
      else if k.Push? && k.top.InObject? && s !in k.top.seen then Want(Push(InObject(k.top.seen + {s}), k.below), Colon)
      else Fail
  }

  function Step(lib: Library, s: State, c: char): State {
    match s
    case Fail => Fail
    case Want(k, need) =>
      if White(c) then s
      else (match need
        case Value => StartValue(k, c)
        case FirstItem => if c == ']' && k.Push? then Want(k.below, After) else StartValue(k, c)
        case FirstKey =>
          if c == '"' then Quote(k, true, [c], false) else if c == '}' && k.Push? then Want(k.below, After) else Fail
        case NextKey => if c == '"' then Quote(k, true, [c], false) else Fail
        case Colon => if c == ':' then Want(k, Value) else Fail
        case After => AfterValue(k, c))
    case Quote(k, isKey, raw, escaped) =>
      if escaped then Quote(k, isKey, raw + [c], false)
      else if c == '\\' then Quote(k, isKey, raw + [c], true)
      else if c == '"' then EndString(lib, k, isKey, raw + [c])
      else Quote(k, isKey, raw + [c], false)
    case Bare(k, text) =>
      if White(c) then (if lib.scalar(text) then Want(k, After) else Fail)
      else if c == ',' || c == ']' || c == '}' then (if lib.scalar(text) then AfterValue(k, c) else Fail)
      else if Structural(c) then Fail
      else Bare(k, text + [c])
  }

  function Run(lib: Library, s: State, t: string): State
    decreases |t|
  {
    if t == "" then s else Run(lib, Step(lib, s, t[0]), t[1..])
  }

  predicate Accepts(lib: Library, s: State) {
    s == Want(Bottom, After) || (s.Bare? && s.k == Bottom && lib.scalar(s.text))
  }

  const START := Want(Bottom, Value)

  predicate Valid(lib: Library, t: string) {
    Accepts(lib, Run(lib, START, t))
  }

  // ---------------------------------------------------------------------
  // Runs
  // ---------------------------------------------------------------------

  lemma {:induction false} RunParts(lib: Library, s: State, a: string, b: string)
    ensures Run(lib, s, a + b) == Run(lib, Run(lib, s, a), b)
    decreases |a|
  {
    if a == "" {
      assert a + b == b;
    } else {
      assert (a + b)[0] == a[0] && (a + b)[1..] == a[1..] + b;
      RunParts(lib, Step(lib, s, a[0]), a[1..], b);
    }
  }

  lemma {:induction false} FailStays(lib: Library, t: string)
    ensures Run(lib, Fail, t) == Fail
    decreases |t|
  {
    if t != "" {
      FailStays(lib, t[1..]);
    }
  }

  /** Whether a state is inside a string. */
  function LexState(s: State): Mode {
    if s.Quote? then (if s.escaped then Escaped else Quoted) else Code
  }

  /** The machine reads strings where the lexical scan does. */
  lemma {:induction false} RunIsLexed(lib: Library, s: State, t: string)
    requires Run(lib, s, t) != Fail
    ensures LexRun(LexState(s), t) == LexState(Run(lib, s, t))
    decreases |t|
  {
    if t != "" {
      if Step(lib, s, t[0]) == Fail {
        FailStays(lib, t[1..]);
      } else {
        RunIsLexed(lib, Step(lib, s, t[0]), t[1..]);
      }
    }
  }

  /** A whole string token is one value or one key. */
  lemma {:induction false} RunInside(lib: Library, k: Stack, isKey: bool, raw: string, escaped: bool, body: string,
      rest: string)
    requires Inside(body, if escaped then Escaped else Quoted)
    ensures Run(lib, Quote(k, isKey, raw, escaped), body + rest) == Run(lib, EndString(lib, k, isKey, raw + body), rest)
    decreases |body|
  {
    var c := body[0];
    assert (body + rest)[0] == c && (body + rest)[1..] == body[1..] + rest;
    if |body| == 1 {
      assert body == [c] && body[1..] + rest == rest;
    } else {
      assert raw + [c] + body[1..] == raw + body;
      RunInside(lib, k, isKey, raw + [c], Lexed(if escaped then Escaped else Quoted, c) == Escaped, body[1..], rest);
    }
  }

  /** A string token with its quotes. */
  predicate IsToken(t: string) {
    t != "" && t[0] == '"' && Inside(t[1..], Quoted)
  }

  lemma RunToken(lib: Library, s: State, token: string, rest: string)
    requires IsToken(token) && s.Want?
    requires s.need == Value || s.need == FirstItem || s.need == FirstKey || s.need == NextKey
    ensures Run(lib, s, token + rest)
      == Run(lib, EndString(lib, s.k, s.need == FirstKey || s.need == NextKey, token), rest)
  {
    assert (token + rest)[0] == '"' && (token + rest)[1..] == token[1..] + rest;
    assert ['"'] + token[1..] == token;
    RunInside(lib, s.k, s.need == FirstKey || s.need == NextKey, ['"'], false, token[1..], rest);
  }

  lemma TokenIsPlain(t: string)
    requires IsToken(t)
    ensures Plain(t, Code)
  {
    InsideIsPlain(t[1..], Quoted);
  }

  lemma One(c: char, rest: string)
    ensures ([c] + rest)[0] == c && ([c] + rest)[1..] == rest
  {
  }

  // ---------------------------------------------------------------------
  // States that differ only in what may close
  // ---------------------------------------------------------------------

  /** An empty container and one that just got a value close alike. */
  lemma {:induction false} ClosingAlike(lib: Library, k: Stack, j: Stack, t: string)
    requires k.Push? && j.Push? && k.below == j.below && Closes(t)
    requires (k.top.InObject? && j.top.InObject?) || (k.top.InArray? && j.top.InArray?)
    ensures Run(lib, Want(k, if k.top.InArray? then FirstItem else FirstKey), t) == Run(lib, Want(j, After), t)
    decreases |t|
  {
    if White(t[0]) {
      ClosingAlike(lib, k, j, t[1..]);
    }
  }

  /** A first item and a later one are read alike. */
  lemma {:induction false} ItemAlike(lib: Library, k: Stack, t: string)
    requires k.Push? && !Closes(t)
    ensures Accepts(lib, Run(lib, Want(k, FirstItem), t)) ==>
      Run(lib, Want(k, Value), t) == Run(lib, Want(k, FirstItem), t)
    decreases |t|
  {
    if t != "" {
      if White(t[0]) {
        ItemAlike(lib, k, t[1..]);
      }
    }
  }
}
