/** The literal tokenizer for configured hook commands (cmd/kata/agent_hooks_config.go, literalAgentHookWords). */
module ShellWords {
  import opened Options

  // It decides whether a command is one of Kata's own. This is its mode for POSIX
  // shells: no PowerShell, no Windows quoting. A char stands for a byte.

  datatype Quoting = Bare | Single | Double

  /** The scanner's variables: `started` tells an empty word from no word. */
  datatype Scanner = Scanner(quoted: Quoting, started: bool, word: string, words: seq<string>)

  const IDLE := Scanner(Bare, false, [], [])

  predicate IsBlank(c: char) { c == ' ' || c == '\t' }

  /** Operators, expansions and comments: anything a shell would act on. */
  predicate IsActive(c: char) { c in "\n\r;|&<>()$`*?[]{}#" }

  predicate IsEscapable(c: char) { c in "\"\\$`" }

  /** The next char makes the command more than literal words. */
  predicate Refuses(st: Scanner, s: string)
    requires s != []
  {
    match st.quoted
    case Single => false
    case Double => s[0] == '$' || s[0] == '`'
    case Bare => IsActive(s[0]) || (s[0] == '\\' && |s| == 1)
  }

  /** How many chars the next step consumes. */
  function Width(st: Scanner, s: string): (n: nat)
    requires s != [] && !Refuses(st, s)
    ensures 1 <= n <= |s|
  {
    if s[0] == '\\' && |s| > 1 && (st.quoted == Bare || (st.quoted == Double && IsEscapable(s[1]))) then 2 else 1
  }

  /** The scanner after that step. */
  function Next(st: Scanner, s: string): Scanner
    requires s != [] && !Refuses(st, s)
  {
    var c := s[Width(st, s) - 1];
    var add := st.(word := st.word + [c]);
    match st.quoted
    case Single => if s[0] == '\'' then st.(quoted := Bare) else add
    case Double => if s[0] == '"' then st.(quoted := Bare) else add
    case Bare =>
      if IsBlank(s[0]) then (if st.started then Scanner(Bare, false, [], st.words + [st.word]) else st)
      else if s[0] == '\'' then st.(quoted := Single, started := true)
      else if s[0] == '"' then st.(quoted := Double, started := true)
      else add.(started := true)
  }

  function Finish(st: Scanner): Option<seq<string>> {
    var words := if st.started then st.words + [st.word] else st.words;
    if st.quoted != Bare || words == [] then None else Some(words)
  }

  function Scan(st: Scanner, s: string): Option<seq<string>>
    decreases |s|
  {
    if s == [] then Finish(st)
    else if Refuses(st, s) then None
    else Scan(Next(st, s), s[Width(st, s)..])
  }

  /** The words of a command, or `None` when it is not literal. */
  function Words(command: string): Option<seq<string>> {
    Scan(IDLE, command)
  }

  /** literalAgentHookWords, with its byte loop. */
  method LiteralWords(command: string) returns (r: Option<seq<string>>)
    ensures r == Words(command)
  {
    var words: seq<string>, word: string, quoted, started := [], [], Bare, false;
    var i := 0;
    while i < |command|
      invariant 0 <= i <= |command|
      invariant Scan(Scanner(quoted, started, word, words), command[i..]) == Words(command)
    {
      var c := command[i];
      ghost var st, s := Scanner(quoted, started, word, words), command[i..];
      assert i + 1 < |command| ==> s[1] == command[i + 1];
      if quoted == Single {
        if c == '\'' {
          quoted := Bare;
        } else {
          word := word + [c];
        }
      } else if quoted == Double {
        if c == '"' {
          quoted := Bare;
        } else if c == '$' || c == '`' {
          return None;
        } else {
          if c == '\\' && i + 1 < |command| && IsEscapable(command[i + 1]) {
            i := i + 1;
            c := command[i];
          }
          word := word + [c];
        }
      } else if IsBlank(c) {
        if started {
          words, word, started := words + [word], [], false;
        }
      } else if IsActive(c) {
        return None;
      } else if c == '\'' || c == '"' {
        quoted := if c == '\'' then Single else Double;
        started := true;
      } else if c == '\\' {
        i := i + 1;
        if i >= |command| {
          return None;
        }
        word := word + [command[i]];
        started := true;
      } else {
        word := word + [c];
        started := true;
      }
      i := i + 1;
      StepIs(st, s, Scanner(quoted, started, word, words), command, i);
    }
    if quoted != Bare {
      return None;
    }
    if started {
      words := words + [word];
    }
    r := if |words| > 0 then Some(words) else None;
  }

  lemma StepIs(st: Scanner, s: string, next: Scanner, command: string, i: nat)
    requires s != [] && |s| <= |command| && s == command[|command| - |s|..]
    requires !Refuses(st, s) && next == Next(st, s) && i == |command| - |s| + Width(st, s)
    ensures Scan(st, s) == Scan(next, command[i..])
  {
    assert s[Width(st, s)..] == command[i..];
  }

  // ---------------------------------------------------------------------
  // Quoting
  // ---------------------------------------------------------------------

  /** strings.ReplaceAll(s, "'", "'\"'\"'"). */
  function Escape(s: string): string {
    if s == [] then [] else (if s[0] == '\'' then "'\"'\"'" else [s[0]]) + Escape(s[1..])
  }

  /** The repository's single-quote quoting. */
  function Quote(s: string): string {
    "'" + Escape(s) + "'"
  }

  function Command(args: seq<string>): string {
    if args == [] then [] else if |args| == 1 then Quote(args[0]) else Quote(args[0]) + " " + Command(args[1..])
  }

  lemma CommandBegins(args: seq<string>)
    requires args != []
    ensures Command(args) != "" && '\'' in Command(args)
  {
    assert Quote(args[0])[0] == '\'';
    assert Command(args)[0] == '\'';
  }

  lemma ScanStep(st: Scanner, c: char, rest: string)
    requires c != '\\' && !Refuses(st, [c] + rest)
    ensures Width(st, [c] + rest) == 1
    ensures Scan(st, [c] + rest) == Scan(Next(st, [c] + rest), rest)
  {
    assert ([c] + rest)[1..] == rest;
  }

  /** Inside single quotes any char but the quote stands for itself. */
  lemma SinglePlain(st: Scanner, c: char, rest: string)
    requires st.quoted == Single && c != '\''
    ensures Scan(st, [c] + rest) == Scan(st.(word := st.word + [c]), rest)
  {
    assert ([c] + rest)[1..] == rest;
  }

  lemma Toggle(st: Scanner, c: char, rest: string)
    requires (c == '\'' && st.quoted != Double) || (c == '"' && st.quoted != Single)
    requires st.quoted == Bare ==> st.started
    ensures Scan(st, [c] + rest) ==
            Scan(st.(quoted := if st.quoted != Bare then Bare else if c == '"' then Double else Single), rest)
  {
    ScanStep(st, c, rest);
  }

  lemma QuoteInDouble(st: Scanner, rest: string)
    requires st.quoted == Double
    ensures Scan(st, ['\''] + rest) == Scan(st.(word := st.word + ['\'']), rest)
  {
    ScanStep(st, '\'', rest);
  }

  lemma FiveChars(rest: string)
    ensures "'\"'\"'" + rest == ['\''] + (['"'] + (['\''] + (['"'] + (['\''] + rest))))
  {
  }

  /** A single quote is written by leaving the quotes, quoting it in double
      quotes, and entering them again. */
  lemma {:induction false} SingleQuote(st: Scanner, rest: string)
    requires st.quoted == Single && st.started
    ensures Scan(st, "'\"'\"'" + rest) == Scan(st.(word := st.word + ['\'']), rest)
  {
    FiveChars(rest);
    var bare, double := st.(quoted := Bare), st.(quoted := Double);
    var read := double.(word := st.word + ['\'']);
    Toggle(st, '\'', ['"'] + (['\''] + (['"'] + (['\''] + rest))));
    Toggle(bare, '"', ['\''] + (['"'] + (['\''] + rest)));
    QuoteInDouble(double, ['"'] + (['\''] + rest));
    Toggle(read, '"', ['\''] + rest);
    Toggle(read.(quoted := Bare), '\'', rest);
  }

  lemma {:induction false} EscapedIsRead(st: Scanner, s: string, rest: string)
    requires st.quoted == Single && st.started
    ensures Scan(st, Escape(s) + rest) == Scan(st.(word := st.word + s), rest)
    decreases |s|
  {
    if s == [] {
      assert Escape(s) + rest == rest && st.word + s == st.word;
    } else {
      var c, tail := s[0], Escape(s[1..]) + rest;
      var after := st.(word := st.word + [c]);
      assert after.word + s[1..] == st.word + s;
      EscapedIsRead(after, s[1..], rest);
      EscapeFirst(s, rest);
      if c == '\'' {
        SingleQuote(st, tail);
      } else {
        SinglePlain(st, c, tail);
      }
    }
  }

  lemma EscapeFirst(s: string, rest: string)
    requires s != []
    ensures Escape(s) + rest == (if s[0] == '\'' then "'\"'\"'" else [s[0]]) + (Escape(s[1..]) + rest)
  {
  }

  /** A quoted argument is read as one word, whatever bytes it holds. */
  lemma QuotedIsRead(words: seq<string>, s: string, rest: string)
    ensures Scan(Scanner(Bare, false, [], words), Quote(s) + rest) == Scan(Scanner(Bare, true, s, words), rest)
  {
    var st := Scanner(Bare, false, [], words);
    var single := Scanner(Single, true, [], words);
    assert Quote(s) + rest == ['\''] + (Escape(s) + (['\''] + rest));
    ScanStep(st, '\'', Escape(s) + (['\''] + rest));
    EscapedIsRead(single, s, ['\''] + rest);
    assert [] + s == s;
    ScanStep(single.(word := s), '\'', rest);
  }

  lemma CommandFirst(args: seq<string>)
    requires args != []
    ensures Command(args) == Quote(args[0]) + if |args| == 1 then [] else [' '] + Command(args[1..])
    ensures |args| == 1 ==> args == [args[0]]
  {
    hide Quote;
    if |args| > 1 {
      Spaced(Quote(args[0]), Command(args[1..]));
    }
  }

  lemma Spaced(a: string, b: string)
    ensures a + " " + b == a + ([' '] + b)
  {
  }

  /** The state behind a quoted command, its last word still open. */
  lemma {:induction false} CommandIsRead(words: seq<string>, args: seq<string>, rest: string)
    requires args != []
    ensures Scan(Scanner(Bare, false, [], words), Command(args) + rest)
      == Scan(Scanner(Bare, true, args[|args| - 1], words + args[..|args| - 1]), rest)
    decreases |args|
  {
    hide Quote, Scan, Command;
    CommandFirst(args);
    if |args| == 1 {
      QuotedIsRead(words, args[0], rest);
      assert Quote(args[0]) + [] == Quote(args[0]) && words + args[..0] == words;
    } else {
      var more := Command(args[1..]) + rest;
      QuotedIsRead(words, args[0], [' '] + more);
      assert Command(args) + rest == Quote(args[0]) + ([' '] + more);
      ScanStep(Scanner(Bare, true, args[0], words), ' ', more);
      CommandIsRead(words + [args[0]], args[1..], rest);
      assert words + [args[0]] + args[1..][..|args| - 2] == words + args[..|args| - 1];
    }
  }

  lemma ScanEnd(st: Scanner)
    requires st.quoted == Bare && st.started
    ensures Scan(st, "") == Some(st.words + [st.word])
  {
  }

  lemma LastOne(args: seq<string>)
    requires args != []
    ensures [] + args[..|args| - 1] + [args[|args| - 1]] == args
  {
  }

  /** The tokenizer undoes the quoting: any nonempty list of arguments comes
      back, with empty ones, quotes, newlines and operators intact. */
  lemma WordsUndoQuoting(args: seq<string>)
    requires args != []
    ensures Words(Command(args)) == Some(args)
  {
    hide Scan, Command;
    CommandIsRead([], args, "");
    assert Command(args) + "" == Command(args);
    ScanEnd(Scanner(Bare, true, args[|args| - 1], [] + args[..|args| - 1]));
    LastOne(args);
  }

  /** With anything behind it that a shell acts on, it is refused. */
  lemma OperatorIsRefused(args: seq<string>, c: char, rest: string)
    requires args != [] && c in "\n\r;|&<>()$`*?[]{}#"
    ensures Words(Command(args) + ([c] + rest)) == None
  {
    CommandIsRead([], args, [c] + rest);
  }

  // ---------------------------------------------------------------------
  // The grammar
  // ---------------------------------------------------------------------

  /** A piece of a word, and the text behind it. */
  datatype Piece = Piece(value: string, rest: string)

  /** Up to the closing single quote, everything stands for itself. */
  function SingleRest(s: string): (r: Option<Piece>)
    ensures r.Some? ==> |r.value.rest| < |s|
  {
    if s == "" then None
    else if s[0] == '\'' then Some(Piece("", s[1..]))
    else match SingleRest(s[1..])
      case None => None
      case Some(p) => Some(Piece([s[0]] + p.value, p.rest))
  }

  /** Up to the closing double quote, a backslash protects the four chars
      that mean something there, and two of these may not stand alone. */
  function DoubleRest(s: string): (r: Option<Piece>)
    ensures r.Some? ==> |r.value.rest| < |s|
  {
    if s == "" || s[0] == '$' || s[0] == '`' then None
    else if s[0] == '"' then Some(Piece("", s[1..]))
    else
      var protected := s[0] == '\\' && |s| > 1 && IsEscapable(s[1]);
      match DoubleRest(if protected then s[2..] else s[1..])
      case None => None
      case Some(p) => Some(Piece([if protected then s[1] else s[0]] + p.value, p.rest))
  }

  /** The next piece of a word: a quoted text, a protected char or a plain one. */
  function PieceAt(s: string): (r: Option<Piece>)
    requires s != ""
    ensures r.Some? ==> |r.value.rest| < |s|
  {
    if s[0] == '\'' then SingleRest(s[1..])
    else if s[0] == '"' then DoubleRest(s[1..])
    else if IsActive(s[0]) then None
    else if s[0] == '\\' then (if |s| > 1 then Some(Piece([s[1]], s[2..])) else None)
    else Some(Piece([s[0]], s[1..]))
  }

  /** The rest of a word: pieces up to a blank or the end. */
  function WordRest(s: string): (r: Option<Piece>)
    ensures r.Some? ==> |r.value.rest| <= |s|
    ensures r.Some? && s != "" && !IsBlank(s[0]) ==> |r.value.rest| < |s|
    decreases |s|
  {
    if s == "" || IsBlank(s[0]) then Some(Piece("", s))
    else match PieceAt(s)
      case None => None
      case Some(p) =>
        match WordRest(p.rest)
        case None => None
        case Some(more) => Some(Piece(p.value + more.value, more.rest))
  }

  /** The words of a line, which blanks separate. */
  function Line(s: string): Option<seq<string>>
    decreases |s|
  {
    if s == "" then Some([])
    else if IsBlank(s[0]) then Line(s[1..])
    else match WordRest(s)
      case None => None
      case Some(word) =>
        match Line(word.rest)
        case None => None
        case Some(words) => Some([word.value] + words)
  }

  /** The words so far and those of the rest of the line; no words are refused. */
  function Joined(words: seq<string>, line: Option<seq<string>>): Option<seq<string>> {
    match line
    case None => None
    case Some(more) => if words + more == [] then None else Some(words + more)
  }

  lemma {:induction false} SingleIsRead(word: string, words: seq<string>, s: string)
    ensures Scan(Scanner(Single, true, word, words), s) == match SingleRest(s)
      case None => None
      case Some(p) => Scan(Scanner(Bare, true, word + p.value, words), p.rest)
    decreases |s|
  {
    if s != "" {
      if s[0] == '\'' {
        assert word + "" == word;
      } else {
        SingleIsRead(word + [s[0]], words, s[1..]);
        if SingleRest(s[1..]).Some? {
          Appended(word, s[0], SingleRest(s[1..]).value.value);
        }
      }
    }
  }

  lemma Appended(word: string, c: char, more: string)
    ensures word + [c] + more == word + ([c] + more)
  {
  }

  lemma {:induction false} DoubleIsRead(word: string, words: seq<string>, s: string)
    ensures Scan(Scanner(Double, true, word, words), s) == match DoubleRest(s)
      case None => None
      case Some(p) => Scan(Scanner(Bare, true, word + p.value, words), p.rest)
    decreases |s|
  {
    if s != "" && !Refuses(Scanner(Double, true, word, words), s) {
      if s[0] == '"' {
        assert word + "" == word;
      } else {
        var protected := s[0] == '\\' && |s| > 1 && IsEscapable(s[1]);
        var c, rest := if protected then s[1] else s[0], if protected then s[2..] else s[1..];
        DoubleIsRead(word + [c], words, rest);
        if DoubleRest(rest).Some? {
          Appended(word, c, DoubleRest(rest).value.value);
        }
      }
    }
  }

  /** The scanner reads a piece of a word as the grammar does. */
  lemma PieceIsRead(st: Scanner, s: string)
    requires st.quoted == Bare && (!st.started ==> st.word == "") && s != "" && !IsBlank(s[0])
    ensures Scan(st, s) == match PieceAt(s)
      case None => None
      case Some(p) => Scan(Scanner(Bare, true, st.word + p.value, st.words), p.rest)
  {
    if s[0] == '\'' {
      SingleIsRead(st.word, st.words, s[1..]);
    } else if s[0] == '"' {
      DoubleIsRead(st.word, st.words, s[1..]);
    }
  }

  lemma {:induction false} WordIsRead(word: string, words: seq<string>, s: string)
    ensures Scan(Scanner(Bare, true, word, words), s) == match WordRest(s)
      case None => None
      case Some(p) => Scan(Scanner(Bare, true, word + p.value, words), p.rest)
    decreases |s|
  {
    hide Scan, PieceAt;
    if s == "" || IsBlank(s[0]) {
      assert word + "" == word;
    } else {
      PieceIsRead(Scanner(Bare, true, word, words), s);
      if PieceAt(s).Some? {
        var p := PieceAt(s).value;
        WordIsRead(word + p.value, words, p.rest);
        if WordRest(p.rest).Some? {
          assert word + p.value + WordRest(p.rest).value.value == word + (p.value + WordRest(p.rest).value.value);
        }
      }
    }
  }

  lemma WordEnds(word: string, words: seq<string>, s: string)
    requires s == "" || IsBlank(s[0])
    ensures Scan(Scanner(Bare, true, word, words), s)
      == if s == "" then Some(words + [word]) else Scan(Scanner(Bare, false, [], words + [word]), s[1..])
  {
  }

  lemma {:induction false} WordRestStops(s: string)
    requires WordRest(s).Some?
    ensures var rest := WordRest(s).value.rest; rest == "" || IsBlank(rest[0])
    decreases |s|
  {
    if s != "" && !IsBlank(s[0]) {
      WordRestStops(PieceAt(s).value.rest);
    }
  }

  lemma {:induction false} LineIsRead(words: seq<string>, s: string)
    ensures Scan(Scanner(Bare, false, [], words), s) == Joined(words, Line(s))
    decreases |s|
  {
    hide WordRest, PieceAt;
    var st := Scanner(Bare, false, [], words);
    if s == "" {
      assert words + [] == words;
    } else if IsBlank(s[0]) {
      LineIsRead(words, s[1..]);
    } else {
      WordStarts(words, s);
      WordIsRead([], words, s);
      if WordRest(s).Some? {
        var word := WordRest(s).value;
        WordRestStops(s);
        assert [] + word.value == word.value;
        WordEnds(word.value, words, word.rest);
        LineBehind(words, word);
        if word.rest != "" {
          LineIsRead(words + [word.value], word.rest[1..]);
        }
      }
    }
  }

  /** Starting a word and going on with one are the same before its first piece. */
  lemma WordStarts(words: seq<string>, s: string)
    requires s != "" && !IsBlank(s[0])
    ensures Scan(Scanner(Bare, false, [], words), s) == Scan(Scanner(Bare, true, [], words), s)
  {
    hide Scan;
    PieceIsRead(Scanner(Bare, false, [], words), s);
    PieceIsRead(Scanner(Bare, true, [], words), s);
  }

  lemma LineBehind(words: seq<string>, word: Piece)
    requires word.rest == "" || IsBlank(word.rest[0])
    ensures Joined(words, match Line(word.rest) case None => None case Some(more) => Some([word.value] + more))
      == if word.rest == "" then Some(words + [word.value]) else Joined(words + [word.value], Line(word.rest[1..]))
  {
    if word.rest == "" {
      assert Line(word.rest) == Some([]);
      assert words + ([word.value] + []) == words + [word.value];
    } else if Line(word.rest).Some? {
      assert words + ([word.value] + Line(word.rest).value) == words + [word.value] + Line(word.rest).value;
    }
  }

  /** The byte loop reads exactly the words of the grammar, and refuses a
      command that has none or that a shell would do more with. */
  lemma WordsAreOfTheLine(command: string)
    ensures Words(command) == Joined([], Line(command))
  {
    LineIsRead([], command);
  }
}
