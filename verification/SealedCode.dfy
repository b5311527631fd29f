/** Generated code that carries a digest of itself; the hash is a parameter (cmd/kata/agent_hooks_generated.go). */
module SealedCode {
  import opened Decimal

  type Hash = string -> string

  /** All that is used of SHA-256 in hexadecimal: a digest is one line. */
  ghost predicate OneLine(hash: Hash) {
    forall s :: '\n' !in hash(s)
  }

  // ---------------------------------------------------------------------
  // Framing
  // ---------------------------------------------------------------------

  function Frame(data: string): string {
    Digits(|data|) + ":" + data
  }

  /** What the hash is fed: every member behind its length. */
  function Framed(files: seq<string>): string {
    if files == [] then "" else Frame(files[0]) + Framed(files[1..])
  }

  /** nativeAgentHookDigest. */
  method NativeAgentHookDigest(hash: Hash, files: seq<string>) returns (digest: string)
    ensures digest == hash(Framed(files))
  {
    var written := "";
    for i := 0 to |files|
      invariant written + Framed(files[i..]) == Framed(files)
    {
      Next(files, i);
      Associates(written, Frame(files[i]), Framed(files[i + 1..]));
      written := written + Frame(files[i]);
    }
    assert written + "" == written;
    return hash(written);
  }

  lemma Next(files: seq<string>, i: nat)
    requires i < |files|
    ensures Framed(files[i..]) == Frame(files[i]) + Framed(files[i + 1..])
  {
    assert files[i..][1..] == files[i + 1..];
  }

  lemma Associates(a: string, b: string, c: string)
    ensures a + (b + c) == a + b + c
  {
  }

  /** Digits up to a colon can only be read in one way. */
  lemma {:induction false} UntilColon(a: string, b: string, x: string, y: string)
    requires ':' !in a && ':' !in b && a + ":" + x == b + ":" + y
    ensures a == b && x == y
  {
    EmptySide(a, b, x, y);
    if a == "" {
      assert a + ":" + x == ":" + x && b + ":" + y == ":" + y;
      assert (":" + x)[1..] == x && (":" + y)[1..] == y;
    } else {
      Peel(a, x);
      Peel(b, y);
      UntilColon(a[1..], b[1..], x, y);
      assert a == [a[0]] + a[1..] && b == [b[0]] + b[1..];
    }
  }

  lemma EmptySide(a: string, b: string, x: string, y: string)
    requires ':' !in a && ':' !in b && a + ":" + x == b + ":" + y
    ensures a == "" <==> b == ""
  {
    var t := a + ":" + x;
    assert t[0] == if a == "" then ':' else a[0];
    assert t[0] == if b == "" then ':' else b[0];
  }

  lemma Peel(a: string, x: string)
    requires a != ""
    ensures (a + ":" + x)[0] == a[0] && (a + ":" + x)[1..] == a[1..] + ":" + x
  {
  }

  lemma NoColon(n: nat)
    ensures ':' !in Digits(n)
  {
    DigitsAreDigits(n);
  }

  lemma SplitAt(a: string, b: string, x: string, y: string)
    requires |a| == |b| && a + x == b + y
    ensures a == b && x == y
  {
    assert (a + x)[..|a|] == a && (b + y)[..|b|] == b;
    assert (a + x)[|a|..] == x && (b + y)[|b|..] == y;
  }

  /** Two lists of members are never fed to the hash as the same bytes. */
  lemma {:induction false} FramingIsInjective(a: seq<string>, b: seq<string>)
    requires Framed(a) == Framed(b)
    ensures a == b
  {
    if a == [] || b == [] {
      FrameNotEmpty(a);
      FrameNotEmpty(b);
    } else {
      FirstFrame(a[0], b[0], Framed(a[1..]), Framed(b[1..]));
      FramingIsInjective(a[1..], b[1..]);
      Rebuilt(a);
      Rebuilt(b);
    }
  }

  lemma Rebuilt(a: seq<string>)
    requires a != []
    ensures a == [a[0]] + a[1..]
  {
  }

  lemma FrameNotEmpty(files: seq<string>)
    ensures Framed(files) == "" ==> files == []
  {
    if files != [] {
      assert |Framed(files)| >= |Frame(files[0])| > 0;
    }
  }

  lemma FirstFrame(a: string, b: string, x: string, y: string)
    requires Frame(a) + x == Frame(b) + y
    ensures a == b && x == y
  {
    NoColon(|a|);
    NoColon(|b|);
    Reframe(a, x);
    Reframe(b, y);
    UntilColon(Digits(|a|), Digits(|b|), a + x, b + y);
    DigitsInjective(|a|, |b|);
    SplitAt(a, b, x, y);
  }

  lemma Reframe(a: string, x: string)
    ensures Frame(a) + x == Digits(|a|) + ":" + (a + x)
  {
  }

  // ---------------------------------------------------------------------
  // Sealing
  // ---------------------------------------------------------------------

  const PREFIX := "// kata-generated-" + "sha256: "

  function Digest(hash: Hash, body: string, companions: seq<string>): string {
    hash(Framed([body] + companions))
  }

  /** sealNativeAgentHookCode. */
  function Seal(hash: Hash, body: string, companions: seq<string>): string {
    body + Tail(hash, body, companions)
  }

  function Tail(hash: Hash, body: string, companions: seq<string>): string {
    PREFIX + Digest(hash, body, companions) + "\n"
  }

  predicate OccursAt(s: string, t: string, i: nat) {
    i + |t| <= |s| && s[i..i + |t|] == t
  }

  /** bytes.LastIndex: the last occurrence that starts before `n`. */
  method LastIndex(s: string, t: string) returns (i: int)
    ensures -1 <= i <= |s|
    ensures i >= 0 ==> OccursAt(s, t, i)
    ensures forall j :: i < j <= |s| ==> !OccursAt(s, t, j)
  {
    i := |s|;
    while i >= 0 && !OccursAt(s, t, i)
      invariant -1 <= i <= |s|
      invariant forall j :: i < j <= |s| ==> !OccursAt(s, t, j)
    {
      i := i - 1;
    }
  }

  /** `x` is the seal of some text of whole lines with these companions. */
  ghost predicate IsSeal(hash: Hash, x: string, companions: seq<string>) {
    exists body :: EndsLine(body) && x == Seal(hash, body, companions)
  }

  predicate EndsLine(body: string) {
    body != "" && body[|body| - 1] == '\n'
  }

  /** nativeAgentHookCodeUnedited accepts exactly the seals. */
  method NativeAgentHookCodeUnedited(hash: Hash, code: string, companions: seq<string>) returns (unedited: bool)
    requires OneLine(hash)
    ensures unedited <==> IsSeal(hash, code, companions)
  {
    var marker := LastIndex(code, "\n" + PREFIX);
    if marker < 0 {
      if IsSeal(hash, code, companions) {
        var body :| EndsLine(body) && code == Seal(hash, body, companions);
        SealIsMarked(hash, body, companions);
      }
      return false;
    }
    var body := code[..marker + 1];
    var digest := NativeAgentHookDigest(hash, [body] + companions);
    unedited := code[marker + 1..] == PREFIX + digest + "\n";
    LastMarker(hash, code, companions, marker);
  }

  /** A seal is marked where its body ends, and nowhere after. */
  lemma SealIsMarked(hash: Hash, body: string, companions: seq<string>)
    requires OneLine(hash) && EndsLine(body)
    ensures OccursAt(Seal(hash, body, companions), "\n" + PREFIX, |body| - 1)
    ensures forall j :: |body| <= j <= |Seal(hash, body, companions)| ==>
      !OccursAt(Seal(hash, body, companions), "\n" + PREFIX, j)
  {
    var x := Seal(hash, body, companions);
    var digest := Digest(hash, body, companions);
    MarkedAtEnd(body, digest);
    forall j | |body| <= j <= |x| ensures !OccursAt(x, "\n" + PREFIX, j) {
      NotMarkedLater(body, digest, j);
    }
  }

  lemma MarkedAtEnd(body: string, digest: string)
    requires EndsLine(body)
    ensures OccursAt(body + (PREFIX + digest + "\n"), "\n" + PREFIX, |body| - 1)
  {
    var x, p := body + (PREFIX + digest + "\n"), PREFIX;
    assert x[|body| - 1..|body| + |p|] == "\n" + p;
  }

  lemma PrefixIsOneLine()
    ensures '\n' !in PREFIX && |PREFIX| == 26
  {
  }

  lemma NotMarkedLater(body: string, digest: string, j: nat)
    requires '\n' !in digest && |body| <= j
    ensures !OccursAt(body + (PREFIX + digest + "\n"), "\n" + PREFIX, j)
  {
    PrefixIsOneLine();
    NoLineInside(body, PREFIX, digest, j);
  }

  lemma NoLineInside(body: string, p: string, digest: string, j: nat)
    requires '\n' !in p && '\n' !in digest && |p| > 0 && |body| <= j
    ensures !OccursAt(body + (p + digest + "\n"), "\n" + p, j)
  {
    var x := body + (p + digest + "\n");
    if j + 1 + |p| <= |x| {
      assert x[j] == (p + digest)[j - |body|];
      assert (p + digest)[j - |body|] in p + digest;
      assert x[j..j + 1 + |p|][0] == x[j];
      assert ("\n" + p)[0] == '\n';
    }
  }

  lemma LastMarker(hash: Hash, code: string, companions: seq<string>, marker: nat)
    requires OneLine(hash) && marker <= |code| && OccursAt(code, "\n" + PREFIX, marker)
    requires forall j :: marker < j <= |code| ==> !OccursAt(code, "\n" + PREFIX, j)
    ensures marker < |code| &&
      (code[marker + 1..] == Tail(hash, code[..marker + 1], companions) <==> IsSeal(hash, code, companions))
  {
    MarkerStartsLine(code, PREFIX, marker);
    if IsSeal(hash, code, companions) {
      var body :| EndsLine(body) && code == Seal(hash, body, companions);
      SealIsMarked(hash, body, companions);
      assert marker == |body| - 1;
      assert code[..|body|] == body && code[|body|..] == Tail(hash, body, companions);
    }
    if code[marker + 1..] == Tail(hash, code[..marker + 1], companions) {
      assert code == Seal(hash, code[..marker + 1], companions);
    }
  }

  lemma MarkerStartsLine(code: string, p: string, marker: nat)
    requires OccursAt(code, "\n" + p, marker)
    ensures marker < |code| && EndsLine(code[..marker + 1])
  {
    assert code[marker..marker + |"\n" + p|][0] == ("\n" + p)[0];
  }

  /** Sealed code whose body differs from the sealed one is only accepted
      when the hash cannot tell the two bundles apart. */
  lemma EditsAreNoticed(hash: Hash, body: string, edited: string, companions: seq<string>, others: seq<string>)
    requires OneLine(hash) && EndsLine(edited)
    requires IsSeal(hash, edited + Tail(hash, body, companions), others)
    requires (edited, others) != (body, companions)
    ensures Framed([edited] + others) != Framed([body] + companions)
    ensures hash(Framed([edited] + others)) == hash(Framed([body] + companions))
  {
    var x := edited + Tail(hash, body, companions);
    var found :| EndsLine(found) && x == Seal(hash, found, others);
    SealIsMarked(hash, found, others);
    MarkedAtEnd(edited, Digest(hash, body, companions));
    TailIsMarkedOnce(edited, Digest(hash, body, companions));
    assert |found| == |edited|;
    SplitAt(found, edited, Tail(hash, found, others), Tail(hash, body, companions));
    SameDigest(Digest(hash, edited, others), Digest(hash, body, companions));
    BundlesDiffer(edited, others, body, companions);
    if Framed([edited] + others) == Framed([body] + companions) {
      FramingIsInjective([edited] + others, [body] + companions);
    }
  }

  lemma BundlesDiffer(a: string, x: seq<string>, b: string, y: seq<string>)
    ensures [a] + x == [b] + y ==> a == b && x == y
  {
    assert ([a] + x)[0] == a && ([b] + y)[0] == b;
    assert ([a] + x)[1..] == x && ([b] + y)[1..] == y;
  }

  lemma TailIsMarkedOnce(body: string, digest: string)
    requires '\n' !in digest
    ensures forall j :: |body| <= j ==> !OccursAt(body + (PREFIX + digest + "\n"), "\n" + PREFIX, j)
  {
    forall j | |body| <= j ensures !OccursAt(body + (PREFIX + digest + "\n"), "\n" + PREFIX, j) {
      NotMarkedLater(body, digest, j);
    }
  }

  lemma SameDigest(a: string, b: string)
    requires PREFIX + a + "\n" == PREFIX + b + "\n"
    ensures a == b
  {
    SameMiddle(PREFIX, a, b);
  }

  lemma SameMiddle(p: string, a: string, b: string)
    requires p + a + "\n" == p + b + "\n"
    ensures a == b
  {
    assert (p + a + "\n")[|p|..|p| + |a|] == a && (p + b + "\n")[|p|..|p| + |b|] == b;
  }
}
