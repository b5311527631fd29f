/** The line diff shown when a save of a cron definition conflicts (cmd/kata/cron_edit_document.go, cronLineDiff). */
module LineDiff {
  import opened Decimal

  // A `string` stands for a byte string: one char is one byte.

  // ---------------------------------------------------------------------
  // Edit scripts and longest common subsequences
  // ---------------------------------------------------------------------

  datatype Edit<T> = Keep(line: T) | Del(line: T) | Ins(line: T)

  /** The lines a script consumes. */
  function Source<T(==)>(script: seq<Edit<T>>): seq<T> {
    if script == [] then []
    else if script[0].Ins? then Source(script[1..])
    else [script[0].line] + Source(script[1..])
  }

  /** The lines a script produces. */
  function Target<T(==)>(script: seq<Edit<T>>): seq<T> {
    if script == [] then []
    else if script[0].Del? then Target(script[1..])
    else [script[0].line] + Target(script[1..])
  }

  /** The "-" and "+" steps of a script, in order. */
  function Changes<T(==)>(script: seq<Edit<T>>): seq<Edit<T>> {
    if script == [] then []
    else if script[0].Keep? then Changes(script[1..])
    else [script[0]] + Changes(script[1..])
  }

  function Max(x: int, y: int): int {
    if x < y then y else x
  }

  ghost function Lcs<T>(a: seq<T>, b: seq<T>): nat
    decreases |a| + |b|
  {
    if a == [] || b == [] then 0
    else if a[0] == b[0] then 1 + Lcs(a[1..], b[1..])
    else Max(Lcs(a[1..], b), Lcs(a, b[1..]))
  }

  /** One more leading line on either side changes the LCS by at most one. */
  lemma {:induction false} LcsStep<T>(x: T, a: seq<T>, b: seq<T>)
    ensures Lcs(a, b) <= Lcs([x] + a, b) <= Lcs(a, b) + 1
    ensures Lcs(b, a) <= Lcs(b, [x] + a) <= Lcs(b, a) + 1
    decreases |a| + |b|
  {
    assert ([x] + a)[1..] == a;
    if b != [] {
      assert b == [b[0]] + b[1..];
      LcsStep(x, a, b[1..]);
      LcsStep(b[0], b[1..], a);
    }
  }

  /** No script keeps more lines than the LCS of the two texts it relates. */
  lemma {:induction false} ScriptBound<T>(script: seq<Edit<T>>)
    ensures |Changes(script)| >= |Source(script)| + |Target(script)| - 2 * Lcs(Source(script), Target(script))
  {
    if script != [] {
      var rest := script[1..];
      ScriptBound(rest);
      var s, t := Source(rest), Target(rest);
      match script[0]
      case Keep(x) => assert ([x] + s)[1..] == s && ([x] + t)[1..] == t;
      case Del(x) => LcsStep(x, s, t);
      case Ins(x) => LcsStep(x, t, s);
    }
  }

  /** A common trailing line adds one to the LCS: what trimming relies on. */
  lemma {:induction false} LcsSuffix<T>(a: seq<T>, b: seq<T>, x: T)
    ensures Lcs(a + [x], b + [x]) == 1 + Lcs(a, b)
    decreases |a| + |b|
  {
    if a != [] {
      assert (a + [x])[1..] == a[1..] + [x];
      LcsSuffix(a[1..], b, x);
    } else {
      assert ([] + [x])[1..] == [];
    }
    if b != [] {
      assert (b + [x])[1..] == b[1..] + [x];
      LcsSuffix(a, b[1..], x);
    } else {
      assert ([] + [x])[1..] == [];
    }
    if a != [] && b != [] {
      LcsSuffix(a[1..], b[1..], x);
    }
  }

  // ---------------------------------------------------------------------
  // What cronLineDiff computes
  // ---------------------------------------------------------------------

  /** How many leading lines agree, given that the first `n` do. */
  function CommonPrefix<T(==)>(a: seq<T>, b: seq<T>, n: nat): (p: nat)
    requires n <= |a| && n <= |b|
    ensures n <= p <= |a| && p <= |b|
    ensures forall k :: n <= k < p ==> a[k] == b[k]
    ensures p < |a| && p < |b| ==> a[p] != b[p]
    decreases |a| - n
  {
    if n < |a| && n < |b| && a[n] == b[n] then CommonPrefix(a, b, n + 1) else n
  }

  /** How many lines agree just before positions `i` and `j`. */
  function CommonTail<T(==)>(a: seq<T>, b: seq<T>, i: nat, j: nat): (s: nat)
    requires i <= |a| && j <= |b|
    ensures s <= i && s <= j
    ensures forall k :: i - s <= k < i ==> a[k] == b[k - i + j]
    ensures s < i && s < j ==> a[i - s - 1] != b[j - s - 1]
    decreases i
  {
    if i > 0 && j > 0 && a[i - 1] == b[j - 1] then 1 + CommonTail(a, b, i - 1, j - 1) else 0
  }

  const CELL_BUDGET: nat := 250_000
  const SHOWN_LIMIT: nat := 79

  /** The test that chooses the linear fallback; it divides, so that no
      product is formed before the table is known to be small. */
  predicate OverBudget(n: nat, m: nat) {
    n + 1 > CELL_BUDGET / (m + 1)
  }

  lemma TableWithinBudget(n: nat, m: nat)
    ensures !OverBudget(n, m) <==> (n + 1) * (m + 1) <= CELL_BUDGET
  {
    var q, w := CELL_BUDGET / (m + 1), m + 1;
    assert q * w <= CELL_BUDGET < (q + 1) * w;
    if n + 1 <= q {
      MulMono(n + 1, q, w);
    } else {
      MulMono(q + 1, n + 1, w);
    }
  }

  lemma MulMono(x: nat, y: nat, w: nat)
    requires x <= y
    ensures x * w <= y * w
  {
  }

  /** The LCS of the two texts from lines `i` and `j` on: what the table
      cell `(i, j)` is for. */
  ghost function RestLcs<T>(a: seq<T>, b: seq<T>, i: nat, j: nat): nat
    decreases |a| - i + |b| - j, i
  {
    if i >= |a| || j >= |b| then 0
    else if a[i] == b[j] then 1 + RestLcs(a, b, i + 1, j + 1)
    else Max(RestLcs(a, b, i + 1, j), RestLcs(a, b, i, j + 1))
  }

  /** The greedy walk over a filled table, from cell `(i, j)`. */
  ghost function Walk<T>(a: seq<T>, b: seq<T>, i: nat, j: nat): seq<Edit<T>>
    requires i <= |a| && j <= |b|
    decreases |a| - i + |b| - j
  {
    if i == |a| && j == |b| then []
    else if i < |a| && j < |b| && a[i] == b[j] then [Keep(a[i])] + Walk(a, b, i + 1, j + 1)
    else if i < |a| && (j == |b| || RestLcs(a, b, i + 1, j) >= RestLcs(a, b, i, j + 1)) then
      [Del(a[i])] + Walk(a, b, i + 1, j)
    else [Ins(b[j])] + Walk(a, b, i, j + 1)
  }

  function Kept<T>(lines: seq<T>): seq<Edit<T>> {
    if lines == [] then [] else [Keep(lines[0])] + Kept(lines[1..])
  }

  function Removed<T>(lines: seq<T>): (r: seq<Edit<T>>)
    ensures |r| == |lines| && forall i :: 0 <= i < |r| ==> r[i] == Del(lines[i])
  {
    if lines == [] then [] else [Del(lines[0])] + Removed(lines[1..])
  }

  function Added<T>(lines: seq<T>): (r: seq<Edit<T>>)
    ensures |r| == |lines| && forall i :: 0 <= i < |r| ==> r[i] == Ins(lines[i])
  {
    if lines == [] then [] else [Ins(lines[0])] + Added(lines[1..])
  }

  /** Both texts cut into common head, rest and common tail. */
  datatype Cut<T> = Cut(head: seq<T>, left: seq<T>, right: seq<T>, tail: seq<T>)

  function CutTail<T(==)>(head: seq<T>, a: seq<T>, b: seq<T>): Cut<T> {
    var s := CommonTail(a, b, |a|, |b|);
    Cut(head, a[..|a| - s], b[..|b| - s], a[|a| - s..])
  }

  function Trim<T(==)>(a: seq<T>, b: seq<T>): Cut<T> {
    var p := CommonPrefix(a, b, 0);
    CutTail(a[..p], a[p..], b[p..])
  }

  lemma SharedHead<T>(a: seq<T>, b: seq<T>, p: nat)
    requires p <= |a| && p <= |b|
    requires forall k :: 0 <= k < p ==> a[k] == b[k]
    ensures a == a[..p] + a[p..]
    ensures b == a[..p] + b[p..]
  {
  }

  lemma TrimParts<T>(a: seq<T>, b: seq<T>)
    ensures a == Trim(a, b).head + (Trim(a, b).left + Trim(a, b).tail)
    ensures b == Trim(a, b).head + (Trim(a, b).right + Trim(a, b).tail)
  {
    var p := CommonPrefix(a, b, 0);
    SharedHead(a, b, p);
    CutParts(a[..p], a[p..], b[p..]);
  }

  lemma CutParts<T>(head: seq<T>, a: seq<T>, b: seq<T>)
    ensures var c := CutTail(head, a, b); c.head == head && a == c.left + c.tail && b == c.right + c.tail
  {
    SharedTail(a, b, CommonTail(a, b, |a|, |b|));
  }

  lemma SharedTail<T>(a: seq<T>, b: seq<T>, s: nat)
    requires s <= |a| && s <= |b|
    requires forall k :: |a| - s <= k < |a| ==> a[k] == b[k - |a| + |b|]
    ensures a == a[..|a| - s] + a[|a| - s..]
    ensures b == b[..|b| - s] + a[|a| - s..]
  {
    assert forall k :: |b| - s <= k < |b| ==> b[k] == a[k - |b| + |a|];
  }

  /** The script of the whole diff: trimmed ends kept, the middle either
      walked or, above the budget, removed and re-added. */
  ghost function DiffScript<T>(a: seq<T>, b: seq<T>): seq<Edit<T>> {
    var c := Trim(a, b);
    Kept(c.head) + (Middle(c.left, c.right) + Kept(c.tail))
  }

  ghost function Middle<T>(a: seq<T>, b: seq<T>): seq<Edit<T>> {
    if OverBudget(|a|, |b|) then Removed(a) + Added(b) else Walk(a, b, 0, 0)
  }

  // ---------------------------------------------------------------------
  // Display
  // ---------------------------------------------------------------------

  function Continuation(s: string, i: nat): bool {
    i < |s| && 0x80 as char <= s[i] <= 0xBF as char
  }

  /** Length of the well-formed UTF-8 sequence at the start of `s`, else 0. */
  function RuneLength(s: string): (n: nat)
    ensures n <= |s|
  {
    if s == [] then 0
    else
      var c := s[0] as int;
      if c < 0x80 then 1
      else if 0xC2 <= c <= 0xDF then (if Continuation(s, 1) then 2 else 0)
      else if 0xE0 <= c <= 0xEF then
        if Continuation(s, 1) && Continuation(s, 2)
           && (c == 0xE0 ==> s[1] as int >= 0xA0) && (c == 0xED ==> s[1] as int <= 0x9F) then 3 else 0
      else if 0xF0 <= c <= 0xF4 then
        if Continuation(s, 1) && Continuation(s, 2) && Continuation(s, 3)
           && (c == 0xF0 ==> s[1] as int >= 0x90) && (c == 0xF4 ==> s[1] as int <= 0x8F) then 4 else 0
      else 0
  }

  /** Drops every byte that is not part of a well-formed UTF-8 sequence. */
  function ToValid(s: string): (r: string)
    ensures |r| <= |s|
    ensures forall c :: c in r ==> c in s
  {
    if s == [] then []
    else
      var n := RuneLength(s);
      if n == 0 then ToValid(s[1..]) else s[..n] + ToValid(s[n..])
  }

  const LINE_LIMIT: nat := 384

  function ShortLine(line: string): (r: string)
    ensures |r| <= LINE_LIMIT
    ensures |line| <= LINE_LIMIT ==> r == line
    ensures forall c :: c in r ==> c in line || c == '.'
  {
    if |line| > LINE_LIMIT then ToValid(line[..LINE_LIMIT - 3]) + "..." else line
  }

  function Prefixed(e: Edit<string>): string {
    match e
    case Keep(x) => "  " + x
    case Del(x) => "- " + x
    case Ins(x) => "+ " + x
  }

  function Rendered(edits: seq<Edit<string>>): (r: seq<string>)
    ensures |r| == |edits| && forall i :: 0 <= i < |r| ==> r[i] == ShortLine(Prefixed(edits[i]))
  {
    seq(|edits|, i requires 0 <= i < |edits| => ShortLine(Prefixed(edits[i])))
  }

  function OmissionNote(omitted: nat): string {
    "... " + Digits(omitted) + " more lines; see kata cron <kind> show"
  }

  /** The lines shown for a list of changes. */
  function Display(changes: seq<Edit<string>>): seq<string> {
    if |changes| <= SHOWN_LIMIT then Rendered(changes)
    else Rendered(changes[..SHOWN_LIMIT]) + [OmissionNote(|changes| - SHOWN_LIMIT)]
  }

  // ---------------------------------------------------------------------
  // The diff loop
  // ---------------------------------------------------------------------

  /** cronLineDiff: trim both ends, then fill a flat LCS table backwards and
      walk it, or fall back to a removal/addition listing. */
  method CronLineDiff(first: seq<string>, second: seq<string>) returns (lines: seq<string>)
    ensures lines == Display(Changes(DiffScript(first, second)))
  {
    var a, b := TrimEnds(first, second);
    ChangesOfDiff(first, second);
    var count := 0;
    if OverBudget(|a|, |b|) {
      ChangesOfListing(a, b);
      lines, count := ListAll(a, b);
    } else {
      lines, count := FillAndWalk(a, b);
    }
    lines := Summarize(Changes(Middle(a, b)), lines, count);
  }

  /** The two trimming loops. */
  method TrimEnds<T(==)>(first: seq<T>, second: seq<T>) returns (a: seq<T>, b: seq<T>)
    ensures a == Trim(first, second).left && b == Trim(first, second).right
  {
    a, b := first, second;
    ghost var n := 0;
    while |a| > 0 && |b| > 0 && a[0] == b[0]
      invariant n <= |first| && n <= |second| && a == first[n..] && b == second[n..]
      invariant CommonPrefix(first, second, 0) == CommonPrefix(first, second, n)
      decreases |a|
    {
      a, b, n := a[1..], b[1..], n + 1;
    }
    a, b := TrimTails(a, b);
  }

  method TrimTails<T(==)>(first: seq<T>, second: seq<T>) returns (a: seq<T>, b: seq<T>)
    ensures a == CutTail([], first, second).left && b == CutTail([], first, second).right
  {
    a, b := first, second;
    ghost var i, j := |first|, |second|;
    while |a| > 0 && |b| > 0 && a[|a| - 1] == b[|b| - 1]
      invariant 0 <= i <= |first| && a == first[..i]
      invariant 0 <= j <= |second| && b == second[..j]
      invariant |first| - i == |second| - j
      invariant CommonTail(first, second, |first|, |second|) == |first| - i + CommonTail(first, second, i, j)
      decreases i
    {
      DropLast(first, i);
      DropLast(second, j);
      a, b, i, j := a[..|a| - 1], b[..|b| - 1], i - 1, j - 1;
    }
    if i > 0 && j > 0 {
      DropLast(first, i);
      DropLast(second, j);
    }
  }

  lemma DropLast<T>(s: seq<T>, i: nat)
    requires 0 < i <= |s|
    ensures s[..i][..i - 1] == s[..i - 1] && s[..i][i - 1] == s[i - 1]
  {
  }

  function First(changes: seq<Edit<string>>): seq<Edit<string>> {
    if |changes| <= SHOWN_LIMIT then changes else changes[..SHOWN_LIMIT]
  }

  /** What the `add` closure has accumulated after the given changes. */
  ghost predicate Accumulated(changes: seq<Edit<string>>, lines: seq<string>, count: nat) {
    count == |changes| && lines == Rendered(First(changes))
  }

  /** The `add` closure: count every change, keep the first 79. */
  method Add(e: Edit<string>, lines: seq<string>, count: nat, ghost changes: seq<Edit<string>>)
    returns (lines': seq<string>, count': nat)
    requires Accumulated(changes, lines, count)
    ensures Accumulated(changes + [e], lines', count')
  {
    lines', count' := lines, count + 1;
    if |lines| < SHOWN_LIMIT {
      lines' := lines + [ShortLine(Prefixed(e))];
    } else {
      assert (changes + [e])[..SHOWN_LIMIT] == changes[..SHOWN_LIMIT];
    }
  }

  /** The closing line that counts what was not shown. */
  method Summarize(ghost changes: seq<Edit<string>>, lines: seq<string>, count: nat) returns (r: seq<string>)
    requires Accumulated(changes, lines, count)
    ensures r == Display(changes)
  {
    r := lines;
    if count > |lines| {
      var omitted := count - |lines|;
      assert omitted == |changes| - SHOWN_LIMIT;
      r := r + [OmissionNote(omitted)];
    }
  }

  /** The linear fallback. */
  method ListAll(a: seq<string>, b: seq<string>) returns (lines: seq<string>, count: nat)
    ensures Accumulated(Removed(a) + Added(b), lines, count)
  {
    lines, count := ListRemoved(a);
    lines, count := ListAdded(b, lines, count, Removed(a));
  }

  method ListRemoved(a: seq<string>) returns (lines: seq<string>, count: nat)
    ensures Accumulated(Removed(a), lines, count)
  {
    lines, count := [], 0;
    ghost var done: seq<Edit<string>> := [];
    for i := 0 to |a|
      invariant Accumulated(done, lines, count)
      invariant |done| == i && forall k :: 0 <= k < i ==> done[k] == Del(a[k])
    {
      lines, count := Add(Del(a[i]), lines, count, done);
      done := done + [Del(a[i])];
    }
    assert done == Removed(a);
  }

  method ListAdded(b: seq<string>, lines0: seq<string>, count0: nat, ghost before: seq<Edit<string>>)
    returns (lines: seq<string>, count: nat)
    requires Accumulated(before, lines0, count0)
    ensures Accumulated(before + Added(b), lines, count)
  {
    hide Accumulated;
    lines, count := lines0, count0;
    ghost var added: seq<Edit<string>> := [];
    assert before + [] == before;
    for j := 0 to |b|
      invariant Accumulated(before + added, lines, count)
      invariant |added| == j && forall k :: 0 <= k < j ==> added[k] == Ins(b[k])
    {
      lines, count := Add(Ins(b[j]), lines, count, before + added);
      assert before + added + [Ins(b[j])] == before + (added + [Ins(b[j])]);
      added := added + [Ins(b[j])];
    }
    assert added == Added(b);
  }

  /** Cell `(i, j)` of the flat table, counted row by row. */
  function At(i: nat, j: nat, width: nat): nat {
    if i == 0 then j else width + At(i - 1, j, width)
  }

  /** The index the code computes. */
  lemma {:induction false} AtIsProduct(i: nat, j: nat, width: nat)
    ensures At(i, j, width) == i * width + j
  {
    if i > 0 {
      AtIsProduct(i - 1, j, width);
      assert i * width == (i - 1) * width + width;
    }
  }

  lemma {:induction false} AtDistinct(i: nat, j: nat, i': nat, j': nat, width: nat)
    requires j < width && j' < width
    ensures At(i, j, width) == At(i', j', width) <==> i == i' && j == j'
  {
    if i > 0 && i' > 0 {
      AtDistinct(i - 1, j, i' - 1, j', width);
    }
  }

  lemma {:induction false} AtInside(i: nat, j: nat, n: nat, width: nat)
    requires i < n && j < width
    ensures At(i, j, width) < At(n, 0, width)
  {
    if i > 0 {
      AtInside(i - 1, j, n - 1, width);
    }
  }

  ghost predicate TableSized(t: seq<int>, a: seq<string>, b: seq<string>) {
    |t| == At(|a| + 1, 0, |b| + 1)
  }

  /** Row `i`, column `j` of the table, 0 outside. */
  ghost function Cell(t: seq<int>, i: nat, j: nat, width: nat): int {
    if At(i, j, width) < |t| then t[At(i, j, width)] else 0
  }

  /** The last column, the rows after `i`, and row `i` from column `j` on
      hold the LCS of the two remaining texts. */
  ghost predicate Filled(t: seq<int>, a: seq<string>, b: seq<string>, i: nat, j: nat) {
    forall r: nat, c: nat | r <= |a| && c <= |b| && (r > i || (r == i && c >= j) || c == |b|) ::
      Cell(t, r, c, |b| + 1) == RestLcs(a, b, r, c)
  }

  lemma FilledAtStart(t: seq<int>, a: seq<string>, b: seq<string>)
    requires forall k :: 0 <= k < |t| ==> t[k] == 0
    ensures Filled(t, a, b, |a|, 0)
  {
    forall r: nat, c: nat | r <= |a| && c <= |b| && (r >= |a| || c == |b|)
      ensures Cell(t, r, c, |b| + 1) == RestLcs(a, b, r, c)
    {
      assert RestLcs(a, b, r, c) == 0;
    }
  }

  method FillAndWalk(a: seq<string>, b: seq<string>) returns (lines: seq<string>, count: nat)
    requires !OverBudget(|a|, |b|)
    ensures Accumulated(Changes(Walk(a, b, 0, 0)), lines, count)
  {
    var width := |b| + 1;
    TableWithinBudget(|a|, |b|);
    assert (|a| + 1) * width <= CELL_BUDGET;
    AtIsProduct(|a| + 1, 0, width);
    var cells := new int[(|a| + 1) * width](_ => 0);
    FillTable(cells, a, b);
    lines, count := WalkTable(cells, a, b);
  }

  method FillTable(cells: array<int>, a: seq<string>, b: seq<string>)
    requires TableSized(cells[..], a, b)
    requires forall k :: 0 <= k < cells.Length ==> cells[k] == 0
    modifies cells
    ensures Filled(cells[..], a, b, 0, 0)
  {
    FilledAtStart(cells[..], a, b);
    for i := |a| downto 0
      invariant Filled(cells[..], a, b, i, 0)
    {
      FillRow(cells, a, b, i);
    }
  }

  method FillRow(cells: array<int>, a: seq<string>, b: seq<string>, i: nat)
    requires i < |a| && TableSized(cells[..], a, b)
    requires Filled(cells[..], a, b, i + 1, 0)
    modifies cells
    ensures Filled(cells[..], a, b, i, 0)
  {
    for j := |b| downto 0
      invariant Filled(cells[..], a, b, i, j)
    {
      FillCell(cells, a, b, i, j);
    }
  }

  method FillCell(cells: array<int>, a: seq<string>, b: seq<string>, i: nat, j: nat)
    requires i < |a| && j < |b| && TableSized(cells[..], a, b)
    requires Filled(cells[..], a, b, i, j + 1)
    modifies cells
    ensures Filled(cells[..], a, b, i, j)
  {
    var width := |b| + 1;
    ghost var t := cells[..];
    Neighbours(t, a, b, i, j);
    if a[i] == b[j] {
      cells[At(i, j, width)] := 1 + cells[At(i + 1, j + 1, width)];
    } else {
      cells[At(i, j, width)] := Max(cells[At(i + 1, j, width)], cells[At(i, j + 1, width)]);
    }
    FilledOne(t, cells[..], a, b, i, j);
  }

  lemma Neighbours(t: seq<int>, a: seq<string>, b: seq<string>, i: nat, j: nat)
    requires i < |a| && j < |b| && TableSized(t, a, b)
    requires Filled(t, a, b, i, j + 1)
    ensures At(i, j, |b| + 1) < |t|
    ensures At(i + 1, j + 1, |b| + 1) < |t| && t[At(i + 1, j + 1, |b| + 1)] == RestLcs(a, b, i + 1, j + 1)
    ensures At(i + 1, j, |b| + 1) < |t| && t[At(i + 1, j, |b| + 1)] == RestLcs(a, b, i + 1, j)
    ensures At(i, j + 1, |b| + 1) < |t| && t[At(i, j + 1, |b| + 1)] == RestLcs(a, b, i, j + 1)
  {
    AtInside(i, j, |a| + 1, |b| + 1);
    KnownCell(t, a, b, i, j + 1, i + 1, j + 1);
    KnownCell(t, a, b, i, j + 1, i + 1, j);
    KnownCell(t, a, b, i, j + 1, i, j + 1);
  }

  lemma KnownCell(t: seq<int>, a: seq<string>, b: seq<string>, i: nat, j: nat, r: nat, c: nat)
    requires TableSized(t, a, b) && Filled(t, a, b, i, j)
    requires r <= |a| && c <= |b| && (r > i || (r == i && c >= j))
    ensures At(r, c, |b| + 1) < |t| && t[At(r, c, |b| + 1)] == RestLcs(a, b, r, c)
  {
    AtInside(r, c, |a| + 1, |b| + 1);
    assert Cell(t, r, c, |b| + 1) == RestLcs(a, b, r, c);
  }

  lemma FilledOne(t: seq<int>, t': seq<int>, a: seq<string>, b: seq<string>, i: nat, j: nat)
    requires i < |a| && j < |b| && At(i, j, |b| + 1) < |t|
    requires Filled(t, a, b, i, j + 1)
    requires t' == t[At(i, j, |b| + 1) := RestLcs(a, b, i, j)]
    ensures Filled(t', a, b, i, j)
  {
    var w := |b| + 1;
    forall r: nat, c: nat | r <= |a| && c <= |b| && (r > i || (r == i && c >= j) || c == |b|)
      ensures Cell(t', r, c, w) == RestLcs(a, b, r, c)
    {
      AtDistinct(r, c, i, j, w);
      if !(r == i && c == j) {
        assert Cell(t, r, c, w) == RestLcs(a, b, r, c);
      }
    }
  }

  method WalkTable(cells: array<int>, a: seq<string>, b: seq<string>) returns (lines: seq<string>, count: nat)
    requires TableSized(cells[..], a, b)
    requires Filled(cells[..], a, b, 0, 0)
    ensures Accumulated(Changes(Walk(a, b, 0, 0)), lines, count)
  {
    hide Changes, RestLcs, Filled, TableSized, Accumulated;
    ghost var done: seq<Edit<string>> := [];
    var i, j := 0, 0;
    lines, count := [], 0;
    NothingDone(a, b);
    while i < |a| || j < |b|
      invariant i <= |a| && j <= |b|
      invariant Accumulated(done, lines, count)
      invariant done + Changes(Walk(a, b, i, j)) == Changes(Walk(a, b, 0, 0))
      decreases |a| - i + |b| - j
    {
      WalkChanges(a, b, i, j);
      if i < |a| && j < |b| && a[i] == b[j] {
        i, j := i + 1, j + 1;
      } else if i < |a| && (j == |b| || Below(cells, a, b, i, j)) {
        lines, count := Add(Del(a[i]), lines, count, done);
        Push(done, Del(a[i]), Changes(Walk(a, b, i + 1, j)));
        done, i := done + [Del(a[i])], i + 1;
      } else {
        lines, count := Add(Ins(b[j]), lines, count, done);
        Push(done, Ins(b[j]), Changes(Walk(a, b, i, j + 1)));
        done, j := done + [Ins(b[j])], j + 1;
      }
    }
    WalkDone(done, a, b);
  }

  lemma NothingDone(a: seq<string>, b: seq<string>)
    ensures Accumulated([], [], 0) && [] + Changes(Walk(a, b, 0, 0)) == Changes(Walk(a, b, 0, 0))
  {
  }

  lemma WalkDone(done: seq<Edit<string>>, a: seq<string>, b: seq<string>)
    ensures done + Changes(Walk(a, b, |a|, |b|)) == done
  {
  }

  lemma Push<T>(s: seq<T>, x: T, rest: seq<T>)
    ensures s + ([x] + rest) == s + [x] + rest
  {
  }

  lemma WalkChanges<T>(a: seq<T>, b: seq<T>, i: nat, j: nat)
    requires i <= |a| && j <= |b| && (i < |a| || j < |b|)
    ensures Changes(Walk(a, b, i, j)) ==
            if i < |a| && j < |b| && a[i] == b[j] then Changes(Walk(a, b, i + 1, j + 1))
            else if i < |a| && (j == |b| || RestLcs(a, b, i + 1, j) >= RestLcs(a, b, i, j + 1)) then
              [Del(a[i])] + Changes(Walk(a, b, i + 1, j))
            else [Ins(b[j])] + Changes(Walk(a, b, i, j + 1))
  {
  }

  /** Is the cell below at least the cell to the right? */
  predicate Below(cells: array<int>, a: seq<string>, b: seq<string>, i: nat, j: nat)
    reads cells
    requires i < |a| && j < |b| && TableSized(cells[..], a, b)
    requires Filled(cells[..], a, b, 0, 0)
    ensures Below(cells, a, b, i, j) <==> RestLcs(a, b, i + 1, j) >= RestLcs(a, b, i, j + 1)
  {
    Neighbours(cells[..], a, b, i, j);
    cells[At(i + 1, j, |b| + 1)] >= cells[At(i, j + 1, |b| + 1)]
  }

  // ---------------------------------------------------------------------
  // Properties of the script
  // ---------------------------------------------------------------------

  lemma {:induction false} SourceConcat<T>(x: seq<Edit<T>>, y: seq<Edit<T>>)
    ensures Source(x + y) == Source(x) + Source(y)
  {
    if x == [] {
      assert x + y == y;
    } else {
      assert (x + y)[1..] == x[1..] + y;
      SourceConcat(x[1..], y);
    }
  }

  lemma {:induction false} TargetConcat<T>(x: seq<Edit<T>>, y: seq<Edit<T>>)
    ensures Target(x + y) == Target(x) + Target(y)
  {
    if x == [] {
      assert x + y == y;
    } else {
      assert (x + y)[1..] == x[1..] + y;
      TargetConcat(x[1..], y);
    }
  }

  lemma {:induction false} ChangesConcat<T>(x: seq<Edit<T>>, y: seq<Edit<T>>)
    ensures Changes(x + y) == Changes(x) + Changes(y)
  {
    if x == [] {
      assert x + y == y;
    } else {
      assert (x + y)[1..] == x[1..] + y;
      ChangesConcat(x[1..], y);
    }
  }

  lemma {:induction false} KeptAll<T>(lines: seq<T>)
    ensures Source(Kept(lines)) == lines && Target(Kept(lines)) == lines && Changes(Kept(lines)) == []
  {
    if lines != [] {
      KeptAll(lines[1..]);
      assert Kept(lines)[1..] == Kept(lines[1..]);
    }
  }

  lemma {:induction false} RemovedAll<T>(lines: seq<T>)
    ensures Source(Removed(lines)) == lines && Target(Removed(lines)) == [] && Changes(Removed(lines)) == Removed(lines)
  {
    if lines != [] {
      RemovedAll(lines[1..]);
      assert Removed(lines)[1..] == Removed(lines[1..]);
    }
  }

  lemma {:induction false} AddedAll<T>(lines: seq<T>)
    ensures Source(Added(lines)) == [] && Target(Added(lines)) == lines && Changes(Added(lines)) == Added(lines)
  {
    if lines != [] {
      AddedAll(lines[1..]);
      assert Added(lines)[1..] == Added(lines[1..]);
    }
  }

  /** Wrapping a script in kept lines. */
  lemma Framed<T>(head: seq<T>, middle: seq<Edit<T>>, tail: seq<T>)
    ensures Source(Kept(head) + (middle + Kept(tail))) == head + (Source(middle) + tail)
    ensures Target(Kept(head) + (middle + Kept(tail))) == head + (Target(middle) + tail)
  {
    SourceConcat(Kept(head), middle + Kept(tail));
    SourceConcat(middle, Kept(tail));
    TargetConcat(Kept(head), middle + Kept(tail));
    TargetConcat(middle, Kept(tail));
    KeptAll(head);
    KeptAll(tail);
  }

  lemma ChangesOfDiff<T>(a: seq<T>, b: seq<T>)
    ensures Changes(DiffScript(a, b)) == Changes(Middle(Trim(a, b).left, Trim(a, b).right))
  {
    var c := Trim(a, b);
    var middle := Middle(c.left, c.right);
    ChangesConcat(Kept(c.head), middle + Kept(c.tail));
    ChangesConcat(middle, Kept(c.tail));
    KeptAll(c.head);
    KeptAll(c.tail);
    assert [] + (Changes(middle) + []) == Changes(middle);
  }

  lemma ChangesOfListing<T>(a: seq<T>, b: seq<T>)
    ensures Changes(Removed(a) + Added(b)) == Removed(a) + Added(b)
  {
    ChangesConcat(Removed(a), Added(b));
    RemovedAll(a);
    AddedAll(b);
  }

  lemma ListingRelates<T>(a: seq<T>, b: seq<T>)
    ensures Source(Removed(a) + Added(b)) == a && Target(Removed(a) + Added(b)) == b
  {
    SourceConcat(Removed(a), Added(b));
    TargetConcat(Removed(a), Added(b));
    RemovedAll(a);
    AddedAll(b);
  }

  lemma {:induction false} RestLcsIsLcs<T>(a: seq<T>, b: seq<T>, i: nat, j: nat)
    requires i <= |a| && j <= |b|
    ensures RestLcs(a, b, i, j) == Lcs(a[i..], b[j..])
    decreases |a| - i + |b| - j
  {
    if i < |a| && j < |b| {
      assert a[i..][1..] == a[i + 1..] && b[j..][1..] == b[j + 1..];
      RestLcsIsLcs(a, b, i + 1, j + 1);
      RestLcsIsLcs(a, b, i + 1, j);
      RestLcsIsLcs(a, b, i, j + 1);
    }
  }

  lemma {:induction false} WalkSource<T>(a: seq<T>, b: seq<T>, i: nat, j: nat)
    requires i <= |a| && j <= |b|
    ensures Source(Walk(a, b, i, j)) == a[i..]
    decreases |a| - i + |b| - j
  {
    if i == |a| && j == |b| {
    } else if i < |a| && j < |b| && a[i] == b[j] {
      WalkSource(a, b, i + 1, j + 1);
      assert a[i..] == [a[i]] + a[i + 1..];
    } else if i < |a| && (j == |b| || RestLcs(a, b, i + 1, j) >= RestLcs(a, b, i, j + 1)) {
      WalkSource(a, b, i + 1, j);
      assert a[i..] == [a[i]] + a[i + 1..];
    } else {
      WalkSource(a, b, i, j + 1);
    }
  }

  lemma {:induction false} WalkTarget<T>(a: seq<T>, b: seq<T>, i: nat, j: nat)
    requires i <= |a| && j <= |b|
    ensures Target(Walk(a, b, i, j)) == b[j..]
    decreases |a| - i + |b| - j
  {
    if i == |a| && j == |b| {
    } else if i < |a| && j < |b| && a[i] == b[j] {
      WalkTarget(a, b, i + 1, j + 1);
      assert b[j..] == [b[j]] + b[j + 1..];
    } else if i < |a| && (j == |b| || RestLcs(a, b, i + 1, j) >= RestLcs(a, b, i, j + 1)) {
      WalkTarget(a, b, i + 1, j);
    } else {
      WalkTarget(a, b, i, j + 1);
      assert b[j..] == [b[j]] + b[j + 1..];
    }
  }

  /** The changes of a walk after its first move. */
  lemma StartsWalk<T>(a: seq<T>, b: seq<T>, i: nat, j: nat)
    requires i <= |a| && j <= |b|
    ensures Walk(a, b, i, j) == [] ==> |Changes(Walk(a, b, i, j))| == 0
    ensures Walk(a, b, i, j) != [] ==>
      var w := Walk(a, b, i, j); |Changes(w)| == |Changes(w[1..])| + if w[0].Keep? then 0 else 1
  {
  }

  lemma {:induction false} WalkCount<T>(a: seq<T>, b: seq<T>, i: nat, j: nat)
    requires i <= |a| && j <= |b|
    ensures |Changes(Walk(a, b, i, j))| == |a| - i + |b| - j - 2 * RestLcs(a, b, i, j)
    decreases |a| - i + |b| - j
  {
    hide Changes;
    StartsWalk(a, b, i, j);
    if i == |a| && j == |b| {
    } else if i < |a| && j < |b| && a[i] == b[j] {
      WalkCount(a, b, i + 1, j + 1);
    } else if i < |a| && (j == |b| || RestLcs(a, b, i + 1, j) >= RestLcs(a, b, i, j + 1)) {
      WalkCount(a, b, i + 1, j);
    } else {
      WalkCount(a, b, i, j + 1);
    }
  }

  /** The script turns the first text into the second, in both branches: its
      "-" lines with the kept ones spell `a`, its "+" lines with the same kept
      ones spell `b`. */
  lemma {:induction false} ScriptRelates<T>(a: seq<T>, b: seq<T>)
    ensures Source(DiffScript(a, b)) == a && Target(DiffScript(a, b)) == b
  {
    var c := Trim(a, b);
    TrimParts(a, b);
    Framed(c.head, Middle(c.left, c.right), c.tail);
    ListingRelates(c.left, c.right);
    WalkSource(c.left, c.right, 0, 0);
    WalkTarget(c.left, c.right, 0, 0);
  }

  lemma {:induction false} LcsPrefix<T>(p: seq<T>, a: seq<T>, b: seq<T>)
    ensures Lcs(p + a, p + b) == |p| + Lcs(a, b)
  {
    if p == [] {
      assert p + a == a && p + b == b;
    } else {
      LcsPrefix(p[1..], a, b);
      assert (p + a)[1..] == p[1..] + a && (p + b)[1..] == p[1..] + b;
    }
  }

  lemma {:induction false} LcsSuffixes<T>(a: seq<T>, b: seq<T>, s: seq<T>)
    ensures Lcs(a + s, b + s) == |s| + Lcs(a, b)
  {
    if s == [] {
      assert a + s == a && b + s == b;
    } else {
      var n := |s| - 1;
      LcsSuffixes(a, b, s[..n]);
      LcsSuffix(a + s[..n], b + s[..n], s[n]);
      assert a + s == a + s[..n] + [s[n]] && b + s == b + s[..n] + [s[n]];
    }
  }

  /** Trimming loses nothing: the LCS of the whole texts is the trimmed ends
      plus the LCS of the middles. */
  lemma TrimKeepsLcs<T>(a: seq<T>, b: seq<T>)
    ensures var c := Trim(a, b);
            Lcs(a, b) == |c.head| + Lcs(c.left, c.right) + |c.tail|
  {
    var c := Trim(a, b);
    TrimParts(a, b);
    LcsPrefix(c.head, c.left + c.tail, c.right + c.tail);
    LcsSuffixes(c.left, c.right, c.tail);
  }

  /** In the table branch the number of "-" and "+" lines is
      |a| + |b| - 2 LCS(a, b) for the untrimmed texts, and no script that turns
      `a` into `b` has fewer. */
  lemma {:induction false} DiffIsMinimal<T>(a: seq<T>, b: seq<T>)
    requires !OverBudget(|Trim(a, b).left|, |Trim(a, b).right|)
    ensures |Changes(DiffScript(a, b))| == |a| + |b| - 2 * Lcs(a, b)
    ensures forall script: seq<Edit<T>> | Source(script) == a && Target(script) == b ::
              |Changes(DiffScript(a, b))| <= |Changes(script)|
  {
    ChangesOfDiff(a, b);
    TrimParts(a, b);
    var c := Trim(a, b);
    WalkCount(c.left, c.right, 0, 0);
    RestLcsIsLcs(c.left, c.right, 0, 0);
    assert c.left[0..] == c.left && c.right[0..] == c.right;
    TrimKeepsLcs(a, b);
    forall script: seq<Edit<T>> | Source(script) == a && Target(script) == b
      ensures |Changes(DiffScript(a, b))| <= |Changes(script)|
    {
      ScriptBound(script);
    }
  }

  /** Equal texts show nothing, and only equal texts do. */
  lemma {:induction false} EmptyExactlyWhenEqual(a: seq<string>, b: seq<string>)
    ensures Display(Changes(DiffScript(a, b))) == [] <==> a == b
  {
    ScriptRelates(a, b);
    UnchangedKeeps(DiffScript(a, b));
    ChangesOfDiff(a, b);
    if a == b {
      EqualTrims(a);
    }
  }

  lemma EqualTrims<T>(a: seq<T>)
    ensures Trim(a, a).left == [] && Trim(a, a).right == []
  {
    assert CommonPrefix(a, a, 0) == |a|;
  }

  lemma {:induction false} UnchangedKeeps<T>(script: seq<Edit<T>>)
    ensures Changes(script) == [] ==> Source(script) == Target(script)
  {
    if script != [] {
      UnchangedKeeps(script[1..]);
    }
  }

  /** At most 80 lines of at most 384 bytes are shown, and when lines are left
      out the last one counts exactly the changes not shown; it would take more
      than 10 to the power of 340 changes to make it longer. */
  lemma DisplayIsBounded(changes: seq<Edit<string>>)
    ensures |Display(changes)| <= 80
    ensures forall i :: 0 <= i < |Display(changes)| && i < SHOWN_LIMIT ==>
              |Display(changes)[i]| <= LINE_LIMIT && Display(changes)[i] == ShortLine(Prefixed(changes[i]))
    ensures |changes| <= SHOWN_LIMIT ==> |Display(changes)| == |changes|
    ensures |changes| > SHOWN_LIMIT ==>
              |Display(changes)| == 80 && Display(changes)[79] == OmissionNote(|changes| - 79)
    ensures |changes| < PowerOfTen(340) ==> forall i :: 0 <= i < |Display(changes)| ==>
      |Display(changes)[i]| <= LINE_LIMIT
  {
    if SHOWN_LIMIT < |changes| < PowerOfTen(340) {
      NoteIsShort(|changes| - SHOWN_LIMIT);
    }
  }

  lemma NoteIsShort(omitted: nat)
    requires omitted < PowerOfTen(340)
    ensures |OmissionNote(omitted)| <= LINE_LIMIT
  {
    DigitsFit(omitted, 340);
    assert |"... "| == 4 && |" more lines; see kata cron <kind> show"| == 38;
  }

  // ---------------------------------------------------------------------
  // What the shown lines say
  // ---------------------------------------------------------------------

  /** The shown lines that begin with `sign` and a space, without them. */
  function Marked(lines: seq<string>, sign: char): seq<string> {
    if lines == [] then []
    else if |lines[0]| >= 2 && lines[0][0] == sign && lines[0][1] == ' ' then
      [lines[0][2..]] + Marked(lines[1..], sign)
    else Marked(lines[1..], sign)
  }

  /** `t` consists of the lines of `x` and of `y`, each in order. */
  predicate Interleaved(t: seq<string>, x: seq<string>, y: seq<string>)
    decreases |t|
  {
    if t == [] then x == [] && y == []
    else
      || (x != [] && x[0] == t[0] && Interleaved(t[1..], x[1..], y))
      || (y != [] && y[0] == t[0] && Interleaved(t[1..], x, y[1..]))
  }

  datatype Kind = Shared | Gone | New

  function KindOf(e: Edit<string>): Kind {
    match e
    case Keep(_) => Shared
    case Del(_) => Gone
    case Ins(_) => New
  }

  /** The lines of one kind of steps. */
  function LinesOf(script: seq<Edit<string>>, kind: Kind): seq<string> {
    if script == [] then []
    else if KindOf(script[0]) == kind then [script[0].line] + LinesOf(script[1..], kind)
    else LinesOf(script[1..], kind)
  }

  lemma OneLine(x: string, rest: seq<string>)
    ensures ([x] + rest)[0] == x && ([x] + rest)[1..] == rest && [] + rest == rest
  {
  }

  lemma {:induction false} ScriptInterleaves(script: seq<Edit<string>>)
    ensures Interleaved(Source(script), LinesOf(script, Gone), LinesOf(script, Shared))
    ensures Interleaved(Target(script), LinesOf(script, New), LinesOf(script, Shared))
  {
    if script != [] {
      var rest, x := script[1..], script[0].line;
      ScriptInterleaves(rest);
      OneLine(x, Source(rest));
      OneLine(x, Target(rest));
      OneLine(x, LinesOf(rest, Gone));
      OneLine(x, LinesOf(rest, New));
      OneLine(x, LinesOf(rest, Shared));
    }
  }

  lemma PrefixIsSign(e: Edit<string>)
    requires !e.Keep? && |e.line| + 2 <= LINE_LIMIT
    ensures var r := ShortLine(Prefixed(e));
      |r| >= 2 && r[0] == (if e.Del? then '-' else '+') && r[1] == ' ' && r[2..] == e.line
  {
  }

  lemma RenderedOne(e: Edit<string>, rest: seq<Edit<string>>)
    ensures Rendered([e] + rest) == [ShortLine(Prefixed(e))] + Rendered(rest)
  {
  }

  lemma {:induction false} RenderedTells(script: seq<Edit<string>>)
    requires forall e :: e in script ==> |e.line| + 2 <= LINE_LIMIT
    ensures Marked(Rendered(Changes(script)), '-') == LinesOf(script, Gone)
    ensures Marked(Rendered(Changes(script)), '+') == LinesOf(script, New)
  {
    hide ShortLine, Prefixed;
    if script != [] {
      var e, rest := script[0], script[1..];
      assert forall o :: o in rest ==> o in script;
      RenderedTells(rest);
      OneLine(e.line, LinesOf(rest, Gone));
      if !e.Keep? {
        assert e in script;
        PrefixIsSign(e);
        RenderedOne(e, Changes(rest));
        OneLine(ShortLine(Prefixed(e)), Rendered(Changes(rest)));
      }
    }
  }

  lemma {:induction false} LinesAreOfTexts(script: seq<Edit<string>>, e: Edit<string>)
    requires e in script
    ensures e.line in Source(script) || e.line in Target(script)
  {
    if e != script[0] {
      LinesAreOfTexts(script[1..], e);
    }
  }

  /** When nothing is cut off or shortened, the shown lines that begin with
      "- " are, without it, what the first text has besides the lines both
      texts share, in order, and those with "+ " what the second has. */
  lemma DisplayTells(a: seq<string>, b: seq<string>) returns (shared: seq<string>)
    requires |Changes(DiffScript(a, b))| <= SHOWN_LIMIT
    requires forall x :: x in a || x in b ==> |x| + 2 <= LINE_LIMIT
    ensures var shown := Display(Changes(DiffScript(a, b)));
      Interleaved(a, Marked(shown, '-'), shared) && Interleaved(b, Marked(shown, '+'), shared)
  {
    hide DiffScript, Interleaved;
    var script := DiffScript(a, b);
    ScriptRelates(a, b);
    forall e | e in script ensures |e.line| + 2 <= LINE_LIMIT {
      LinesAreOfTexts(script, e);
    }
    RenderedTells(script);
    ScriptInterleaves(script);
    shared := LinesOf(script, Shared);
  }
}
