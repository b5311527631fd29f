/** Reading a log once and then following it while others append to it (cmd/kata/daemon_logs.go). */
module LogFollower {
  import opened Options

  // ---------------------------------------------------------------------
  // Lines
  // ---------------------------------------------------------------------

  /** The lines consumed so far, latest last, each with its line end. */
  datatype Lines = Empty | More(before: Lines, line: string)

  function Text(lines: Lines): string {
    match lines
    case Empty => ""
    case More(before, line) => Text(before) + line
  }

  /** Exactly one newline, at the end. */
  predicate Complete(line: string) {
    line != "" && line[|line| - 1] == '\n' && forall i :: 0 <= i < |line| - 1 ==> line[i] != '\n'
  }

  predicate AllComplete(lines: Lines) {
    lines.More? ==> Complete(lines.line) && AllComplete(lines.before)
  }

  predicate Ended(text: string) {
    text == "" || text[|text| - 1] == '\n'
  }

  /** The start of the last line of the first `n` bytes. */
  function LastStart(text: string, n: nat): (i: nat)
    requires n <= |text|
    ensures i <= n && (i == 0 || text[i - 1] == '\n') && forall j :: i <= j < n ==> text[j] != '\n'
  {
    if n == 0 || text[n - 1] == '\n' then n else LastStart(text, n - 1)
  }

  /** The lines of a text of whole lines. */
  function LinesOf(text: string): Lines
    requires Ended(text)
    decreases |text|
  {
    if text == "" then Empty
    else
      var i := LastStart(text, |text| - 1);
      assert text[..i] == "" || text[..i][i - 1] == text[i - 1];
      More(LinesOf(text[..i]), text[i..])
  }

  /** A text has one division into complete lines. */
  lemma {:induction false} OnlyDivision(lines: Lines)
    requires AllComplete(lines)
    ensures Ended(Text(lines)) && lines == LinesOf(Text(lines))
    decreases lines
  {
    if lines.More? {
      OnlyDivision(lines.before);
      LinesOfTwo(Text(lines.before), lines.line);
    }
  }

  lemma LinesOfTwo(a: string, line: string)
    requires Ended(a) && Complete(line)
    ensures Ended(a + line) && LinesOf(a + line) == More(LinesOf(a), line)
  {
    LastOfTwo(a, line);
    assert (a + line)[..|a|] == a && (a + line)[|a|..] == line;
  }

  lemma LastOfTwo(a: string, line: string)
    requires Ended(a) && Complete(line)
    ensures LastStart(a + line, |a + line| - 1) == |a|
  {
    var t := a + line;
    assert forall j :: |a| <= j < |t| - 1 ==> t[j] == line[j - |a|];
    assert a != "" ==> t[|a| - 1] == '\n';
  }

  /** Every newline of `text` is before `offset`. */
  predicate NoneAfter(text: string, offset: nat) {
    forall i :: offset <= i < |text| ==> text[i] != '\n'
  }

  // ---------------------------------------------------------------------
  // The log and its readers
  // ---------------------------------------------------------------------

  /** What stat reports. */
  datatype Info = Info(file: nat, size: nat)

  /** activeMark. */
  datatype Mark = Unset | Set(info: Info)

  /** rotationDetected. */
  predicate RotationDetected(prev: Option<Info>, current: Info, prevSize: nat) {
    prev.None? || current.size < prevSize || prev.value.file != current.file
  }

  /** runs.jsonl, appended to by others between any two steps of ours. */
  class ActiveLog {
    var present: bool
    var bytes: string
    const file: nat
    /** Everything the one-shot pass and the follower have consumed. */
    var consumed: Lines

    constructor (file: nat, bytes: string, present: bool)
      requires !present ==> bytes == ""
      ensures this.bytes == bytes && this.present == present && consumed == Empty
    {
      this.file, this.bytes, this.present, this.consumed := file, bytes, present, Empty;
    }

    /** The log is only ever created and appended to. */
    twostate predicate Grown()
      reads this
    {
      && (old(present) ==> present)
      && |old(bytes)| <= |bytes| && bytes[..|old(bytes)|] == old(bytes)
    }

    method Others()
      modifies this`present, this`bytes
      ensures Grown() && (present || bytes == old(bytes))
    {
      var writes: bool := *;
      if writes {
        var more: string := *;
        present := true;
        bytes := bytes + more;
      }
    }

    /** The end of the line that begins at `from`, with its newline, or the
        end of the first `n` bytes. */
    function LineEnd(from: nat, n: nat): (end: nat)
      requires from < n <= |bytes|
      reads this`bytes
      decreases n - from
      ensures from < end <= n && (bytes[end - 1] == '\n' || end == n)
      ensures forall i :: from <= i < end - 1 ==> bytes[i] != '\n'
    {
      if bytes[from] == '\n' || from + 1 == n then from + 1 else LineEnd(from + 1, n)
    }

    /** Whether the log was ever written. */
    predicate Sound()
      reads this
    {
      !present ==> bytes == ""
    }

    /** readMatchesFromFile on the active log: the size is taken once, and
        the scan stops there whatever is appended meanwhile. */
    method ReadOnce() returns (mark: Mark)
      requires consumed == Empty && Sound()
      modifies this
      ensures Grown() && Sound()
      ensures mark.Unset? ==> !present && consumed == Empty && bytes == old(bytes)
      ensures mark.Set? ==> mark.info.file == file && mark.info.size <= |bytes| && |old(bytes)| <= mark.info.size
      ensures mark.Set? ==> Text(consumed) == bytes[..mark.info.size]
      ensures mark.Set? ==> (AllComplete(consumed) <==> Ended(bytes[..mark.info.size]))
    {
      hide Ended, Complete;
      if !present {
        return Unset;
      }
      Others();
      var size := |bytes|;
      ghost var snapshot := bytes;
      var at := 0;
      NothingEnded(snapshot);
      while at < size
        invariant at <= size == |snapshot| <= |bytes| && bytes[..size] == snapshot && present
        invariant Grown() && Sound()
        invariant Text(consumed) == snapshot[..at]
        invariant AllComplete(consumed) <==> Ended(snapshot[..at])
        invariant at < size ==> Ended(snapshot[..at])
      {
        Others();
        var end := LineEnd(at, size);
        var line := bytes[at..end];
        LineOfSnapshot(snapshot, bytes, at, end);
        consumed := More(consumed, line);
        at := end;
      }
      assert snapshot[..size] == snapshot;
      return Set(Info(file, size));
    }

    /** ReadBytes: the next complete line, if there is one. */
    method ReadBytes(at: nat) returns (line: string, complete: bool)
      requires at <= |bytes|
      ensures complete ==> Complete(line) && at + |line| <= |bytes| && bytes[..at + |line|] == bytes[..at] + line
      ensures !complete ==> NoneAfter(bytes, at)
    {
      if at == |bytes| {
        return "", false;
      }
      var end := LineEnd(at, |bytes|);
      return bytes[at..end], bytes[end - 1] == '\n';
    }

    /** emitNewLines: read to the end of the file, counting only bytes of
        complete lines. `turns` is how often others get to append meanwhile. */
    method EmitNewLines(from: nat, turns: nat) returns (read: nat)
      requires from <= |bytes| && Text(consumed) == bytes[..from] && Sound()
      modifies this
      ensures Grown() && Sound()
      ensures from + read <= |bytes| && Text(consumed) == bytes[..from + read]
      ensures AllComplete(consumed) == old(AllComplete(consumed))
      ensures NoneAfter(old(bytes), from + read)
    {
      read := 0;
      var left := turns;
      while true
        invariant from + read <= |bytes| && Text(consumed) == bytes[..from + read] && Sound()
        invariant AllComplete(consumed) == old(AllComplete(consumed))
        invariant Grown()
        decreases left, |bytes| - (from + read)
      {
        if left > 0 {
          ghost var before := bytes;
          Others();
          Regrown(before, bytes, from + read);
          left := left - 1;
        }
        var line, complete := ReadBytes(from + read);
        if !complete {
          return;
        }
        consumed := More(consumed, line);
        read := read + |line|;
      }
    }
  }

  lemma LineOfSnapshot(snapshot: string, bytes: string, at: nat, end: nat)
    requires at < end <= |snapshot| <= |bytes| && bytes[..|snapshot|] == snapshot
    requires (forall i :: at <= i < end - 1 ==> bytes[i] != '\n') && (bytes[end - 1] == '\n' || end == |snapshot|)
    ensures snapshot[..at] + bytes[at..end] == snapshot[..end]
    ensures Complete(bytes[at..end]) <==> Ended(snapshot[..end])
    ensures end < |snapshot| ==> Ended(snapshot[..end])
  {
    Within(bytes, |snapshot|, at, end);
    Within(bytes, |snapshot|, 0, end);
  }

  lemma NothingEnded(text: string)
    ensures text[..0] == "" && Ended(text[..0])
  {
  }

  lemma Within(bytes: string, n: nat, at: nat, end: nat)
    requires at <= end <= n <= |bytes|
    ensures bytes[..n][at..end] == bytes[at..end]
  {
  }

  /** followState over the log it follows. */
  class Follower {
    const log: ActiveLog
    var prevSize: nat
    var prevInfo: Option<Info>
    /** The log as it stood at the start of each poll. */
    ghost var polled: seq<string>

    /** Every byte before the offset has been consumed, and once. */
    ghost predicate InStep()
      reads this, log
    {
      prevSize <= |log.bytes| && Text(log.consumed) == log.bytes[..prevSize]
    }

    /** The last poll saw this very file. */
    ghost predicate Watching()
      reads this, log
    {
      log.Sound() && (prevSize > 0 ==> prevInfo.Some? && prevInfo.value.file == log.file)
    }

    /** The start of followActive. */
    constructor (log: ActiveLog, mark: Mark)
      requires mark.Set? ==> mark.info.file == log.file && mark.info.size <= |log.bytes|
      ensures this.log == log
      ensures prevSize == if log.present && mark.Set? then mark.info.size else 0
      ensures prevInfo == if log.present then Some(Info(log.file, |log.bytes|)) else None
      ensures polled == []
    {
      this.log := log;
      prevSize, prevInfo, polled := 0, None, [];
      if log.present {
        prevInfo := Some(Info(log.file, |log.bytes|));
        if mark.Set? && mark.info.file == log.file && |log.bytes| >= mark.info.size {
          prevSize := mark.info.size;
        }
      }
    }

    /** tailTick, with appends before it, inside it and after its stat. The
        offset never goes back, and every newline there was is passed. */
    method Tick(turns: nat)
      requires InStep() && Watching()
      modifies this, log
      ensures InStep() && Watching() && log.Grown()
      ensures AllComplete(log.consumed) == old(AllComplete(log.consumed))
      ensures prevSize >= old(prevSize)
      ensures NoneAfter(old(log.bytes), prevSize)
      ensures polled == old(polled) + [old(log.bytes)]
    {
      polled := polled + [log.bytes];
      log.Others();
      Regrown(old(log.bytes), log.bytes, prevSize);
      if !log.present {
        return;
      }
      var info := Info(log.file, |log.bytes|);
      if RotationDetected(prevInfo, info, prevSize) {
        prevSize := 0;
      }
      prevInfo := Some(info);
      ghost var seen := log.bytes;
      log.Others();
      Regrown(seen, log.bytes, prevSize);
      if info.size == prevSize {
        return;
      }
      var read := log.EmitNewLines(prevSize, turns);
      prevSize := prevSize + read;
    }
  }

  lemma Regrown(before: string, after: string, n: nat)
    requires n <= |before| <= |after| && after[..|before|] == before
    ensures after[..n] == before[..n]
  {
    assert after[..n] == after[..|before|][..n];
  }

  /** Tailing from the beginning: the one-shot pass, then any number of
      polls. Every byte up to the offset is consumed once and in order; what
      is consumed are the complete lines up to there, the offset being on a
      line boundary, exactly when the snapshot ended on a newline; and every
      line that was complete when the last poll began is among them. */
  method Tail(log: ActiveLog, polls: seq<nat>)
    returns (offset: nat, ghost snapshot: string, ghost polled: seq<string>)
    requires log.consumed == Empty && log.Sound()
    modifies log
    ensures log.Grown() && old(log.bytes) <= snapshot <= log.bytes
    ensures |snapshot| <= offset <= |log.bytes| && Text(log.consumed) == log.bytes[..offset]
    ensures Ended(snapshot) ==> Ended(log.bytes[..offset]) && log.consumed == LinesOf(log.bytes[..offset])
    ensures !Ended(snapshot) ==> !AllComplete(log.consumed)
    ensures |polled| == |polls| && forall i :: 0 <= i < |polls| ==> snapshot <= polled[i] <= log.bytes
    ensures polls != [] ==> NoneAfter(polled[|polls| - 1], offset)
  {
    hide NoneAfter, LinesOf, Complete;
    var mark := log.ReadOnce();
    snapshot := if mark.Set? then log.bytes[..mark.info.size] else log.bytes;
    label Read:
    log.Others();
    if mark.Set? {
      Regrown(old@Read(log.bytes), log.bytes, mark.info.size);
    }
    var follower := new Follower(log, mark);
    for i := 0 to |polls|
      invariant follower.log == log && fresh(follower)
      invariant follower.InStep() && follower.Watching() && log.Grown()
      invariant AllComplete(log.consumed) <==> Ended(snapshot)
      invariant snapshot <= log.bytes && |snapshot| <= follower.prevSize
      invariant |follower.polled| == i && forall j :: 0 <= j < i ==> snapshot <= follower.polled[j] <= log.bytes
      invariant i > 0 ==> NoneAfter(follower.polled[i - 1], follower.prevSize)
    {
      follower.Tick(polls[i]);
    }
    if Ended(snapshot) {
      OnlyDivision(log.consumed);
    }
    return follower.prevSize, snapshot, follower.polled;
  }
}
