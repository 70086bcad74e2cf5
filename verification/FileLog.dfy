/**
 The size-capped log files of src-tauri/src/file_log.rs and their flush watermark.

 The service is an object; what the file system answers is an input (`Faults`) of each write.
 A byte is a `char`. The two main parts are the cap (what a file holds after any sequence of
 lines) and the watermark (what is on disk when `flush` returns).
 */
module FileLog {
  import opened Wrappers

  type Bytes = string

  const MARKER: Bytes := "\n[LOG] Earlier entries were removed because the file size limit was reached.\n"

  function Min(a: nat, b: nat): nat {
    if a <= b then a else b
  }

  function Monus(a: nat, b: nat): nat {
    if a <= b then 0 else a - b
  }

  // ---------------------------------------------------------------------------
  // One file
  // ---------------------------------------------------------------------------

  /** A path: what is on disk, and the size the consumer believes it has. */
  datatype Log = Log(file: Option<Bytes>, size: Option<nat>)

  /** One attempt to append; a failed one may have left the first `left` bytes behind. */
  datatype Attempt = OpenFails | WriteFails(left: nat) | ShutdownFails(left: nat) | Done

  /** Replacing a whole file; a failed write may leave it untouched or cut short. */
  datatype Overwrite = Replaced | Untouched | Cut(left: nat)

  datatype Faults = Faults(metadata: bool, tail: bool, attempts: nat -> Attempt, overwrite: Overwrite)

  function Content(file: Option<Bytes>): Bytes {
    if file.Some? then file.value else []
  }

  function Tail(s: Bytes, n: nat): Bytes {
    if |s| <= n then s else s[|s| - n..]
  }

  function Overwritten(file: Option<Bytes>, bytes: Bytes, o: Overwrite): Option<Bytes> {
    match o
    case Replaced => Some(bytes)
    case Untouched => file
    case Cut(left) => Some(bytes[..Min(left, |bytes|)])
  }

  /** The bytes of the old file that a rotation for a line of `n` bytes keeps. */
  function Keep(cap: nat, n: nat): nat {
    Monus(Monus(cap / 2, |MARKER|), n)
  }

  function Rotated(cap: nat, file: Bytes, data: Bytes): Bytes {
    Tail(Tail(file, Keep(cap, |data|)) + MARKER + data, cap)
  }

  /** The append loop from attempt `k` on. */
  function Tried(log: Log, size: nat, data: Bytes, attempts: nat -> Attempt, k: nat): Log
    requires k <= 3
    decreases 3 - k
  {
    match attempts(k)
    case Done => Log(Some(Content(log.file) + data), Some(size + |data|))
    case OpenFails => if k < 3 then Tried(log, size, data, attempts, k + 1) else log
    case WriteFails(left) => TriedAfterLoss(log, size, data, attempts, k, left)
    case ShutdownFails(left) => TriedAfterLoss(log, size, data, attempts, k, left)
  }

  function TriedAfterLoss(log: Log, size: nat, data: Bytes, attempts: nat -> Attempt, k: nat, left: nat): Log
    requires k <= 3
    decreases 3 - k, 0
  {
    var file := Some(Content(log.file) + data[..Min(left, |data|)]);
    if k < 3 then Tried(Log(file, Some(0)), size, data, attempts, k + 1) else Log(file, log.size)
  }

  function BelievedSize(log: Log, f: Faults): nat {
    if log.size.Some? then log.size.value else if f.metadata then 0 else |Content(log.file)|
  }

  /** Whether the line is added at the end of the file. */
  predicate IsAppended(cap: nat, log: Log, data: Bytes, f: Faults) {
    data != [] && |data| < cap && BelievedSize(log, f) + |data| <= cap
  }

  function Appended(cap: nat, log: Log, data: Bytes, f: Faults): Log {
    if data == [] then log
    else if |data| >= cap then Log(Overwritten(log.file, data[|data| - cap..], f.overwrite), Some(cap))
    else
      var size := BelievedSize(log, f);
      if size + |data| <= cap then
        Tried(Log(log.file, Some(size)), size, data, f.attempts, 0)
      else
        var r := Rotated(cap, if f.tail then [] else Content(log.file), data);
        Log(Overwritten(log.file, r, f.overwrite), Some(|r|))
  }

  // ---------------------------------------------------------------------------
  // The cap
  // ---------------------------------------------------------------------------

  /** What one line does to the contents of a file when the file system does not fail. */
  function Grown(cap: nat, file: Bytes, data: Bytes): Bytes {
    if data == [] then file
    else if |data| >= cap then Tail(data, cap)
    else if |file| + |data| <= cap then file + data
    else Rotated(cap, file, data)
  }

  predicate Smooth(f: Faults) {
    !f.metadata && !f.tail && f.attempts(0) == Done && f.overwrite == Replaced
  }

  /** The cached size is unknown or right. */
  predicate Exact(log: Log) {
    log.size.Some? ==> log.size.value == |Content(log.file)|
  }

  predicate EndsWith(file: Bytes, s: Bytes) {
    |s| <= |file| && file[|file| - |s|..] == s
  }

  /** Without failures the cached size stays right, and the contents are those of `Grown`. */
  lemma AppendIsExact(cap: nat, log: Log, data: Bytes, f: Faults)
    requires Exact(log) && Smooth(f)
    ensures Exact(Appended(cap, log, data, f))
    ensures Content(Appended(cap, log, data, f).file) == Grown(cap, Content(log.file), data)
    ensures data != [] ==> Appended(cap, log, data, f).size == Some(|Grown(cap, Content(log.file), data)|)
  {
    if |data| >= cap {
      assert data[|data| - cap..] == Tail(data, cap);
    }
  }

  /** After a line the file is within the cap and ends with that line, or with its last `cap` bytes. */
  lemma CapHolds(cap: nat, file: Bytes, data: Bytes)
    requires data != []
    ensures |Grown(cap, file, data)| <= cap
    ensures EndsWith(Grown(cap, file, data), Tail(data, cap))
  {
    if |data| < cap && |file| + |data| > cap {
      var whole := Tail(file, Keep(cap, |data|)) + MARKER + data;
      assert EndsWith(whole, data);
      TailEndsWith(whole, data, cap);
    }
  }

  lemma TailEndsWith(whole: Bytes, s: Bytes, n: nat)
    requires EndsWith(whole, s) && |s| <= n
    ensures EndsWith(Tail(whole, n), s)
  {
    if n < |whole| {
      assert whole[|whole| - n..][n - |s|..] == whole[|whole| - |s|..];
    }
  }

  /** If the marker and the line fit, a rotated file is old tail, marker and line, and at most half full. */
  lemma RotationIsExact(cap: nat, file: Bytes, data: Bytes)
    requires data != [] && |data| + |MARKER| <= cap / 2 && |file| + |data| > cap
    ensures Grown(cap, file, data) == Tail(file, cap / 2 - |MARKER| - |data|) + MARKER + data
    ensures |Grown(cap, file, data)| <= cap / 2
  {
  }

  /** The bytes that failed attempts from `k` on leave behind, of a line of `n` bytes. */
  function Lost(attempts: nat -> Attempt, n: nat, k: nat): nat
    requires k <= 3
    decreases 3 - k
  {
    match attempts(k)
    case Done => 0
    case OpenFails => if k < 3 then Lost(attempts, n, k + 1) else 0
    case WriteFails(left) => Min(left, n) + if k < 3 then Lost(attempts, n, k + 1) else 0
    case ShutdownFails(left) => Min(left, n) + if k < 3 then Lost(attempts, n, k + 1) else 0
  }

  /** All four attempts fail, and one of the first three got past the open. */
  predicate GivesUpAfterReset(attempts: nat -> Attempt) {
    && (forall k | 0 <= k <= 3 :: attempts(k) != Done)
    && exists k | 0 <= k < 3 :: !attempts(k).OpenFails?
  }

  /** Whether the file is rotated for the line. */
  predicate IsRotated(cap: nat, log: Log, data: Bytes, f: Faults) {
    data != [] && |data| < cap && BelievedSize(log, f) + |data| > cap
  }

  /** The file is within the cap and not larger than the consumer believes. */
  predicate Safe(cap: nat, log: Log) {
    && |Content(log.file)| <= cap
    && (log.size.Some? ==> |Content(log.file)| <= log.size.value)
  }

  lemma {:induction false} TriedEffect(log: Log, size: nat, data: Bytes, attempts: nat -> Attempt, k: nat)
    requires k <= 3
    ensures
      var after := Tried(log, size, data, attempts, k);
      var lost := Lost(attempts, |data|, k);
      if exists i | k <= i <= 3 :: attempts(i) == Done then
        |Content(after.file)| == |Content(log.file)| + lost + |data| && after.size == Some(size + |data|)
      else
        && |Content(after.file)| == |Content(log.file)| + lost
        && after.size == if exists i | k <= i < 3 :: !attempts(i).OpenFails? then Some(0) else log.size
    decreases 3 - k
  {
    if attempts(k) != Done && k < 3 {
      if attempts(k).OpenFails? {
        TriedEffect(log, size, data, attempts, k + 1);
      } else {
        var left := data[..Min(attempts(k).left, |data|)];
        TriedEffect(Log(Some(Content(log.file) + left), Some(0)), size, data, attempts, k + 1);
      }
    }
  }

  /** What the file system must do so that the consumer's belief stays an upper bound. */
  predicate KeepsBound(cap: nat, log: Log, data: Bytes, f: Faults) {
    if IsAppended(cap, log, data, f) then
      |Content(log.file)| + Lost(f.attempts, |data|, 0) <=
        if GivesUpAfterReset(f.attempts) then 0 else BelievedSize(log, f)
    else
      IsRotated(cap, log, data, f) && f.overwrite == Untouched ==>
        |Content(log.file)| <= |Rotated(cap, if f.tail then [] else Content(log.file), data)|
  }

  /** Whatever fails: from a safe state a line leads to a safe state exactly under that condition. */
  lemma CapUnderFailures(cap: nat, log: Log, data: Bytes, f: Faults)
    requires Safe(cap, log)
    ensures Safe(cap, Appended(cap, log, data, f)) <==> KeepsBound(cap, log, data, f)
  {
    if IsAppended(cap, log, data, f) {
      var size := BelievedSize(log, f);
      TriedEffect(Log(log.file, Some(size)), size, data, f.attempts, 0);
    }
  }

  /**
   If failures leave nothing behind, the one exception is an append to a file with contents that gives
   up after it has reset the cached size.
   */
  lemma CapUnderCleanFailures(cap: nat, log: Log, data: Bytes, f: Faults)
    requires Safe(cap, log) && !f.metadata && f.overwrite == Replaced && Lost(f.attempts, |data|, 0) == 0
    ensures Safe(cap, Appended(cap, log, data, f)) <==>
            !(IsAppended(cap, log, data, f) && GivesUpAfterReset(f.attempts) && Content(log.file) != [])
  {
    CapUnderFailures(cap, log, data, f);
  }

  /** After such an append, the next line that goes through takes the file over the cap. */
  lemma GivingUpBreaksTheCap()
    ensures
      var broken := Faults(false, false, (k: nat) => ShutdownFails(0), Replaced);
      var fine := Faults(false, false, (k: nat) => Done, Replaced);
      var first := Appended(3, Log(Some("ab"), Some(2)), "c", broken);
      Content(Appended(3, first, "cd", fine).file) == "abcd"
  {
    var broken := Faults(false, false, (k: nat) => ShutdownFails(0), Replaced);
    assert broken.attempts(0) == ShutdownFails(0);
    assert "ab" + "c"[..0] == "ab";
    assert Content(Appended(3, Log(Some("ab"), Some(2)), "c", broken).file) == "ab";
    assert "ab" + "cd" == "abcd";
  }

  // ---------------------------------------------------------------------------
  // Sequences of lines
  // ---------------------------------------------------------------------------

  function Concat(lines: seq<Bytes>): Bytes {
    if lines == [] then [] else Concat(lines[..|lines| - 1]) + lines[|lines| - 1]
  }

  function GrownBy(cap: nat, file: Bytes, lines: seq<Bytes>): Bytes {
    if lines == [] then file else Grown(cap, GrownBy(cap, file, lines[..|lines| - 1]), lines[|lines| - 1])
  }

  /** The file ends with these lines, whole and in order, with at most one marker between two of them. */
  predicate Shows(cap: nat, file: Bytes, recent: seq<Bytes>) {
    || EndsWith(file, Concat(recent))
    || exists k | 0 <= k < |recent| :: ShowsWithMarker(cap, file, recent, k)
  }

  predicate ShowsWithMarker(cap: nat, file: Bytes, recent: seq<Bytes>, k: nat)
    requires k < |recent|
  {
    && EndsWith(file, Concat(recent[..k]) + MARKER + Concat(recent[k..]))
    && |file| <= cap / 2 + |Concat(recent[k..])|
  }

  lemma EndsWithMore(file: Bytes, s: Bytes, data: Bytes)
    requires EndsWith(file, s)
    ensures EndsWith(file + data, s + data)
  {
    assert file == file[..|file| - |s|] + s;
    assert (file + data)[|file| - |s|..] == s + data;
  }

  lemma ConcatAround(recent: seq<Bytes>, k: nat)
    requires k < |recent| - 1
    ensures
      var lines := recent[..|recent| - 1];
      && recent[..k] == lines[..k]
      && Concat(recent[k..]) == Concat(lines[k..]) + recent[|recent| - 1]
  {
    var lines := recent[..|recent| - 1];
    assert recent[k..][..|recent| - k - 1] == lines[k..];
  }

  /**
   Whatever was written before, the newest lines that fit into half the cap together with the marker
   are all kept, whole and in order.
   */
  lemma {:induction false} NewestLinesAreKept(cap: nat, file: Bytes, recent: seq<Bytes>)
    requires |Concat(recent)| + |MARKER| <= cap / 2
    ensures Shows(cap, GrownBy(cap, file, recent), recent)
    decreases |recent|
  {
    if recent == [] {
      assert EndsWith(file, Concat(recent));
    } else {
      var n := |recent| - 1;
      var lines, data := recent[..n], recent[n];
      NewestLinesAreKept(cap, file, lines);
      var before := GrownBy(cap, file, lines);
      if EndsWith(before, Concat(lines)) {
        KeptAfterPlain(cap, before, recent);
      } else {
        var k :| 0 <= k < n && ShowsWithMarker(cap, before, lines, k);
        KeptAfterMarker(cap, before, recent, k);
      }
    }
  }

  /** One more line, when no marker stands among the recent ones yet. */
  lemma KeptAfterPlain(cap: nat, before: Bytes, recent: seq<Bytes>)
    requires recent != [] && |Concat(recent)| + |MARKER| <= cap / 2
    requires EndsWith(before, Concat(recent[..|recent| - 1]))
    ensures Shows(cap, Grown(cap, before, recent[|recent| - 1]), recent)
  {
    var n := |recent| - 1;
    var lines, data := recent[..n], recent[n];
    var after := Grown(cap, before, data);
    if data == [] {
      assert Concat(recent) == Concat(lines);
    } else if |before| + |data| <= cap {
      EndsWithMore(before, Concat(lines), data);
    } else {
      RotationIsExact(cap, before, data);
      var kept := Tail(before, Keep(cap, |data|));
      TailEndsWith(before, Concat(lines), Keep(cap, |data|));
      EndsWithMore(kept, Concat(lines), MARKER);
      EndsWithMore(kept + MARKER, Concat(lines) + MARKER, data);
      LastLine(recent);
      assert ShowsWithMarker(cap, after, recent, n);
    }
  }

  lemma LastLine(recent: seq<Bytes>)
    requires recent != []
    ensures Concat(recent[|recent| - 1..]) == recent[|recent| - 1]
  {
    var last := recent[|recent| - 1..];
    assert last[..0] == [] && last[0] == recent[|recent| - 1];
    assert Concat(last) == Concat(last[..0]) + last[0];
  }

  /** One more line after a marker: the file is not full again before the recent lines exceed half of it. */
  lemma KeptAfterMarker(cap: nat, before: Bytes, recent: seq<Bytes>, k: nat)
    requires k < |recent| - 1 && |Concat(recent)| + |MARKER| <= cap / 2
    requires ShowsWithMarker(cap, before, recent[..|recent| - 1], k)
    ensures Shows(cap, Grown(cap, before, recent[|recent| - 1]), recent)
  {
    var n := |recent| - 1;
    var lines, data := recent[..n], recent[n];
    ConcatAround(recent, k);
    SuffixLength(recent, k);
    assert Grown(cap, before, data) == before + data;
    ShownLonger(before, Concat(lines[..k]) + MARKER, Concat(lines[k..]), data);
    assert ShowsWithMarker(cap, before + data, recent, k);
  }

  lemma ShownLonger(before: Bytes, shown: Bytes, s: Bytes, data: Bytes)
    requires EndsWith(before, shown + s)
    ensures EndsWith(before + data, shown + (s + data))
  {
    EndsWithMore(before, shown + s, data);
    assert (shown + s) + data == shown + (s + data);
  }

  lemma {:induction false} SuffixLength(lines: seq<Bytes>, k: nat)
    requires k <= |lines|
    ensures |Concat(lines[k..])| <= |Concat(lines)|
    decreases |lines|
  {
    if k < |lines| {
      var n := |lines| - 1;
      SuffixLength(lines[..n], k);
      assert lines[k..][..n - k] == lines[..n][k..];
    }
  }
}
