/**
 The ordered queue of the log service in src-tauri/src/file_log.rs: numbering, sending, the
 consumer and the watermark that `flush` waits for.
 */
module LogService {
  import opened Wrappers
  import opened FileLog

  datatype Write = Write(number: nat, path: string, data: Bytes)

  /** `ready` is the remembered outcome of the first initialization. */
  datatype Service = Service(
    next: nat, queue: seq<Write>, progress: nat, ready: Option<bool>, logs: map<string, Log>)

  function At(logs: map<string, Log>, path: string): Log {
    if path in logs then logs[path] else Log(None, None)
  }

  /** One turn of the consumer; `directory` is what creating the directory would yield. */
  function Processed(cap: nat, s: Service, directory: bool, f: Faults): Service
    requires s.queue != []
  {
    var w := s.queue[0];
    var ok := if s.ready.Some? then s.ready.value else directory;
    var t := s.(queue := s.queue[1..], ready := Some(ok));
    if !ok then t
    else t.(logs := t.logs[w.path := Appended(cap, At(t.logs, w.path), w.data, f)], progress := w.number + 1)
  }

  /** The consumer until the queue is empty; turn `k` meets `faults(k)`. */
  function Drained(cap: nat, s: Service, directory: bool, faults: nat -> Faults, k: nat): Service
    decreases |s.queue|
  {
    if s.queue == [] then s else Drained(cap, Processed(cap, s, directory, faults(k)), directory, faults, k + 1)
  }

  /** Numbering and sending as one step. */
  function Enqueued(s: Service, path: string, data: Bytes): Service {
    s.(next := s.next + 1, queue := s.queue + [Write(s.next, path, data)])
  }

  /** The queued requests carry consecutive numbers up to the next one. */
  predicate InSequence(s: Service) {
    |s.queue| <= s.next && forall i | 0 <= i < |s.queue| :: s.queue[i].number == s.next - |s.queue| + i
  }

  /** Draining takes the watermark to the next number, unless the initialization fails or there was nothing to do. */
  lemma {:induction false} DrainedIsFlushed(cap: nat, s: Service, directory: bool, faults: nat -> Faults, k: nat)
    ensures
      var t := Drained(cap, s, directory, faults, k);
      && t.queue == [] && t.next == s.next
      && (InSequence(s) && s.queue != [] && (if s.ready.Some? then s.ready.value else directory) ==>
            t.progress == s.next)
    decreases |s.queue|
  {
    if s.queue != [] {
      DrainedIsFlushed(cap, Processed(cap, s, directory, faults(k)), directory, faults, k + 1);
    }
  }

  // ---------------------------------------------------------------------------
  // The object
  // ---------------------------------------------------------------------------

  class FileLogService {
    const maxFileBytes: nat
    var nextSeq: nat
    var queue: seq<Write>
    var progress: nat
    var initialized: Option<bool>
    var logs: map<string, Log>

    ghost function View(): Service
      reads this
    {
      Service(nextSeq, queue, progress, initialized, logs)
    }

    constructor (maxFileBytes: nat, logs: map<string, Log>)
      ensures this.maxFileBytes == maxFileBytes
      ensures View() == Service(0, [], 0, None, logs)
    {
      this.maxFileBytes := maxFileBytes;
      nextSeq, queue, progress, initialized := 0, [], 0, None;
      this.logs := logs;
    }

    method Enqueue(path: string, data: Bytes)
      modifies this
      ensures View() == Enqueued(old(View()), path, data)
      ensures old(InSequence(View())) ==> InSequence(View())
    {
      var number := nextSeq;
      nextSeq := nextSeq + 1;
      queue := queue + [Write(number, path, data)];
    }

    method ReadTail(path: string, bytes: nat, fails: bool) returns (tail: Bytes)
      ensures tail == Tail(if fails then [] else Content(At(logs, path).file), bytes)
    {
      var log := At(logs, path);
      if bytes == 0 || log.file.None? || fails {
        return [];
      }
      var size := |log.file.value|;
      var readSize := Min(size, bytes);
      tail := log.file.value[size - readSize..];
    }

    /** The bounded retry: at most four attempts, the cached size reset after a lost write. */
    method AppendWithRetry(path: string, size: nat, data: Bytes, attempts: nat -> Attempt)
      modifies this`logs
      ensures logs == old(logs)[path := Tried(At(old(logs), path), size, data, attempts, 0)]
    {
      var log := At(logs, path);
      var attempt := 0;
      while true
        invariant attempt <= 3 && logs == old(logs)
        invariant Tried(log, size, data, attempts, attempt) == Tried(At(old(logs), path), size, data, attempts, 0)
        decreases 3 - attempt
      {
        var outcome := attempts(attempt);
        if outcome.Done? {
          log := Log(Some(Content(log.file) + data), Some(size + |data|));
          break;
        }
        if !outcome.OpenFails? {
          var left := data[..Min(outcome.left, |data|)];
          log := Log(Some(Content(log.file) + left), if attempt < 3 then Some(0) else log.size);
        }
        if attempt == 3 {
          break;
        }
        attempt := attempt + 1;
      }
      logs := logs[path := log];
    }

    /** Over the cap: the tail of the file, the marker and the line replace it. */
    method Rotate(path: string, data: Bytes, f: Faults)
      modifies this`logs
      ensures
        var file := At(old(logs), path).file;
        var r := Rotated(maxFileBytes, if f.tail then [] else Content(file), data);
        logs == old(logs)[path := Log(Overwritten(file, r, f.overwrite), Some(|r|))]
    {
      var keepBytes := Monus(Monus(maxFileBytes / 2, |MARKER|), |data|);
      var replacement := ReadTail(path, keepBytes, f.tail);
      replacement := replacement + MARKER + data;
      if |replacement| > maxFileBytes {
        replacement := replacement[|replacement| - maxFileBytes..];
      }
      logs := logs[path := Log(Overwritten(At(logs, path).file, replacement, f.overwrite), Some(|replacement|))];
    }

    method AppendLimited(path: string, data: Bytes, f: Faults)
      modifies this`logs
      ensures logs == old(logs)[path := Appended(maxFileBytes, At(old(logs), path), data, f)]
    {
      var log := At(logs, path);
      if data == [] {
        logs := logs[path := log];
        return;
      }
      if |data| >= maxFileBytes {
        var tail := data[|data| - maxFileBytes..];
        logs := logs[path := Log(Overwritten(log.file, tail, f.overwrite), Some(maxFileBytes))];
        return;
      }
      if log.size.None? {
        log := log.(size := Some(if f.metadata then 0 else |Content(log.file)|));
      }
      var size := log.size.value;
      if size + |data| <= maxFileBytes {
        logs := logs[path := log];
        AppendWithRetry(path, size, data, f.attempts);
        return;
      }
      Rotate(path, data, f);
    }

    /** The consumer, for as long as there are requests. */
    method ConsumerLoop(directory: bool, faults: nat -> Faults)
      modifies this
      ensures View() == Drained(maxFileBytes, old(View()), directory, faults, 0)
      ensures queue == [] && nextSeq == old(nextSeq)
      ensures
        && old(InSequence(View())) && old(queue) != []
        && (if old(initialized).Some? then old(initialized).value else directory)
        ==> progress == nextSeq
    {
      var k := 0;
      DrainedIsFlushed(maxFileBytes, View(), directory, faults, 0);
      while queue != []
        invariant Drained(maxFileBytes, View(), directory, faults, k) ==
                  Drained(maxFileBytes, old(View()), directory, faults, 0)
        decreases |queue|
      {
        ghost var was := View();
        var write := queue[0];
        queue := queue[1..];
        if initialized.None? {
          initialized := Some(directory);
        }
        if initialized.value {
          AppendLimited(write.path, write.data, faults(k));
          progress := write.number + 1;
        }
        assert View() == Processed(maxFileBytes, was, directory, faults(k));
        k := k + 1;
      }
    }
  }

  // ---------------------------------------------------------------------------
  // Runs of producers and the consumer
  // ---------------------------------------------------------------------------

  /**
   `issued`, `sent` and `processed` record the writes in the order of each event, and `met` what the
   file system did at each processed one.
   */
  datatype Pipe = Pipe(
    service: Service, pending: set<Write>, issued: seq<Write>, sent: seq<Write>, processed: seq<Write>,
    met: seq<Faults>)

  /** A producer takes a number and sends its request later. */
  datatype Event = Number(path: string, data: Bytes) | Send(write: Write) | Process(directory: bool, faults: Faults)

  function Fresh(logs: map<string, Log>): Pipe {
    Pipe(Service(0, [], 0, None, logs), {}, [], [], [], [])
  }

  predicate Enabled(p: Pipe, e: Event) {
    match e
    case Number(_, _) => true
    case Send(write) => write in p.pending
    case Process(_, _) => p.service.queue != []
  }

  function Take(cap: nat, p: Pipe, e: Event): Pipe
    requires Enabled(p, e)
  {
    var s := p.service;
    match e
    case Number(path, data) =>
      var write := Write(s.next, path, data);
      p.(service := s.(next := s.next + 1), pending := p.pending + {write}, issued := p.issued + [write])
    case Send(write) =>
      p.(service := s.(queue := s.queue + [write]), pending := p.pending - {write}, sent := p.sent + [write])
    case Process(directory, faults) =>
      p.(service := Processed(cap, s, directory, faults), processed := p.processed + [s.queue[0]],
         met := p.met + [faults])
  }

  /** No request overtakes another between taking its number and being sent. */
  predicate InOrder(p: Pipe, e: Event) {
    e.Send? ==> forall other <- p.pending :: e.write.number <= other.number
  }

  predicate Legal(cap: nat, p: Pipe, events: seq<Event>)
    decreases |events|
  {
    events == [] || (Enabled(p, events[0]) && Legal(cap, Take(cap, p, events[0]), events[1..]))
  }

  function Exec(cap: nat, p: Pipe, events: seq<Event>): Pipe
    requires Legal(cap, p, events)
    decreases |events|
  {
    if events == [] then p else Exec(cap, Take(cap, p, events[0]), events[1..])
  }

  predicate Ordered(cap: nat, p: Pipe, events: seq<Event>)
    requires Legal(cap, p, events)
    decreases |events|
  {
    events == [] || (InOrder(p, events[0]) && Ordered(cap, Take(cap, p, events[0]), events[1..]))
  }

  // ---------------------------------------------------------------------------
  // What holds in every order
  // ---------------------------------------------------------------------------

  /** Numbers are positions; every write is pending, queued or processed, and a pending one is not sent. */
  ghost predicate NumberInv(p: Pipe) {
    && p.service.next == |p.issued|
    && (forall i | 0 <= i < |p.issued| :: p.issued[i].number == i)
    && (forall w <- p.pending :: w in p.issued && w !in p.sent)
    && (forall w <- p.sent :: w in p.issued)
    && p.sent == p.processed + p.service.queue
  }

  lemma TakeKeepsNumbers(cap: nat, p: Pipe, e: Event)
    requires NumberInv(p) && Enabled(p, e)
    ensures NumberInv(Take(cap, p, e))
    ensures p.issued <= Take(cap, p, e).issued
  {
    match e
    case Number(path, data) =>
    case Send(write) =>
    case Process(_, _) =>
      assert p.service.queue == [p.service.queue[0]] + p.service.queue[1..];
  }

  lemma {:induction false} RunKeepsNumbers(cap: nat, p: Pipe, events: seq<Event>)
    requires NumberInv(p) && Legal(cap, p, events)
    ensures NumberInv(Exec(cap, p, events)) && p.issued <= Exec(cap, p, events).issued
    decreases |events|
  {
    if events != [] {
      TakeKeepsNumbers(cap, p, events[0]);
      RunKeepsNumbers(cap, Take(cap, p, events[0]), events[1..]);
    }
  }

  // ---------------------------------------------------------------------------
  // What the watermark says
  // ---------------------------------------------------------------------------

  /** Requests are sent and processed in the order of their numbers. */
  ghost predicate QueueInv(p: Pipe) {
    && p.sent <= p.issued
    && (forall w :: w in p.pending <==> w in p.issued[|p.sent|..])
  }

  /** The watermark counts the processed writes, unless the initialization failed. */
  predicate WatermarkInv(p: Pipe) {
    && (p.processed == [] <==> p.service.ready.None?)
    && p.service.progress == if p.service.ready == Some(false) then 0 else |p.processed|
  }

  ghost predicate PipeInv(p: Pipe) {
    NumberInv(p) && QueueInv(p) && WatermarkInv(p)
  }

  lemma TakeKeepsInv(cap: nat, p: Pipe, e: Event)
    requires PipeInv(p) && Enabled(p, e) && InOrder(p, e)
    ensures PipeInv(Take(cap, p, e))
  {
    TakeKeepsNumbers(cap, p, e);
    var q := Take(cap, p, e);
    match e
    case Number(path, data) =>
      var write := Write(p.service.next, path, data);
      assert q.issued[|q.sent|..] == p.issued[|p.sent|..] + [write];
    case Send(write) =>
      SentInOrder(p, write);
    case Process(_, _) =>
      assert p.service.queue[0] == p.sent[|p.processed|];
  }

  /** The request sent next is the one with the lowest number that is not sent yet. */
  lemma SentInOrder(p: Pipe, write: Write)
    requires NumberInv(p) && QueueInv(p) && write in p.pending && InOrder(p, Send(write))
    ensures |p.sent| < |p.issued| && write == p.issued[|p.sent|]
    ensures p.sent + [write] <= p.issued
    ensures forall w :: w in p.pending - {write} <==> w in p.issued[|p.sent| + 1..]
  {
    var rest := p.issued[|p.sent|..];
    var i :| 0 <= i < |rest| && rest[i] == write;
    assert rest[0] in p.pending;
    assert rest == [rest[0]] + p.issued[|p.sent| + 1..];
    assert p.issued[..|p.sent| + 1] == p.issued[..|p.sent|] + [write];
  }

  lemma {:induction false} RunKeepsInv(cap: nat, p: Pipe, events: seq<Event>)
    requires PipeInv(p) && Legal(cap, p, events) && Ordered(cap, p, events)
    ensures PipeInv(Exec(cap, p, events))
    decreases |events|
  {
    if events != [] {
      TakeKeepsInv(cap, p, events[0]);
      RunKeepsInv(cap, Take(cap, p, events[0]), events[1..]);
    }
  }

  /** A `flush` that waits for `target` may return, and a write numbered before it is not processed. */
  predicate ReturnsEarly(p: Pipe, target: nat) {
    p.service.progress >= target && exists w <- p.issued :: w.number < target && w !in p.processed
  }

  lemma NoEarlyReturn(p: Pipe, target: nat)
    requires PipeInv(p)
    ensures !ReturnsEarly(p, target)
    ensures p.service.progress >= target ==> target <= |p.issued| && p.issued[..target] <= p.processed
  {
    if p.service.progress >= target {
      forall w <- p.issued | w.number < target ensures w in p.processed {
        assert w == p.issued[w.number] == p.processed[w.number];
      }
    }
  }

  /**
   If no request overtakes another, then a `flush` called in state `p` returns by its watermark only
   in states where every write numbered before the call has been processed, in call order.
   */
  lemma FlushIsComplete(cap: nat, logs: map<string, Log>, before: seq<Event>, after: seq<Event>)
    requires Legal(cap, Fresh(logs), before) && Ordered(cap, Fresh(logs), before)
    requires
      var p := Exec(cap, Fresh(logs), before);
      Legal(cap, p, after) && Ordered(cap, p, after)
    ensures
      var p := Exec(cap, Fresh(logs), before);
      var q := Exec(cap, p, after);
      q.service.progress >= p.service.next ==> p.issued <= q.processed
  {
    RunKeepsInv(cap, Fresh(logs), before);
    RunKeepsInv(cap, Exec(cap, Fresh(logs), before), after);
    RunKeepsNumbers(cap, Exec(cap, Fresh(logs), before), after);
  }

  // ---------------------------------------------------------------------------
  // Numbering and sending apart
  // ---------------------------------------------------------------------------

  /** The consumer taking `n` requests one after the other. */
  function Turns(n: nat, faults: Faults): seq<Event> {
    if n == 0 then [] else [Process(true, faults)] + Turns(n - 1, faults)
  }

  /** Turns are possible as long as the queue lasts, and overtake nothing. */
  lemma {:induction false} TurnsTake(cap: nat, p: Pipe, n: nat, faults: Faults)
    requires n <= |p.service.queue| && p.service.ready != Some(false)
    ensures Legal(cap, p, Turns(n, faults)) && Ordered(cap, p, Turns(n, faults))
    ensures
      var q := Exec(cap, p, Turns(n, faults));
      && q.processed == p.processed + p.service.queue[..n] && q.issued == p.issued
      && (n > 0 ==> q.service.progress == p.service.queue[n - 1].number + 1)
    decreases n
  {
    if n > 0 {
      var e := Process(true, faults);
      var t := Take(cap, p, e);
      assert Turns(n, faults)[1..] == Turns(n - 1, faults);
      TurnsTake(cap, t, n - 1, faults);
      assert p.service.queue[..n] == [p.service.queue[0]] + p.service.queue[1..][..n - 1];
    } else {
      assert p.processed + p.service.queue[..0] == p.processed;
    }
  }

  /** The state after sending `write` and processing everything up to it. */
  function Drain(cap: nat, p: Pipe, write: Write, faults: Faults): Pipe
    requires write in p.pending && p.service.ready != Some(false)
  {
    var t := Take(cap, p, Send(write));
    TurnsTake(cap, t, |t.service.queue|, faults);
    Exec(cap, t, Turns(|t.service.queue|, faults))
  }

  /**
   In every reachable state: sending a request past another with a lower number lets a `flush` that was
   called right after the request took its number return while the other one is not processed.
   */
  lemma OvertakingReturnsEarly(cap: nat, logs: map<string, Log>, before: seq<Event>, write: Write, faults: Faults)
    requires Legal(cap, Fresh(logs), before)
    requires write in Exec(cap, Fresh(logs), before).pending
    requires Exec(cap, Fresh(logs), before).service.ready != Some(false)
    requires !InOrder(Exec(cap, Fresh(logs), before), Send(write))
    ensures ReturnsEarly(Drain(cap, Exec(cap, Fresh(logs), before), write, faults), write.number + 1)
  {
    var p := Exec(cap, Fresh(logs), before);
    RunKeepsNumbers(cap, Fresh(logs), before);
    OvertakenStays(cap, p, write, faults);
  }

  lemma OvertakenStays(cap: nat, p: Pipe, write: Write, faults: Faults)
    requires NumberInv(p) && write in p.pending && p.service.ready != Some(false) && !InOrder(p, Send(write))
    ensures ReturnsEarly(Drain(cap, p, write, faults), write.number + 1)
  {
    var other :| other in p.pending && other.number < write.number;
    var t := Take(cap, p, Send(write));
    var q := Drain(cap, p, write, faults);
    TurnsTake(cap, t, |t.service.queue|, faults);
    assert t.service.queue[|t.service.queue| - 1] == write;
    assert t.service.queue[..|t.service.queue|] == t.service.queue;
    assert q.processed == p.processed + (p.service.queue + [write]) == p.sent + [write];
    assert other in q.issued && other !in q.processed;
  }

  /** After an ordered run, the next request opens the way to an early return exactly if it overtakes another. */
  lemma OvertakingIsExact(cap: nat, logs: map<string, Log>, before: seq<Event>, write: Write, faults: Faults)
    requires Legal(cap, Fresh(logs), before) && Ordered(cap, Fresh(logs), before)
    requires write in Exec(cap, Fresh(logs), before).pending
    requires Exec(cap, Fresh(logs), before).service.ready != Some(false)
    ensures
      var p := Exec(cap, Fresh(logs), before);
      !InOrder(p, Send(write)) <==> exists target :: ReturnsEarly(Drain(cap, p, write, faults), target)
  {
    var p := Exec(cap, Fresh(logs), before);
    RunKeepsInv(cap, Fresh(logs), before);
    if InOrder(p, Send(write)) {
      var t := Take(cap, p, Send(write));
      TakeKeepsInv(cap, p, Send(write));
      TurnsTake(cap, t, |t.service.queue|, faults);
      RunKeepsInv(cap, t, Turns(|t.service.queue|, faults));
      forall target ensures !ReturnsEarly(Drain(cap, p, write, faults), target) {
        NoEarlyReturn(Drain(cap, p, write, faults), target);
      }
    } else {
      OvertakenStays(cap, p, write, faults);
    }
  }

  /** With no request under way, taking a number and sending at once is the atomic step, and overtakes nothing. */
  lemma AtomicEnqueueIsInOrder(cap: nat, p: Pipe, path: string, data: Bytes)
    requires p.pending == {}
    ensures
      var write := Write(p.service.next, path, data);
      var numbered := Take(cap, p, Number(path, data));
      && Enabled(numbered, Send(write)) && InOrder(numbered, Send(write))
      && Take(cap, numbered, Send(write)).service == Enqueued(p.service, path, data)
      && Take(cap, numbered, Send(write)).pending == {}
  {
  }

  /**
   A run in which the overtaken `enqueue` has even returned before the `flush` is called; the watermark
   goes back when its write is processed.
   */
  lemma OvertakingBreaksFlush(cap: nat, fine: Faults)
    ensures
      var a, b := Write(0, "app", "a"), Write(1, "app", "b");
      var p0 := Fresh(map[]);
      var p1 := Take(cap, p0, Number("app", "a"));
      var p2 := Take(cap, p1, Number("app", "b"));
      Enabled(p2, Send(b)) && !InOrder(p2, Send(b)) &&
      var p3 := Take(cap, p2, Send(b));
      Enabled(p3, Process(true, fine)) &&
      var p4 := Take(cap, p3, Process(true, fine));
      Enabled(p4, Send(a)) &&
      var flushed := Take(cap, p4, Send(a));
      && flushed.pending == {} && ReturnsEarly(flushed, flushed.service.next)
      && Enabled(flushed, Process(true, fine))
      && Take(cap, flushed, Process(true, fine)).service.progress < flushed.service.progress
  {
    var a, b := Write(0, "app", "a"), Write(1, "app", "b");
    var p1 := Take(cap, Fresh(map[]), Number("app", "a"));
    var p2 := Take(cap, p1, Number("app", "b"));
    assert a in p2.pending && b in p2.pending;
    assert p2.pending - {b} - {a} == {};
    assert a in p2.issued && a !in [b];
  }

  /** A failed initialization is remembered: nothing is written and the watermark never moves. */
  lemma {:induction false} FailedInitializationStays(cap: nat, p: Pipe, events: seq<Event>)
    requires p.service.ready == Some(false) && Legal(cap, p, events)
    ensures
      var q := Exec(cap, p, events);
      q.service.ready == Some(false) && q.service.logs == p.service.logs && q.service.progress == p.service.progress
    decreases |events|
  {
    if events != [] {
      FailedInitializationStays(cap, Take(cap, p, events[0]), events[1..]);
    }
  }

  // ---------------------------------------------------------------------------
  // What is on disk
  // ---------------------------------------------------------------------------

  /** A path after these writes, each with what the file system did. */
  function Replayed(cap: nat, log: Log, path: string, writes: seq<Write>, met: seq<Faults>): Log
    requires |writes| == |met|
  {
    if writes == [] then log
    else
      var n := |writes| - 1;
      var before := Replayed(cap, log, path, writes[..n], met[..n]);
      if writes[n].path == path then Appended(cap, before, writes[n].data, met[n]) else before
  }

  /** Every path is what its processed writes, in order and with their failures, make of it. */
  ghost predicate OnDisk(cap: nat, logs: map<string, Log>, p: Pipe) {
    && |p.met| == |p.processed|
    && (p.service.ready == Some(false) ==> p.service.logs == logs)
    && (p.service.ready.None? ==> p.processed == [])
    && (p.service.ready != Some(false) ==> forall path :: IsReplayed(cap, logs, p, path))
  }

  predicate IsReplayed(cap: nat, logs: map<string, Log>, p: Pipe, path: string)
    requires |p.met| == |p.processed|
  {
    At(p.service.logs, path) == Replayed(cap, At(logs, path), path, p.processed, p.met)
  }

  lemma TakeKeepsOnDisk(cap: nat, logs: map<string, Log>, p: Pipe, e: Event)
    requires OnDisk(cap, logs, p) && Enabled(p, e)
    requires p.service.ready.None? ==> p.service.logs == logs
    ensures OnDisk(cap, logs, Take(cap, p, e))
    ensures Take(cap, p, e).service.ready.None? ==> Take(cap, p, e).service.logs == logs
  {
    var q := Take(cap, p, e);
    if q.service.ready != Some(false) {
      forall path ensures IsReplayed(cap, logs, q, path) {
        assert IsReplayed(cap, logs, p, path);
        if e.Process? {
          assert q.processed[..|p.processed|] == p.processed && q.met[..|p.met|] == p.met;
        }
      }
    }
  }

  lemma {:induction false} RunKeepsOnDisk(cap: nat, logs: map<string, Log>, p: Pipe, events: seq<Event>)
    requires OnDisk(cap, logs, p) && Legal(cap, p, events)
    requires p.service.ready.None? ==> p.service.logs == logs
    ensures OnDisk(cap, logs, Exec(cap, p, events))
    decreases |events|
  {
    if events != [] {
      TakeKeepsOnDisk(cap, logs, p, events[0]);
      RunKeepsOnDisk(cap, logs, Take(cap, p, events[0]), events[1..]);
    }
  }

  /**
   In every run, whatever fails and in whatever order requests are sent, each path is what its
   processed writes, one after the other and each with its own failures, make of it; if the
   initialization failed, nothing was touched.
   */
  lemma DiskFollowsOutcomes(cap: nat, logs: map<string, Log>, events: seq<Event>, path: string)
    requires Legal(cap, Fresh(logs), events)
    ensures
      var q := Exec(cap, Fresh(logs), events);
      && |q.met| == |q.processed|
      && At(q.service.logs, path) ==
         if q.service.ready == Some(false) then At(logs, path)
         else Replayed(cap, At(logs, path), path, q.processed, q.met)
  {
    assert OnDisk(cap, logs, Fresh(logs));
    RunKeepsOnDisk(cap, logs, Fresh(logs), events);
    var q := Exec(cap, Fresh(logs), events);
    if q.service.ready != Some(false) {
      assert IsReplayed(cap, logs, q, path);
    }
  }

  function LinesFor(path: string, writes: seq<Write>): seq<Bytes> {
    if writes == [] then []
    else
      var n := |writes| - 1;
      LinesFor(path, writes[..n]) + if writes[n].path == path then [writes[n].data] else []
  }

  /** Writes that meet no failure make of a path what its lines make of its contents. */
  lemma {:induction false} SmoothReplay(cap: nat, log: Log, path: string, writes: seq<Write>, met: seq<Faults>)
    requires |writes| == |met| && Exact(log) && forall f <- met :: Smooth(f)
    ensures
      var after := Replayed(cap, log, path, writes, met);
      Exact(after) && Content(after.file) == GrownBy(cap, Content(log.file), LinesFor(path, writes))
    decreases |writes|
  {
    if writes != [] {
      var n := |writes| - 1;
      SmoothReplay(cap, log, path, writes[..n], met[..n]);
      var lines := LinesFor(path, writes[..n]);
      if writes[n].path == path {
        AppendIsExact(cap, Replayed(cap, log, path, writes[..n], met[..n]), writes[n].data, met[n]);
        assert (lines + [writes[n].data])[..|lines|] == lines;
      } else {
        assert lines + [] == lines;
      }
    }
  }

  /** Without failures each file holds what its processed lines, in order, make of its first contents. */
  lemma DiskFollowsCallOrder(cap: nat, logs: map<string, Log>, events: seq<Event>, path: string)
    requires Legal(cap, Fresh(logs), events) && Exact(At(logs, path))
    requires
      var q := Exec(cap, Fresh(logs), events);
      q.service.ready != Some(false) && forall f <- q.met :: Smooth(f)
    ensures
      var q := Exec(cap, Fresh(logs), events);
      Content(At(q.service.logs, path).file) ==
      GrownBy(cap, Content(At(logs, path).file), LinesFor(path, q.processed))
  {
    DiskFollowsOutcomes(cap, logs, events, path);
    var q := Exec(cap, Fresh(logs), events);
    SmoothReplay(cap, At(logs, path), path, q.processed, q.met);
  }
}
