/**
 The service-side ownership protocol: native/tun-service/manager.go over the record file
 of native/tun-service/store.go.

 The store and the manager are objects; every request is also a function on values, and
 the protocol properties are proved about those functions over whole runs. What the
 operating system answers is an input (`Env`) of each request.
 */
module Ownership {
  import opened Text
  import opened Wrappers

  datatype Owned = Owned(sessionId: string, pid: nat)

  // ---------------------------------------------------------------------------
  // The record file
  // ---------------------------------------------------------------------------

  /** ownership.json, its temporary sibling and session.yaml. */
  datatype Files = Files(record: Option<Owned>, temporary: bool, profile: bool)

  datatype WriteFaults = WriteFaults(
    open: bool, remove: bool, reopen: bool, write: bool, sync: bool, close: bool, rename: bool)

  datatype ClearFaults = ClearFaults(record: bool, profile: bool)

  /** The session identifiers the protocol admits: lower-case UUIDs of version 1 to 5. */
  predicate IsSessionId(s: string) {
    && |s| == 36
    && s[8] == s[13] == s[18] == s[23] == '-'
    && (forall i | 0 <= i < 36 && i != 8 && i != 13 && i != 18 && i != 23 :: IsHex(s[i]))
    && '1' <= s[14] <= '5'
    && s[19] in {'8', '9', 'a', 'b'}
  }

  /** Whether a write goes through: every step of it must, and a stale temporary must go away. */
  predicate WriteSucceeds(f: Files, faults: WriteFaults) {
    && !faults.open
    && (f.temporary ==> !faults.remove && !faults.reopen)
    && !faults.write && !faults.sync && !faults.close && !faults.rename
  }

  class FileOwnershipStore {
    var record: Option<Owned>
    var temporary: bool
    var profile: bool

    ghost function View(): Files
      reads this
    {
      Files(record, temporary, profile)
    }

    constructor (files: Files)
      ensures View() == files
    {
      record, temporary, profile := files.record, files.temporary, files.profile;
    }

    method Read(fails: bool) returns (r: Result<Option<Owned>, string>)
      ensures r == ReadRecord(View(), fails)
    {
      if fails {
        return Err("read failed");
      }
      if record.None? {
        return Ok(None);
      }
      var owned := record.value;
      if !IsSessionId(owned.sessionId) || owned.pid <= 0 {
        return Err("invalid ownership record");
      }
      return Ok(Some(owned));
    }

    method Write(owned: Owned, faults: WriteFaults) returns (ok: bool)
      modifies this`record, this`temporary
      ensures View() == Written(old(View()), owned, faults) && ok == WriteSucceeds(old(View()), faults)
    {
      if faults.open {
        return false;
      }
      if temporary {
        if !faults.remove {
          temporary := false;
        }
        if faults.reopen || temporary {
          return false;
        }
      }
      temporary := true;
      if faults.write || faults.sync || faults.close {
        if !faults.remove {
          temporary := false;
        }
        return false;
      }
      if faults.rename {
        return false;
      }
      record := Some(owned);
      temporary := false;
      return true;
    }

    method Clear(faults: ClearFaults) returns (ok: bool)
      modifies this`record, this`profile
      ensures View() == Cleared(old(View()), faults) && ok == ClearSucceeds(old(View()), faults)
    {
      if record.Some? && faults.record {
        return false;
      }
      record := None;
      if !profile {
        return true;
      }
      if faults.profile {
        return false;
      }
      profile := false;
      return true;
    }
  }

  function ReadRecord(f: Files, fails: bool): Result<Option<Owned>, string> {
    if fails then Err("read failed")
    else if f.record.None? then Ok(None)
    else if IsSessionId(f.record.value.sessionId) && f.record.value.pid > 0 then Ok(f.record)
    else Err("invalid ownership record")
  }

  function Cleared(f: Files, faults: ClearFaults): Files {
    if f.record.Some? && faults.record then f
    else f.(record := None, profile := f.profile && faults.profile)
  }

  predicate ClearSucceeds(f: Files, faults: ClearFaults) {
    !(f.record.Some? && faults.record) && !(f.profile && faults.profile)
  }

  /** A failed write never touches the record; it may leave the temporary file behind. */
  function Written(f: Files, owned: Owned, faults: WriteFaults): Files {
    if WriteSucceeds(f, faults) then f.(record := Some(owned), temporary := false)
    else f.(temporary :=
      if faults.open then f.temporary
      else if f.temporary && (faults.remove || faults.reopen) then faults.remove
      else if faults.write || faults.sync || faults.close then faults.remove
      else true)
  }

  /** What is written is read back; a failed write changes no reading, and a clear that removed the record reads as none. */
  lemma StoreRoundTrip(f: Files, owned: Owned, write: WriteFaults, clear: ClearFaults)
    requires IsSessionId(owned.sessionId) && owned.pid > 0
    ensures ReadRecord(Written(f, owned, write), false) ==
            if WriteSucceeds(f, write) then Ok(Some(owned)) else ReadRecord(f, false)
    ensures WriteSucceeds(f, write) ==> !Written(f, owned, write).temporary
    ensures ReadRecord(Cleared(f, clear), false) == if f.record.Some? && clear.record then ReadRecord(f, false) else Ok(None)
  {
  }

  /** A reading is an admissible record or none; it fails exactly if the read does or the record is malformed. */
  lemma ReadIsWellFormed(f: Files, fails: bool)
    ensures
      var r := ReadRecord(f, fails);
      && (r.Ok? ==> r.value == f.record && (r.value.Some? ==> IsSessionId(r.value.value.sessionId) && r.value.value.pid != 0))
      && (r.Err? <==> fails || (f.record.Some? && (!IsSessionId(f.record.value.sessionId) || f.record.value.pid == 0)))
  {
  }

  // ---------------------------------------------------------------------------
  // The manager on values
  // ---------------------------------------------------------------------------

  /** `alive` is the set of child processes of the service that are really running. */
  datatype State = State(
    owned: Option<Owned>,
    conflict: bool,
    blocked: bool,
    lastExit: string,
    files: Files,
    alive: set<nat>)

  datatype Outcome = Running | Stopped | Stopping | Conflict | Failed

  datatype Response = Response(outcome: Outcome, child: Option<Owned>, detail: string, ok: bool)

  datatype Inspection = Live | NotLive | Exited(detail: string) | Unknown

  /** A stop either confirms the child's end or fails, with or without having ended it. */
  datatype StopAnswer = Confirmed | Unconfirmed(ended: bool)

  datatype Env = Env(
    readFails: seq<bool>,
    inspection: Inspection,
    clear: ClearFaults,
    started: Option<nat>,
    write: WriteFaults,
    emergency: StopAnswer,
    stop: StopAnswer)

  const READ_ATTEMPTS: nat := 3

  const EXITED := "owned mihomo process exited: "

  predicate ReadFails(env: Env, attempt: nat) {
    attempt < |env.readFails| && env.readFails[attempt]
  }

  /** The answer of the bounded retry: a failure only if every attempt failed. */
  function ResilientRead(f: Files, env: Env, attempt: nat): Result<Option<Owned>, string>
    requires attempt < READ_ATTEMPTS
    decreases READ_ATTEMPTS - attempt
  {
    var r := ReadRecord(f, ReadFails(env, attempt));
    if r.Ok? || attempt + 1 == READ_ATTEMPTS then r else ResilientRead(f, env, attempt + 1)
  }

  lemma {:induction false} ResilientReadFailsOnlyIfAllDo(f: Files, env: Env, attempt: nat)
    requires attempt < READ_ATTEMPTS
    ensures ResilientRead(f, env, attempt).Err? <==>
            forall a: nat | attempt <= a < READ_ATTEMPTS :: ReadRecord(f, ReadFails(env, a)).Err?
    ensures ResilientRead(f, env, attempt).Ok? ==> ResilientRead(f, env, attempt).value == f.record
    decreases READ_ATTEMPTS - attempt
  {
    if attempt + 1 < READ_ATTEMPTS {
      ResilientReadFailsOnlyIfAllDo(f, env, attempt + 1);
    }
  }

  function Kill(alive: set<nat>, pid: nat, answer: StopAnswer): set<nat> {
    if answer == Unconfirmed(false) then alive else alive - {pid}
  }

  function Released(s: State, files: Files): State {
    s.(owned := None, blocked := false, conflict := false, files := files)
  }

  const MESSAGE_BYTES: nat := 4096

  /** The end of a message, as long as an answer may carry it. */
  function Message(text: string): string {
    if |text| > MESSAGE_BYTES then text[|text| - MESSAGE_BYTES..] else text
  }

  /** A stopped answer reports the last child failure, if there is one. */
  function StoppedResponse(lastExit: string): Response {
    if lastExit == "" then Response(Stopped, None, "", true) else Response(Failed, None, Message(lastExit), true)
  }

  function Reconciled(s: State, env: Env): (State, Response) {
    match ResilientRead(s.files, env, 0)
    case Err(e) => (s.(blocked := true), Response(Failed, None, e, false))
    case Ok(None) => (Released(s, s.files), StoppedResponse(s.lastExit))
    case Ok(Some(recorded)) =>
      match env.inspection
      case Unknown => (s.(owned := Some(recorded), conflict := true), Response(Conflict, Some(recorded), "", false))
      case Live =>
        (s.(owned := Some(recorded), blocked := false, conflict := false), Response(Running, Some(recorded), "", true))
      case NotLive =>
        var files := Cleared(s.files, env.clear);
        if ClearSucceeds(s.files, env.clear) then (Released(s, files), Response(Stopped, None, "", true))
        else (s.(files := files), Response(Failed, None, "", false))
      case Exited(detail) =>
        var files := Cleared(s.files, env.clear);
        if ClearSucceeds(s.files, env.clear) then
          (Released(s, files).(lastExit := EXITED + detail), Response(Failed, None, EXITED + detail, false))
        else (s.(files := files), Response(Failed, None, EXITED + detail, false))
  }

  /** The state in which `start` decides, after the recovery attempt of a blocked manager. */
  function Recovered(s: State, env: Env): State {
    if s.blocked then Reconciled(s, env).0 else s
  }

  /** `start` goes on to create a process. */
  predicate CallsRuntime(s: State, env: Env) {
    && (s.blocked ==> Reconciled(s, env).1.ok && !Reconciled(s, env).0.blocked)
    && Recovered(s, env).owned.None?
  }

  function Started(s: State, sessionId: string, env: Env): (State, Response) {
    var r := Recovered(s, env);
    if s.blocked && (!Reconciled(s, env).1.ok || r.blocked) then (r, Response(Conflict, None, "", false))
    else if r.owned.Some? then (r, Response(Conflict, r.owned, "", false))
    else if env.started.None? then (r, Response(Failed, None, "", false))
    else
      var owned := Owned(sessionId, env.started.value);
      var files := Written(r.files, owned, env.write);
      var alive := r.alive + {owned.pid};
      if WriteSucceeds(r.files, env.write) then
        (r.(owned := Some(owned), lastExit := "", files := files, alive := alive),
         Response(Running, Some(owned), "", true))
      else
        var left := Kill(alive, owned.pid, env.emergency);
        if env.emergency == Confirmed then
          (r.(files := files, alive := left), Response(Failed, None, "", false))
        else
          (r.(owned := Some(owned), files := files, alive := left), Response(Stopping, Some(owned), "", false))
  }

  function StopRequested(s: State, sessionId: string, env: Env): (State, Response) {
    if s.blocked || s.conflict then (s, Response(Conflict, s.owned, "", false))
    else if s.owned.None? then (s, Response(Stopped, None, "", true))
    else if sessionId != s.owned.value.sessionId then (s, Response(Conflict, s.owned, "", false))
    else
      var t := s.(alive := Kill(s.alive, s.owned.value.pid, env.stop));
      if env.stop != Confirmed then (t, Response(Stopping, s.owned, "", false))
      else
        var files := Cleared(s.files, env.clear);
        if ClearSucceeds(s.files, env.clear) then
          (t.(owned := None, files := files), Response(Stopped, None, "", true))
        else (t.(files := files), Response(Failed, None, "", false))
  }

  function Status(s: State): Response {
    if s.blocked || s.conflict then Response(Conflict, s.owned, "", true)
    else if s.owned.None? then StoppedResponse(s.lastExit)
    else Response(Running, s.owned, "", true)
  }

  // ---------------------------------------------------------------------------
  // The manager as an object
  // ---------------------------------------------------------------------------

  class SessionManager {
    const store: FileOwnershipStore
    var owned: Option<Owned>
    var conflict: bool
    var blocked: bool
    var lastExit: string
    ghost var alive: set<nat>

    ghost function View(): State
      reads this, store
    {
      State(owned, conflict, blocked, lastExit, store.View(), alive)
    }

    constructor (store: FileOwnershipStore)
      ensures View() == State(None, false, false, "", store.View(), {}) && this.store == store
    {
      this.store := store;
      owned, conflict, blocked, lastExit, alive := None, false, false, "", {};
    }

    method ReadStoreResilient(env: Env) returns (r: Result<Option<Owned>, string>)
      ensures r == ResilientRead(store.View(), env, 0)
    {
      r := Err("");
      var attempt := 0;
      while attempt < READ_ATTEMPTS
        invariant attempt <= READ_ATTEMPTS
        invariant attempt < READ_ATTEMPTS ==>
                    ResilientRead(store.View(), env, attempt) == ResilientRead(store.View(), env, 0)
        invariant attempt == READ_ATTEMPTS ==> r == ResilientRead(store.View(), env, 0)
      {
        r := store.Read(ReadFails(env, attempt));
        if r.Ok? {
          return;
        }
        attempt := attempt + 1;
      }
    }

    method Reconcile(env: Env) returns (response: Response)
      modifies this, store
      ensures (View(), response) == Reconciled(old(View()), env)
    {
      var read := ReadStoreResilient(env);
      if read.Err? {
        blocked := true;
        return Response(Failed, None, read.error, false);
      }
      if read.value.None? {
        Release();
        return StoppedResponse(lastExit);
      }
      var recorded := read.value.value;
      match env.inspection {
        case Unknown =>
          owned := Some(recorded);
          conflict := true;
          return Response(Conflict, Some(recorded), "", false);
        case Live =>
          owned, blocked, conflict := Some(recorded), false, false;
          return Response(Running, Some(recorded), "", true);
        case NotLive =>
          var cleared := store.Clear(env.clear);
          if !cleared {
            return Response(Failed, None, "", false);
          }
          Release();
          return Response(Stopped, None, "", true);
        case Exited(detail) =>
          var cleared := store.Clear(env.clear);
          if !cleared {
            return Response(Failed, None, EXITED + detail, false);
          }
          Release();
          lastExit := EXITED + detail;
          return Response(Failed, None, EXITED + detail, false);
      }
    }

    method Release()
      modifies this`owned, this`blocked, this`conflict
      ensures owned == None && !blocked && !conflict
    {
      owned, blocked, conflict := None, false, false;
    }

    method Start(sessionId: string, env: Env) returns (response: Response)
      modifies this, store
      ensures (View(), response) == Started(old(View()), sessionId, env)
    {
      if blocked {
        var probe := Reconcile(env);
        if !probe.ok || blocked {
          return Response(Conflict, None, "", false);
        }
      }
      if owned.Some? {
        return Response(Conflict, owned, "", false);
      }
      if env.started.None? {
        return Response(Failed, None, "", false);
      }
      response := Launch(Owned(sessionId, env.started.value), env);
    }

    /** The process runs: persist the ownership, or take the process down again. */
    method Launch(child: Owned, env: Env) returns (response: Response)
      requires env.started == Some(child.pid) && owned.None? && !blocked
      modifies this, store
      ensures (View(), response) == Started(old(View()), child.sessionId, env)
    {
      alive := alive + {child.pid};
      var written := store.Write(child, env.write);
      if !written {
        alive := Kill(alive, child.pid, env.emergency);
        if env.emergency != Confirmed {
          owned := Some(child);
          return Response(Stopping, Some(child), "", false);
        }
        return Response(Failed, None, "", false);
      }
      owned := Some(child);
      lastExit := "";
      return Response(Running, Some(child), "", true);
    }

    method Stop(sessionId: string, env: Env) returns (response: Response)
      modifies this, store
      ensures (View(), response) == StopRequested(old(View()), sessionId, env)
    {
      if blocked || conflict {
        return Response(Conflict, owned, "", false);
      }
      if owned.None? {
        return Response(Stopped, None, "", true);
      }
      if sessionId != owned.value.sessionId {
        return Response(Conflict, owned, "", false);
      }
      alive := Kill(alive, owned.value.pid, env.stop);
      if env.stop != Confirmed {
        return Response(Stopping, owned, "", false);
      }
      var cleared := store.Clear(env.clear);
      if !cleared {
        return Response(Failed, None, "", false);
      }
      owned := None;
      return Response(Stopped, None, "", true);
    }

    method CurrentStatus() returns (response: Response)
      ensures response == Status(View())
      ensures OwnedChild(View()) ==> TellsOfChild(response, alive)
    {
      if blocked || conflict {
        return Response(Conflict, owned, "", true);
      }
      if owned.None? {
        return StoppedResponse(lastExit);
      }
      return Response(Running, owned, "", true);
    }
  }

  // ---------------------------------------------------------------------------
  // Runs
  // ---------------------------------------------------------------------------

  /** A crash of the service ends its job object, hence its children, and its memory. */
  datatype Event =
    | StartRequest(sessionId: string, env: Env)
    | StopRequest(sessionId: string, env: Env)
    | ReconcileRequest(env: Env)
    | ChildDies(pid: nat)
    | ServiceCrash(env: Env)

  function FreshAfterCrash(s: State): State {
    State(None, false, false, "", s.files, {})
  }

  function Handle(s: State, e: Event): State {
    match e
    case StartRequest(sessionId, env) => Started(s, sessionId, env).0
    case StopRequest(sessionId, env) => StopRequested(s, sessionId, env).0
    case ReconcileRequest(env) => Reconciled(s, env).0
    case ChildDies(pid) => s.(alive := s.alive - {pid})
    case ServiceCrash(env) => Reconciled(FreshAfterCrash(s), env).0
  }

  /** The runtime never calls a living child gone. */
  predicate Truthful(alive: set<nat>, record: Option<Owned>, inspection: Inspection) {
    inspection.NotLive? || inspection.Exited? ==> record.Some? ==> record.value.pid !in alive
  }

  predicate Possible(s: State, e: Event) {
    match e
    case StartRequest(_, env) => Truthful(s.alive, s.files.record, env.inspection)
    case StopRequest(_, _) => true
    case ReconcileRequest(env) => Truthful(s.alive, s.files.record, env.inspection)
    case ChildDies(_) => true
    case ServiceCrash(_) => true
  }

  /** The request spawned a child that is not on record, and could not take it down again. */
  predicate Orphans(s: State, e: Event) {
    && e.StartRequest?
    && CallsRuntime(s, e.env)
    && e.env.started.Some?
    && !WriteSucceeds(Recovered(s, e.env).files, e.env.write)
    && Recovered(s, e.env).files.record != Some(Owned(e.sessionId, e.env.started.value))
    && e.env.emergency == Unconfirmed(false)
  }

  ghost predicate OwnedChild(s: State) {
    forall c <- s.alive :: s.owned.Some? && s.owned.value.pid == c && s.files.record == s.owned
  }

  ghost predicate Legal(s: State, events: seq<Event>)
    decreases |events|
  {
    events == [] || (Possible(s, events[0]) && !Orphans(s, events[0]) && Legal(Handle(s, events[0]), events[1..]))
  }

  function Run(s: State, events: seq<Event>): State
    decreases |events|
  {
    if events == [] then s else Run(Handle(s, events[0]), events[1..])
  }

  lemma ReconcileKeepsOwnedChild(s: State, env: Env)
    requires OwnedChild(s) && Truthful(s.alive, s.files.record, env.inspection)
    ensures OwnedChild(Reconciled(s, env).0)
    ensures Reconciled(s, env).0.alive == s.alive
  {
    ResilientReadFailsOnlyIfAllDo(s.files, env, 0);
  }

  /** `start` creates a process only when no child is alive. */
  lemma NoSecondChild(s: State, sessionId: string, env: Env)
    requires OwnedChild(s) && Possible(s, StartRequest(sessionId, env)) && CallsRuntime(s, env)
    ensures s.alive == {}
  {
    if s.blocked {
      ReconcileKeepsOwnedChild(s, env);
    }
  }

  lemma StartKeepsOwnedChild(s: State, sessionId: string, env: Env)
    requires OwnedChild(s) && Possible(s, StartRequest(sessionId, env))
    ensures OwnedChild(Started(s, sessionId, env).0) <==> !Orphans(s, StartRequest(sessionId, env))
  {
    if s.blocked {
      ReconcileKeepsOwnedChild(s, env);
    }
    if Orphans(s, StartRequest(sessionId, env)) {
      NoSecondChild(s, sessionId, env);
      assert env.started.value in Started(s, sessionId, env).0.alive;
    }
  }

  /** One event keeps the invariant exactly if it does not orphan a child. */
  lemma EventKeepsOwnedChild(s: State, e: Event)
    requires OwnedChild(s) && Possible(s, e)
    ensures OwnedChild(Handle(s, e)) <==> !Orphans(s, e)
  {
    match e
    case StartRequest(sessionId, env) => StartKeepsOwnedChild(s, sessionId, env);
    case StopRequest(sessionId, env) =>
    case ReconcileRequest(env) => ReconcileKeepsOwnedChild(s, env);
    case ChildDies(pid) =>
    case ServiceCrash(env) => ReconcileKeepsOwnedChild(FreshAfterCrash(s), env);
  }

  /**
   Over every run without an orphaned child, a living child is both the owner in memory and the
   stored record, and no start request ever creates a process beside it.
   */
  lemma {:induction false} OneOwnedChild(s: State, events: seq<Event>)
    requires OwnedChild(s) && Legal(s, events)
    ensures OwnedChild(Run(s, events))
    ensures forall sessionId, env |
              && Possible(Run(s, events), StartRequest(sessionId, env))
              && CallsRuntime(Run(s, events), env) :: Run(s, events).alive == {}
    decreases |events|
  {
    if events == [] {
      forall sessionId, env | Possible(s, StartRequest(sessionId, env)) && CallsRuntime(s, env)
        ensures s.alive == {}
      {
        NoSecondChild(s, sessionId, env);
      }
    } else {
      EventKeepsOwnedChild(s, events[0]);
      OneOwnedChild(Handle(s, events[0]), events[1..]);
    }
  }

  /** A status that names the living child, as running or in conflict. */
  predicate TellsOfChild(response: Response, alive: set<nat>) {
    forall c <- alive :: response.outcome in {Running, Conflict} && response.child.Some? && response.child.value.pid == c
  }

  /** Over every run without an orphaned child, a living child is never reported as stopped or failed. */
  lemma StatusTellsOfChild(s: State, events: seq<Event>)
    requires OwnedChild(s) && Legal(s, events)
    ensures TellsOfChild(Status(Run(s, events)), Run(s, events).alive)
  {
    OneOwnedChild(s, events);
  }

  /** When a start request goes on to create a process, also out of the blocked state. */
  lemma StartGate(s: State, env: Env)
    ensures CallsRuntime(s, env) <==>
            if s.blocked then
              && (exists a: nat | a < READ_ATTEMPTS :: ReadRecord(s.files, ReadFails(env, a)).Ok?)
              && (s.files.record.None? || (env.inspection.NotLive? && ClearSucceeds(s.files, env.clear)))
            else s.owned.None?
  {
    ResilientReadFailsOnlyIfAllDo(s.files, env, 0);
  }

  /** A stop request ends nothing but the owned child, and that only for its own session. */
  lemma StopEndsOnlyItsOwn(s: State, sessionId: string, env: Env)
    requires StopRequested(s, sessionId, env).0.alive != s.alive
    ensures !s.blocked && !s.conflict && s.owned.Some? && s.owned.value.sessionId == sessionId
    ensures StopRequested(s, sessionId, env).0.alive == s.alive - {s.owned.value.pid}
  {
  }

  /** A reported child failure stays reported until a replacement runs or the service restarts. */
  lemma LastExitStays(s: State, e: Event)
    requires s.lastExit != "" && !e.ServiceCrash?
    ensures Handle(s, e).lastExit != "" <==>
            !(e.StartRequest? && Started(s, e.sessionId, e.env).1.outcome == Running)
  {
    if e.StartRequest? || e.ReconcileRequest? {
      assert Reconciled(s, e.env).0.lastExit != "";
    }
  }

  /** The boundary: a child that could neither be recorded nor stopped is forgotten and shadowed. */
  lemma OrphanIsShadowed(first: string, second: string, env: Env)
    requires env.readFails == [] && env.emergency == Unconfirmed(false) && env.started == Some(7)
    requires env.write == WriteFaults(true, false, false, false, false, false, false)
    ensures
      var s := FreshAfterCrash(State(None, false, false, "", Files(None, false, false), {}));
      var next := env.(started := Some(8), write := WriteFaults(false, false, false, false, false, false, false));
      var events := [StartRequest(first, env), ReconcileRequest(env), StartRequest(second, next)];
      && Orphans(s, events[0])
      && Run(s, events).alive == {7, 8}
      && Run(s, events).owned == Some(Owned(second, 8))
  {
    var s := FreshAfterCrash(State(None, false, false, "", Files(None, false, false), {}));
    var next := env.(started := Some(8), write := WriteFaults(false, false, false, false, false, false, false));
    var e0, e1, e2 := StartRequest(first, env), ReconcileRequest(env), StartRequest(second, next);
    var s1 := Handle(s, e0);
    var s2 := Handle(s1, e1);
    assert s1.alive == {7} && s1.files.record.None?;
    assert s2.owned.None? && s2.alive == {7};
    var s3 := Handle(s2, e2);
    assert s3.alive == {7, 8};
    assert [e0, e1, e2][1..] == [e1, e2] && [e1, e2][1..] == [e2] && [e2][1..] == [];
    assert Run(s3, []) == s3;
    assert Run(s2, [e2]) == s3;
    assert Run(s1, [e1, e2]) == s3;
  }

  // ---------------------------------------------------------------------------
  // What the answers are worth
  // ---------------------------------------------------------------------------

  /** As much of the end of `text` as 4096 bytes hold. */
  predicate IsEndOf(end: string, text: string) {
    |end| <= |text| && text[|text| - |end|..] == end && (|end| == 4096 || |end| == |text| < 4096)
  }

  /** The manager says that nothing is owned, and admits the next start. */
  ghost predicate IsReleased(s: State) {
    && Status(s).outcome in {Stopped, Failed} && Status(s).child.None?
    && (Status(s).outcome.Failed? <==> s.lastExit != "") && IsEndOf(Status(s).detail, s.lastExit)
    && forall env :: CallsRuntime(s, env)
  }

  lemma FreeIsReleased(s: State)
    requires s.owned.None? && !s.blocked && !s.conflict
    ensures IsReleased(s)
  {
  }

  /** After a stop answered stopped nothing is owned any more, and if something was, its record is gone. */
  lemma StoppedIsReleased(s: State, sessionId: string, env: Env)
    requires StopRequested(s, sessionId, env).1.outcome.Stopped?
    ensures
      var t := StopRequested(s, sessionId, env).0;
      && IsReleased(t)
      && (s.owned.Some? ==>
            && ReadRecord(t.files, false) == Ok(None) && !t.files.profile
            && s.owned.value.pid !in t.alive && s.owned.value.sessionId == sessionId)
  {
  }

  /** A stop that is not answered stopped leaves the owner, so that it can be asked for again. */
  lemma UnstoppedIsStillOwned(s: State, sessionId: string, env: Env)
    requires !StopRequested(s, sessionId, env).1.outcome.Stopped?
    ensures
      var (t, r) := StopRequested(s, sessionId, env);
      && t.owned == s.owned && t.blocked == s.blocked && t.conflict == s.conflict
      && (r.outcome.Conflict? ==> t == s)
      && (r.outcome.Conflict? <==> s.blocked || s.conflict || (s.owned.Some? && s.owned.value.sessionId != sessionId))
      && (r.outcome.Stopping? ==> t.files == s.files && r.child == s.owned && env.stop.Unconfirmed?)
      && (r.outcome.Failed? ==> env.stop.Confirmed? && !ClearSucceeds(s.files, env.clear))
  {
  }

  /** What a start answers, and what a status then says. */
  lemma StartAnswers(s: State, sessionId: string, env: Env)
    ensures
      var (t, r) := Started(s, sessionId, env);
      && (r.outcome.Running? ==>
            && r.child.Some? && r.child.value.sessionId == sessionId && r.child.value.pid in t.alive
            && t.files.record == r.child && t.lastExit == ""
            && (!t.conflict ==> Status(t) == r))
      && (r.outcome.Stopping? ==> r.child.Some? && r.child.value.sessionId == sessionId && t.owned == r.child)
      && (r.outcome.Failed? ==> t.owned.None? && t.alive <= s.alive)
      && (r.outcome.Conflict? ==> t.alive == s.alive && t.owned == Recovered(s, env).owned)
      && (r.outcome.Conflict? <==> !CallsRuntime(s, env))
      && (r.outcome.Running? ==> CallsRuntime(s, env) && env.started.Some?)
  {
    if s.blocked {
      ResilientReadFailsOnlyIfAllDo(s.files, env, 0);
    }
  }

  /** A start that can be made is: the runtime starts the child and the record is written. */
  lemma StartSucceeds(s: State, sessionId: string, env: Env)
    ensures
      Started(s, sessionId, env).1.outcome.Running? <==>
        CallsRuntime(s, env) && env.started.Some? && WriteSucceeds(Recovered(s, env).files, env.write)
  {
  }

  /** What a reconcile answers, and what a status then says. */
  lemma ReconcileAnswers(s: State, env: Env)
    ensures
      var (t, r) := Reconciled(s, env);
      var recorded := s.files.record;
      && (r.ok ==>
            && !t.blocked && !t.conflict && t.owned == r.child
            && (r.child.Some? ==> r.outcome.Running? && Status(t) == r && r.child == recorded && env.inspection.Live?)
            && (r.child.None? ==> t.files.record.None?))
      && (r.outcome.Conflict? ==> Status(t) == r.(ok := true) && r.child == recorded && env.inspection.Unknown?)
      && (ResilientRead(s.files, env, 0).Err? ==> t.blocked && Status(t).outcome.Conflict? && t == s.(blocked := true))
      && (r.outcome.Failed? && !r.ok && t.lastExit != s.lastExit ==>
            && recorded.Some? && env.inspection.Exited? && r.detail == t.lastExit == EXITED + env.inspection.detail
            && t.files.record.None? && t.owned.None? && !t.blocked && !t.conflict)
    ensures Reconciled(s, env).1.ok && Reconciled(s, env).1.child.None? ==> IsReleased(Reconciled(s, env).0)
  {
    ResilientReadFailsOnlyIfAllDo(s.files, env, 0);
    if Reconciled(s, env).1.ok && Reconciled(s, env).1.child.None? {
      FreeIsReleased(Reconciled(s, env).0);
    }
  }

  /** The reconcile that finds a readable record finds the child or clears the record. */
  lemma ReconcileSettles(s: State, env: Env)
    requires ResilientRead(s.files, env, 0).Ok? && s.files.record.Some?
    ensures
      var (t, r) := Reconciled(s, env);
      match env.inspection
      case Live => r.outcome.Running? && t.files == s.files
      case Unknown => r.outcome.Conflict? && t.files == s.files
      case _ =>
        if ClearSucceeds(s.files, env.clear) then
          t.owned.None? && !t.blocked && !t.conflict && t.files.record.None? && !t.files.profile
        else r.outcome.Failed? && !r.ok && t.owned == s.owned && t.blocked == s.blocked && t.conflict == s.conflict
  {
    ResilientReadFailsOnlyIfAllDo(s.files, env, 0);
  }

  // ---------------------------------------------------------------------------
  // Running means recorded
  // ---------------------------------------------------------------------------

  /** Whoever the manager owns is on record. */
  ghost predicate OwnedIsRecorded(s: State) {
    s.owned.Some? ==> s.files.record == s.owned
  }

  /** The record went away, the session profile did not. */
  predicate HalfClears(f: Files, faults: ClearFaults) {
    f.record.Some? && !faults.record && f.profile && faults.profile
  }

  /** A reconcile that finds the owned child gone and clears its record only. */
  predicate HalfReconciles(s: State, env: Env) {
    && s.owned.Some? && ResilientRead(s.files, env, 0).Ok? && s.files.record.Some?
    && (env.inspection.NotLive? || env.inspection.Exited?)
    && HalfClears(s.files, env.clear)
  }

  /** The request leaves an owner whose record was not written, or is gone. */
  predicate Unrecords(s: State, e: Event) {
    match e
    case StartRequest(sessionId, env) =>
      || (s.blocked && HalfReconciles(s, env))
      || (CallsRuntime(s, env) && env.started.Some? && !WriteSucceeds(Recovered(s, env).files, env.write) &&
          env.emergency != Confirmed && Recovered(s, env).files.record != Some(Owned(sessionId, env.started.value)))
    case StopRequest(sessionId, env) =>
      && !s.blocked && !s.conflict && s.owned.Some? && s.owned.value.sessionId == sessionId
      && env.stop.Confirmed? && HalfClears(s.files, env.clear)
    case ReconcileRequest(env) => HalfReconciles(s, env)
    case ChildDies(_) => false
    case ServiceCrash(_) => false
  }

  lemma ReconcileKeepsRecorded(s: State, env: Env)
    requires OwnedIsRecorded(s)
    ensures OwnedIsRecorded(Reconciled(s, env).0) <==> !HalfReconciles(s, env)
  {
    ResilientReadFailsOnlyIfAllDo(s.files, env, 0);
  }

  lemma StartKeepsRecorded(s: State, sessionId: string, env: Env)
    requires OwnedIsRecorded(s)
    ensures OwnedIsRecorded(Started(s, sessionId, env).0) <==> !Unrecords(s, StartRequest(sessionId, env))
  {
    if s.blocked {
      ReconcileKeepsRecorded(s, env);
    }
  }

  /** One event keeps the owner on record exactly if it is none of these. */
  lemma EventKeepsRecorded(s: State, e: Event)
    requires OwnedIsRecorded(s)
    ensures OwnedIsRecorded(Handle(s, e)) <==> !Unrecords(s, e)
  {
    match e
    case StartRequest(sessionId, env) => StartKeepsRecorded(s, sessionId, env);
    case StopRequest(sessionId, env) =>
    case ReconcileRequest(env) => ReconcileKeepsRecorded(s, env);
    case ChildDies(pid) =>
    case ServiceCrash(env) => ReconcileKeepsRecorded(FreshAfterCrash(s), env);
  }

  predicate NothingUnrecorded(s: State, events: seq<Event>)
    decreases |events|
  {
    events == [] || (!Unrecords(s, events[0]) && NothingUnrecorded(Handle(s, events[0]), events[1..]))
  }

  /** Over every run without such an event a status that answers running names the stored record. */
  lemma {:induction false} RunningIsRecorded(s: State, events: seq<Event>)
    requires OwnedIsRecorded(s) && NothingUnrecorded(s, events)
    ensures
      var t := Run(s, events);
      OwnedIsRecorded(t) && (Status(t).outcome.Running? ==> Status(t).child == t.files.record && t.files.record.Some?)
    decreases |events|
  {
    if events != [] {
      EventKeepsRecorded(s, events[0]);
      RunningIsRecorded(Handle(s, events[0]), events[1..]);
    }
  }

  // ---------------------------------------------------------------------------
  // The last failure
  // ---------------------------------------------------------------------------

  /** A reconcile would see that the recorded child has exited, and clear it away. */
  predicate SeesExit(s: State, env: Env) {
    && ResilientRead(s.files, env, 0).Ok? && s.files.record.Some?
    && env.inspection.Exited? && ClearSucceeds(s.files, env.clear)
  }

  /** The event replaces the remembered failure: another one, a running child, or a new service. */
  predicate Replaces(s: State, e: Event) {
    match e
    case ServiceCrash(_) => true
    case ReconcileRequest(env) => SeesExit(s, env)
    case StartRequest(sessionId, env) =>
      (s.blocked && SeesExit(s, env)) || Started(s, sessionId, env).1.outcome.Running?
    case _ => false
  }

  predicate NothingReplaces(s: State, events: seq<Event>)
    decreases |events|
  {
    events == [] || (!Replaces(s, events[0]) && NothingReplaces(Handle(s, events[0]), events[1..]))
  }

  lemma LastExitStaysAfter(s: State, e: Event)
    requires !Replaces(s, e)
    ensures Handle(s, e).lastExit == s.lastExit
  {
    if e.StartRequest? || e.ReconcileRequest? {
      ResilientReadFailsOnlyIfAllDo(s.files, e.env, 0);
    }
  }

  lemma {:induction false} LastExitLasts(s: State, events: seq<Event>)
    requires NothingReplaces(s, events)
    ensures Run(s, events).lastExit == s.lastExit
    decreases |events|
  {
    if events != [] {
      LastExitStaysAfter(s, events[0]);
      LastExitLasts(Handle(s, events[0]), events[1..]);
    }
  }

  /** A seen exit is what every idle status reports, until something replaces it. */
  lemma ExitIsReported(s: State, env: Env, after: seq<Event>)
    requires SeesExit(s, env) && NothingReplaces(Reconciled(s, env).0, after)
    ensures
      var t := Run(Reconciled(s, env).0, after);
      Status(t).child.None? && !Status(t).outcome.Conflict? ==>
        Status(t).outcome.Failed? && IsEndOf(Status(t).detail, EXITED + env.inspection.detail)
  {
    ResilientReadFailsOnlyIfAllDo(s.files, env, 0);
    LastExitLasts(Reconciled(s, env).0, after);
  }
}
