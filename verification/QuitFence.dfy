/**
 The quit path of src-tauri/src/lifecycle.rs: two fence bits, the single-flight flag and the
 runtime gate, as a step machine over every interleaving of quits, forced quits, session ends and
 guarded mutations; and the functions over the atomics as an object.
 */
module QuitFence {
  import opened Wrappers

  // ---------------------------------------------------------------------------
  // State
  // ---------------------------------------------------------------------------

  /** Where the quit in flight stands. */
  datatype Phase =
    | Idle
    | Claimed
    | Fenced
    | Draining
    | Drained
    | Ready
    | RestoreWaiting
    | Restoring(failures: nat)
    | Restored
    | Unrestored
    | RestoreOk
    | StopWaiting
    | Stopping
    | Disposing(kernelStopped: bool)
    | Finished(kernelStopped: bool)
    | Failed
    | Cancelled
    | Leaving
    | Forcing

  datatype Owner = Mutation(id: nat) | Quit

  /** A mutation first enters and then looks at the fence. */
  datatype Gate = Free | Entered(id: nat) | Running(id: nat) | Shutdown

  /**
   `proxyOwned`: the system proxy points at the kernel. `shut`: a shutdown step has held the gate
   since a fence bit was last clear. `fences`: how many quits have set the ordinary bit since it was last
   cleared. `forced`: a forced quit is under way. These three are history.
   */
  datatype State = State(
    session: bool,
    ordinary: bool,
    inFlight: bool,
    phase: Phase,
    sessionQuit: bool,
    gate: Gate,
    waiting: seq<Owner>,
    proxyOwned: bool,
    kernelRunning: bool,
    exited: bool,
    shut: bool,
    fences: nat,
    forced: bool)

  predicate IsQuitting(s: State) {
    s.session || s.ordinary
  }

  function Initial(proxyOwned: bool, kernelRunning: bool): State {
    State(false, false, false, Idle, false, Free, [], proxyOwned, kernelRunning, false, false, 0, false)
  }

  const RESTORE_ATTEMPTS: nat := 3

  // ---------------------------------------------------------------------------
  // Steps
  // ---------------------------------------------------------------------------

  /** The quit in flight. */
  datatype QuitEvent =
    | Begin(sessionEnding: bool)
    | Fence
    | AskDrain
    | DrainDone
    | DrainTimesOut(place: nat)
    | AskRestore
    | Restore(ok: bool)
    | LeaveRestore
    | AskStop
    | StopKernel(ok: bool)
    | Dispose
    | FlowTimesOut(place: nat)
    | Cancel
    | Release

  /** Everybody else. */
  datatype OtherEvent =
    | Grant
    | Request(id: nat)
    | Abandon(place: nat)
    | Check
    | Act(proxyOwned: bool, kernelRunning: bool)
    | Finish
    | MarkSession
    | Force
    | ForcedRestore
    | Exit

  datatype Event = ByQuit(quit: QuitEvent) | ByOther(other: OtherEvent)

  /** The shutdown waits for the gate. */
  predicate Waits(phase: Phase) {
    phase.Draining? || phase.RestoreWaiting? || phase.StopWaiting?
  }

  /** The shutdown holds the gate. */
  predicate Holds(phase: Phase) {
    phase.Drained? || phase.Restoring? || phase.Restored? || phase.Unrestored? || phase.Stopping?
  }

  /** The steps under the deadline of the whole flow. */
  predicate UnderDeadline(phase: Phase) {
    || phase.RestoreWaiting? || phase.Restoring? || phase.Restored? || phase.Unrestored? || phase.RestoreOk?
    || phase.StopWaiting? || phase.Stopping? || phase.Disposing?
  }

  predicate WaitsAt(s: State, place: nat) {
    place < |s.waiting| && s.waiting[place].Quit?
  }

  predicate Enabled(s: State, e: Event) {
    && !s.exited
    && match e { case ByQuit(q) => QuitEnabled(s, q) case ByOther(o) => OtherEnabled(s, o) }
  }

  predicate QuitEnabled(s: State, e: QuitEvent) {
    match e
    case Begin(_) => true
    case Fence => s.phase.Claimed?
    case AskDrain => s.phase.Fenced?
    case DrainDone => s.phase.Drained?
    case DrainTimesOut(place) => s.phase.Draining? && WaitsAt(s, place)
    case AskRestore => s.phase.Ready?
    case Restore(_) => s.phase.Restoring?
    case LeaveRestore => s.phase.Restored? || s.phase.Unrestored?
    case AskStop => s.phase.RestoreOk?
    case StopKernel(_) => s.phase.Stopping?
    case Dispose => s.phase.Disposing?
    case FlowTimesOut(place) => UnderDeadline(s.phase) && (Waits(s.phase) ==> WaitsAt(s, place))
    case Cancel => s.phase.Failed?
    case Release => s.phase.Cancelled?
  }

  predicate OtherEnabled(s: State, e: OtherEvent) {
    match e
    case Grant => s.gate.Free? && s.waiting != []
    case Abandon(place) => place < |s.waiting| && s.waiting[place].Mutation?
    case Check => s.gate.Entered?
    case Act(_, _) => s.gate.Running?
    case Finish => s.gate.Running?
    case ForcedRestore => s.forced
    case Exit => s.forced || s.phase.Finished? || s.phase.Leaving?
    case Request(_) => true
    case MarkSession => true
    case Force => true
  }

  function Without(waiting: seq<Owner>, place: nat): seq<Owner>
    requires place < |waiting|
  {
    waiting[..place] + waiting[place + 1..]
  }

  function Take(s: State, e: Event): State
    requires Enabled(s, e)
  {
    match e
    case ByQuit(q) => TakeQuit(s, q)
    case ByOther(o) => TakeOther(s, o)
  }

  function TakeQuit(s: State, e: QuitEvent): (t: State)
    requires QuitEnabled(s, e)
    ensures t.session == s.session
    ensures t.kernelRunning == s.kernelRunning || e == StopKernel(true)
    ensures s.shut && (s.session || e != Cancel) ==> t.shut
  {
    match e
    case Begin(sessionEnding) =>
      s.(
        inFlight := true,
        phase := if s.inFlight then s.phase else Claimed,
        sessionQuit := if s.inFlight then s.sessionQuit else sessionEnding)
    case Fence => s.(ordinary := true, fences := s.fences + 1, phase := Fenced)
    case AskDrain => s.(waiting := s.waiting + [Quit], phase := Draining)
    case DrainDone => s.(gate := Free, phase := Ready)
    case DrainTimesOut(place) => s.(waiting := Without(s.waiting, place), phase := Ready)
    case AskRestore => s.(waiting := s.waiting + [Quit], phase := RestoreWaiting)
    case Restore(ok) => s.(proxyOwned := s.proxyOwned && !ok, phase := AfterAttempt(s.phase.failures, ok))
    case LeaveRestore => s.(gate := Free, phase := if s.phase.Restored? then RestoreOk else Failed)
    case AskStop => s.(waiting := s.waiting + [Quit], phase := StopWaiting)
    case StopKernel(ok) => s.(kernelRunning := s.kernelRunning && !ok, gate := Free, phase := Disposing(ok))
    case Dispose => s.(phase := Finished(s.phase.kernelStopped))
    case FlowTimesOut(place) => TimedOut(s, place)
    case Cancel =>
      s.(
        ordinary := s.ordinary && s.sessionQuit,
        fences := if s.sessionQuit then s.fences else 0,
        phase := if s.sessionQuit then Leaving else Cancelled,
        shut := s.shut && (s.session || s.sessionQuit))
    case Release => s.(inFlight := false, phase := Idle)
  }

  function AfterAttempt(failures: nat, ok: bool): Phase {
    if ok then Restored else if failures + 1 < RESTORE_ATTEMPTS then Restoring(failures + 1) else Unrestored
  }

  /** The flow is dropped where it stands, and the forced path starts. */
  function TimedOut(s: State, place: nat): State
    requires Waits(s.phase) ==> WaitsAt(s, place)
  {
    s.(
      waiting := if Waits(s.phase) then Without(s.waiting, place) else s.waiting,
      gate := if Holds(s.phase) then Free else s.gate,
      phase := Forcing,
      ordinary := true,
      forced := true)
  }

  function TakeOther(s: State, e: OtherEvent): (t: State)
    requires OtherEnabled(s, e)
    ensures (s.session ==> t.session) && (s.shut ==> t.shut)
    ensures t.kernelRunning == s.kernelRunning || e.Act?
  {
    match e
    case Grant => Granted(s, s.waiting[0])
    case Request(id) => s.(waiting := s.waiting + [Mutation(id)])
    case Abandon(place) => s.(waiting := Without(s.waiting, place))
    case Check => s.(gate := if IsQuitting(s) then Free else Running(s.gate.id))
    case Act(proxyOwned, kernelRunning) => s.(proxyOwned := proxyOwned, kernelRunning := kernelRunning)
    case Finish => s.(gate := Free)
    case MarkSession => s.(session := true)
    case Force => s.(ordinary := true, forced := true)
    case ForcedRestore => s.(proxyOwned := false)
    case Exit => s.(exited := true)
  }

  /** The shutdown step that the gate is granted to. */
  function GrantedPhase(phase: Phase): Phase {
    if phase.Draining? then Drained else if phase.RestoreWaiting? then Restoring(0) else Stopping
  }

  function Granted(s: State, owner: Owner): State
    requires s.waiting != []
  {
    s.(
      waiting := s.waiting[1..],
      gate := if owner.Mutation? then Entered(owner.id) else Shutdown,
      shut := s.shut || owner.Quit?,
      phase := if owner.Quit? then GrantedPhase(s.phase) else s.phase)
  }

  predicate Legal(s: State, events: seq<Event>)
    decreases |events|
  {
    events == [] || (Enabled(s, events[0]) && Legal(Take(s, events[0]), events[1..]))
  }

  function Exec(s: State, events: seq<Event>): State
    requires Legal(s, events)
    decreases |events|
  {
    if events == [] then s else Exec(Take(s, events[0]), events[1..])
  }

  // ---------------------------------------------------------------------------
  // The invariant
  // ---------------------------------------------------------------------------

  /** The quit in flight has its fence up. */
  predicate FenceUp(phase: Phase) {
    !phase.Idle? && !phase.Claimed? && !phase.Cancelled?
  }

  /** Restored and not yet handed back. */
  predicate ProxyBack(phase: Phase) {
    phase.Restored? || phase.RestoreOk? || phase.StopWaiting? || phase.Stopping? || phase.Disposing? || phase.Finished?
  }

  predicate GateInv(s: State) {
    && (s.gate.Shutdown? <==> Holds(s.phase))
    && multiset(s.waiting)[Quit] == if Waits(s.phase) then 1 else 0
  }

  predicate BitInv(s: State) {
    && (s.inFlight <==> !s.phase.Idle?)
    && s.fences == (if FenceUp(s.phase) then 1 else 0)
    && (s.fences > 0 ==> s.ordinary)
    && (s.ordinary ==> s.fences > 0 || s.forced)
  }

  predicate FenceInv(s: State) {
    && (s.shut ==> IsQuitting(s) && !s.gate.Running?)
    && (Holds(s.phase) || s.phase.Failed? || ProxyBack(s.phase) ==> s.shut)
    && (ProxyBack(s.phase) ==> !s.proxyOwned)
    && ((s.phase.Disposing? || s.phase.Finished?) && s.phase.kernelStopped ==> !s.kernelRunning)
  }

  predicate Inv(s: State) {
    GateInv(s) && BitInv(s) && FenceInv(s)
  }

  lemma WithoutCount(waiting: seq<Owner>, place: nat)
    requires place < |waiting|
    ensures multiset(Without(waiting, place)) == multiset(waiting) - multiset{waiting[place]}
  {
    assert waiting == waiting[..place] + [waiting[place]] + waiting[place + 1..];
  }

  lemma ClaimKeepsInv(s: State, e: QuitEvent)
    requires Inv(s) && QuitEnabled(s, e) && (e.Begin? || e.Fence? || e.Cancel? || e.Release?)
    ensures Inv(TakeQuit(s, e))
  {
  }

  lemma AskKeepsInv(s: State, e: QuitEvent)
    requires Inv(s) && QuitEnabled(s, e) && (e.AskDrain? || e.AskRestore? || e.AskStop?)
    ensures Inv(TakeQuit(s, e))
  {
  }

  lemma HoldKeepsInv(s: State, e: QuitEvent)
    requires Inv(s) && QuitEnabled(s, e)
    requires e.DrainDone? || e.Restore? || e.LeaveRestore? || e.StopKernel? || e.Dispose?
    ensures Inv(TakeQuit(s, e))
  {
  }

  lemma DrainTimeoutKeepsInv(s: State, place: nat)
    requires Inv(s) && QuitEnabled(s, DrainTimesOut(place))
    ensures Inv(TakeQuit(s, DrainTimesOut(place)))
  {
    WithoutCount(s.waiting, place);
  }

  lemma TimeoutKeepsInv(s: State, place: nat)
    requires Inv(s) && UnderDeadline(s.phase) && (Waits(s.phase) ==> WaitsAt(s, place))
    ensures Inv(TimedOut(s, place))
  {
    var t := TimedOut(s, place);
    if Waits(s.phase) {
      WithoutCount(s.waiting, place);
    }
    assert GateInv(t);
    assert BitInv(t);
  }

  lemma GrantQuitKeepsInv(s: State)
    requires Inv(s) && s.gate.Free? && s.waiting != [] && s.waiting[0].Quit?
    ensures Inv(TakeOther(s, Grant))
  {
    var rest := s.waiting[1..];
    assert s.waiting == [Quit] + rest;
    assert multiset(rest)[Quit] == 0 && Waits(s.phase);
    assert Holds(GrantedPhase(s.phase));
  }

  lemma GrantMutationKeepsInv(s: State)
    requires Inv(s) && s.gate.Free? && s.waiting != [] && s.waiting[0].Mutation?
    ensures Inv(TakeOther(s, Grant))
  {
    var rest := s.waiting[1..];
    assert s.waiting == [s.waiting[0]] + rest;
    assert multiset(rest)[Quit] == multiset(s.waiting)[Quit];
  }

  lemma OtherKeepsInv(s: State, e: OtherEvent)
    requires Inv(s) && OtherEnabled(s, e) && !e.Grant?
    ensures Inv(TakeOther(s, e))
  {
    if e.Abandon? {
      WithoutCount(s.waiting, e.place);
    }
  }

  lemma QuitKeepsInv(s: State, e: QuitEvent)
    requires Inv(s) && QuitEnabled(s, e)
    ensures Inv(TakeQuit(s, e))
  {
    if e.DrainTimesOut? {
      DrainTimeoutKeepsInv(s, e.place);
    } else if e.FlowTimesOut? {
      TimeoutKeepsInv(s, e.place);
    } else if e.Begin? || e.Fence? || e.Cancel? || e.Release? {
      ClaimKeepsInv(s, e);
    } else if e.AskDrain? || e.AskRestore? || e.AskStop? {
      AskKeepsInv(s, e);
    } else {
      HoldKeepsInv(s, e);
    }
  }

  lemma TakeKeepsInv(s: State, e: Event)
    requires Inv(s) && Enabled(s, e)
    ensures Inv(Take(s, e))
  {
    match e
    case ByQuit(q) => QuitKeepsInv(s, q);
    case ByOther(o) =>
      if o == Grant {
        if s.waiting[0].Quit? {
          GrantQuitKeepsInv(s);
        } else {
          GrantMutationKeepsInv(s);
        }
      } else {
        OtherKeepsInv(s, o);
      }
  }

  lemma {:induction false} RunKeepsInv(s: State, events: seq<Event>)
    requires Inv(s) && Legal(s, events)
    ensures Inv(Exec(s, events))
    decreases |events|
  {
    if events != [] {
      TakeKeepsInv(s, events[0]);
      RunKeepsInv(Take(s, events[0]), events[1..]);
    }
  }

  // ---------------------------------------------------------------------------
  // What it gives
  // ---------------------------------------------------------------------------

  /** A guarded mutation does something. */
  predicate IsAct(e: Event) {
    e.ByOther? && e.other.Act?
  }

  /** No mutation has acted, and no quit was cancelled. */
  predicate Untouched(events: seq<Event>) {
    forall e <- events :: !IsAct(e) && e != ByQuit(Cancel)
  }

  lemma {:induction false} StaysShut(s: State, events: seq<Event>)
    requires Inv(s) && s.shut && Legal(s, events)
    requires s.session || ByQuit(Cancel) !in events
    ensures Inv(Exec(s, events)) && Exec(s, events).shut
    ensures forall e <- events :: !IsAct(e)
    decreases |events|
  {
    if events != [] {
      TakeKeepsInv(s, events[0]);
      StaysShut(Take(s, events[0]), events[1..]);
    }
  }

  /**
   Once a shutdown step has held the gate, no guarded mutation runs or acts before that quit is
   cancelled, and none at all if the session is ending.
   */
  lemma FenceHolds(start: State, before: seq<Event>, after: seq<Event>)
    requires start == Initial(start.proxyOwned, start.kernelRunning)
    requires Legal(start, before) && Legal(Exec(start, before), after)
    requires Holds(Exec(start, before).phase)
    requires Exec(start, before).session || ByQuit(Cancel) !in after
    ensures
      var end := Exec(Exec(start, before), after);
      IsQuitting(end) && !end.gate.Running? && forall e <- after :: !IsAct(e)
  {
    RunKeepsInv(start, before);
    StaysShut(Exec(start, before), after);
  }

  /** Nothing clears the session bit. */
  lemma {:induction false} SessionEndStays(s: State, events: seq<Event>)
    requires s.session && Legal(s, events)
    ensures Exec(s, events).session
    decreases |events|
  {
    if events != [] {
      SessionEndStays(Take(s, events[0]), events[1..]);
    }
  }

  /**
   A cancelled quit clears no fence of another quit, opens the fence exactly if the session is not
   ending, and then takes it away from a forced quit exactly if one is under way.
   */
  lemma CancelClearsItsOwn(start: State, events: seq<Event>)
    requires start == Initial(start.proxyOwned, start.kernelRunning) && Legal(start, events)
    requires Enabled(Exec(start, events), ByQuit(Cancel)) && !Exec(start, events).sessionQuit
    ensures
      var s := Exec(start, events);
      var t := Take(s, ByQuit(Cancel));
      && s.fences == 1
      && (IsQuitting(t) <==> s.session)
      && (t.forced && !IsQuitting(t) <==> s.forced && !s.session)
  {
    RunKeepsInv(start, events);
  }

  /** When a new quit raises its fence, that of an earlier one is gone. */
  lemma FencesDoNotOverlap(start: State, events: seq<Event>)
    requires start == Initial(start.proxyOwned, start.kernelRunning) && Legal(start, events)
    requires Enabled(Exec(start, events), ByQuit(Fence))
    ensures Exec(start, events).fences == 0
  {
    RunKeepsInv(start, events);
  }

  /** A restore was confirmed, and since then no mutation has acted and no quit was cancelled. */
  predicate Confirmed(events: seq<Event>) {
    exists i | 0 <= i < |events| :: events[i] == ByQuit(Restore(true)) && Untouched(events[i + 1..])
  }

  lemma ConfirmedBefore(e: Event, events: seq<Event>)
    requires Confirmed(events)
    ensures Confirmed([e] + events)
  {
    var i :| 0 <= i < |events| && events[i] == ByQuit(Restore(true)) && Untouched(events[i + 1..]);
    var longer, k := [e] + events, i + 1;
    assert longer[k + 1..] == events[i + 1..];
    assert longer[k] == ByQuit(Restore(true)) && Untouched(longer[k + 1..]);
  }

  lemma {:induction false} RestoredMeansConfirmed(s: State, events: seq<Event>)
    requires Inv(s) && Legal(s, events) && ProxyBack(Exec(s, events).phase)
    ensures Confirmed(events) || (ProxyBack(s.phase) && Untouched(events))
    decreases |events|
  {
    if events != [] {
      var e := events[0];
      assert events == [e] + events[1..];
      TakeKeepsInv(s, e);
      RestoredMeansConfirmed(Take(s, e), events[1..]);
      if Confirmed(events[1..]) {
        ConfirmedBefore(e, events[1..]);
      } else if e == ByQuit(Restore(true)) {
        assert events[0] == ByQuit(Restore(true)) && Untouched(events[0 + 1..]);
      } else {
        BackBefore(s, e);
      }
    }
  }

  lemma EarlyStepBack(s: State, e: QuitEvent)
    requires QuitEnabled(s, e) && ProxyBack(TakeQuit(s, e).phase)
    requires e.Begin? || e.Fence? || e.AskDrain? || e.DrainDone? || e.DrainTimesOut? || e.AskRestore?
    ensures ProxyBack(s.phase)
  {
  }

  lemma LateStepBack(s: State, e: QuitEvent)
    requires QuitEnabled(s, e) && ProxyBack(TakeQuit(s, e).phase)
    requires e == Restore(false) || e.LeaveRestore? || e.AskStop? || e.StopKernel? || e.Dispose?
    ensures ProxyBack(s.phase)
  {
  }

  lemma EndStepBack(s: State, e: QuitEvent)
    requires QuitEnabled(s, e) && (e.FlowTimesOut? || e.Cancel? || e.Release?)
    ensures !ProxyBack(TakeQuit(s, e).phase)
  {
  }

  lemma OtherStepBack(s: State, e: OtherEvent)
    requires Inv(s) && OtherEnabled(s, e) && ProxyBack(TakeOther(s, e).phase)
    ensures ProxyBack(s.phase) && !e.Act?
  {
    if e.Grant? {
      assert s.waiting == [s.waiting[0]] + s.waiting[1..];
      assert s.waiting[0].Quit? ==> Waits(s.phase);
    } else {
      assert TakeOther(s, e).phase == s.phase;
    }
  }

  /** The proxy is back before a step and after it, or the step is the restore. */
  lemma BackBefore(s: State, e: Event)
    requires Inv(s) && Enabled(s, e) && e != ByQuit(Restore(true)) && ProxyBack(Take(s, e).phase)
    ensures ProxyBack(s.phase) && !IsAct(e) && e != ByQuit(Cancel)
  {
    match e
    case ByQuit(q) =>
      if q.Begin? || q.Fence? || q.AskDrain? || q.DrainDone? || q.DrainTimesOut? || q.AskRestore? {
        EarlyStepBack(s, q);
      } else if q.FlowTimesOut? || q.Cancel? || q.Release? {
        EndStepBack(s, q);
      } else {
        LateStepBack(s, q);
      }
    case ByOther(o) => OtherStepBack(s, o);
  }

  /**
   Apart from a guarded mutation nothing stops the kernel but the flow, and that only after a confirmed
   restore of this quit, with the proxy still given back although the gate was free in between.
   */
  lemma KernelStopsAfterRestore(start: State, events: seq<Event>, e: Event)
    requires start == Initial(start.proxyOwned, start.kernelRunning) && Legal(start, events)
    requires Enabled(Exec(start, events), e) && !IsAct(e)
    requires Exec(start, events).kernelRunning && !Take(Exec(start, events), e).kernelRunning
    ensures e == ByQuit(StopKernel(true)) && Confirmed(events) && !Exec(start, events).proxyOwned
  {
    RunKeepsInv(start, events);
    RestoredMeansConfirmed(start, events);
  }

  /** A finished flow has left the proxy given back, and the kernel stopped if its stop went through. */
  lemma FinishedIsClean(start: State, events: seq<Event>)
    requires start == Initial(start.proxyOwned, start.kernelRunning) && Legal(start, events)
    requires Exec(start, events).phase.Finished?
    ensures Confirmed(events) && !Exec(start, events).proxyOwned
    ensures Exec(start, events).phase.kernelStopped ==> !Exec(start, events).kernelRunning
  {
    RunKeepsInv(start, events);
    RestoredMeansConfirmed(start, events);
  }

  // ---------------------------------------------------------------------------
  // The order of the flow
  // ---------------------------------------------------------------------------

  /** What the quit flow calls; the attempts to restore are one call. */
  datatype Call = RestoreProxy | Stop | DisposeServices

  /** The calls of the quit that raised its fence last, by the events alone. */
  function CallsMade(events: seq<Event>): seq<Call> {
    if events == [] then []
    else WithCall(CallsMade(events[..|events| - 1]), events[|events| - 1])
  }

  function WithCall(calls: seq<Call>, e: Event): seq<Call> {
    if e == ByQuit(Fence) then []
    else if e == ByQuit(LeaveRestore) then calls + [RestoreProxy]
    else if e.ByQuit? && e.quit.StopKernel? then calls + [Stop]
    else if e == ByQuit(Dispose) then calls + [DisposeServices]
    else calls
  }

  /** How many calls a flow in this phase has made, if it has begun and still matters. */
  function Reached(phase: Phase): Option<nat> {
    if phase.Idle? || phase.Claimed? || phase.Forcing? then None
    else if phase.RestoreOk? || phase.StopWaiting? || phase.Stopping? then Some(1)
    else if phase.Failed? || phase.Cancelled? || phase.Leaving? then Some(1)
    else if phase.Disposing? then Some(2)
    else if phase.Finished? then Some(3)
    else Some(0)
  }

  /** The first `n` calls of a flow. */
  function FirstCalls(n: nat): seq<Call> {
    if n == 0 then [] else if n == 1 then [RestoreProxy] else if n == 2 then [RestoreProxy, Stop]
    else [RestoreProxy, Stop, DisposeServices]
  }

  predicate CallsAt(phase: Phase, calls: seq<Call>) {
    Reached(phase).Some? ==> calls == FirstCalls(Reached(phase).value)
  }

  lemma CallsFollow()
    ensures FirstCalls(0) + [RestoreProxy] == FirstCalls(1)
    ensures FirstCalls(1) + [Stop] == FirstCalls(2)
    ensures FirstCalls(2) + [DisposeServices] == FirstCalls(3)
  {
  }

  /** A step from one phase to another is one further if it is a call, and no further otherwise. */
  predicate Reaches(from: Phase, e: QuitEvent, to: Phase) {
    if e.Fence? then Reached(to) == Some(0)
    else if e.LeaveRestore? then Reached(from) == Some(0) && Reached(to) == Some(1)
    else if e.StopKernel? then Reached(from) == Some(1) && Reached(to) == Some(2)
    else if e.Dispose? then Reached(from) == Some(2) && Reached(to) == Some(3)
    else Reached(to).None? || Reached(to) == Reached(from)
  }

  lemma EarlyReaches(s: State, e: QuitEvent)
    requires QuitEnabled(s, e) && (e.Begin? || e.Fence? || e.AskDrain? || e.DrainDone?)
    ensures Reaches(s.phase, e, TakeQuit(s, e).phase)
  {
  }

  lemma MiddleReaches(s: State, e: QuitEvent)
    requires QuitEnabled(s, e) && (e.DrainTimesOut? || e.AskRestore? || e.Restore? || e.LeaveRestore?)
    ensures Reaches(s.phase, e, TakeQuit(s, e).phase)
  {
  }

  lemma LateReaches(s: State, e: QuitEvent)
    requires QuitEnabled(s, e) && (e.AskStop? || e.StopKernel? || e.Dispose?)
    ensures Reaches(s.phase, e, TakeQuit(s, e).phase)
  {
  }

  lemma EndReaches(s: State, e: QuitEvent)
    requires QuitEnabled(s, e) && (e.FlowTimesOut? || e.Cancel? || e.Release?)
    ensures Reaches(s.phase, e, TakeQuit(s, e).phase)
  {
  }

  lemma QuitReaches(s: State, e: QuitEvent)
    requires QuitEnabled(s, e)
    ensures Reaches(s.phase, e, TakeQuit(s, e).phase)
  {
    if e.Begin? || e.Fence? || e.AskDrain? || e.DrainDone? {
      EarlyReaches(s, e);
    } else if e.DrainTimesOut? || e.AskRestore? || e.Restore? || e.LeaveRestore? {
      MiddleReaches(s, e);
    } else if e.AskStop? || e.StopKernel? || e.Dispose? {
      LateReaches(s, e);
    } else {
      EndReaches(s, e);
    }
  }

  lemma QuitKeepsCalls(s: State, e: QuitEvent, calls: seq<Call>)
    requires QuitEnabled(s, e) && CallsAt(s.phase, calls)
    ensures CallsAt(TakeQuit(s, e).phase, WithCall(calls, ByQuit(e)))
  {
    QuitReaches(s, e);
    CallsFollow();
  }

  lemma GrantedPhaseReaches(phase: Phase)
    requires Waits(phase)
    ensures Reached(GrantedPhase(phase)) == Reached(phase)
  {
  }

  lemma GrantReaches(s: State)
    requires GateInv(s) && s.waiting != []
    ensures Reached(Granted(s, s.waiting[0]).phase) == Reached(s.phase)
  {
    assert Granted(s, s.waiting[0]).phase == if s.waiting[0].Quit? then GrantedPhase(s.phase) else s.phase;
    if s.waiting[0].Quit? {
      assert s.waiting == [s.waiting[0]] + s.waiting[1..];
      GrantedPhaseReaches(s.phase);
    }
  }

  lemma MutationsKeepThePhase(s: State, e: OtherEvent)
    requires OtherEnabled(s, e) && (e.Request? || e.Abandon? || e.Check? || e.Act? || e.Finish?)
    ensures TakeOther(s, e).phase == s.phase
  {
  }

  lemma OthersKeepThePhase(s: State, e: OtherEvent)
    requires OtherEnabled(s, e) && (e.MarkSession? || e.Force? || e.ForcedRestore? || e.Exit?)
    ensures TakeOther(s, e).phase == s.phase
  {
  }

  lemma OtherReaches(s: State, e: OtherEvent)
    requires GateInv(s) && OtherEnabled(s, e)
    ensures Reached(TakeOther(s, e).phase) == Reached(s.phase)
  {
    if e.Grant? {
      GrantReaches(s);
    } else if e.Request? || e.Abandon? || e.Check? || e.Act? || e.Finish? {
      MutationsKeepThePhase(s, e);
    } else {
      OthersKeepThePhase(s, e);
    }
  }

  /** A run by its last event. */
  lemma {:induction false} SplitLast(s: State, events: seq<Event>)
    requires Legal(s, events) && events != []
    ensures
      var first, e := events[..|events| - 1], events[|events| - 1];
      Legal(s, first) && Enabled(Exec(s, first), e) && Exec(s, events) == Take(Exec(s, first), e)
    decreases |events|
  {
    if |events| == 1 {
      assert events == [events[0]] + [];
      assert Legal(Take(s, events[0]), []);
      Prepend(s, events[0], []);
    } else {
      SplitLast(Take(s, events[0]), events[1..]);
      assert events[1..][..|events| - 2] == events[..|events| - 1][1..];
    }
  }

  lemma {:induction false} CallsFollowPhases(start: State, events: seq<Event>)
    requires Inv(start) && CallsAt(start.phase, []) && Legal(start, events)
    ensures CallsAt(Exec(start, events).phase, CallsMade(events))
    decreases |events|
  {
    if events != [] {
      var first, e := events[..|events| - 1], events[|events| - 1];
      SplitLast(start, events);
      CallsFollowPhases(start, first);
      RunKeepsInv(start, first);
      match e
      case ByQuit(q) => QuitKeepsCalls(Exec(start, first), q, CallsMade(first));
      case ByOther(o) => OtherReaches(Exec(start, first), o);
    }
  }

  /** The calls of a flow: the restore, and after a good one the kernel stop and the teardown. */
  function FlowCalls(restored: bool, stops: bool, disposes: bool): seq<Call> {
    [RestoreProxy] + (if restored && stops then [Stop] else []) + if restored && disposes then [DisposeServices] else []
  }

  /**
   In every run a quit that has finished has made the calls of the flow in their order, each once, and a
   quit whose restore failed has made none but that: the calls of `RunQuitFlow`.
   */
  lemma FlowKeepsItsOrder(start: State, events: seq<Event>)
    requires start == Initial(start.proxyOwned, start.kernelRunning) && Legal(start, events)
    ensures Exec(start, events).phase.Finished? ==> CallsMade(events) == FlowCalls(true, true, true)
    ensures Exec(start, events).phase.Failed? ==> CallsMade(events) == FlowCalls(false, true, true)
  {
    CallsFollowPhases(start, events);
  }

  // ---------------------------------------------------------------------------
  // A quit does not hang
  // ---------------------------------------------------------------------------

  /** Who has not given up on the flow, or has ended it by force. */
  predicate ForceInv(s: State) {
    && (s.phase.Forcing? ==> s.forced && s.ordinary)
    && (s.phase.Leaving? ==> s.sessionQuit)
    && (s.exited ==> s.forced || s.phase.Finished? || s.phase.Leaving?)
  }

  lemma {:induction false} RunKeepsForce(s: State, events: seq<Event>)
    requires ForceInv(s) && Inv(s) && Legal(s, events)
    ensures ForceInv(Exec(s, events))
    decreases |events|
  {
    if events != [] {
      var e := events[0];
      TakeKeepsInv(s, e);
      match e {
        case ByQuit(q) => QuitKeepsForce(s, q);
        case ByOther(o) => OtherKeepsForce(s, o);
      }
      RunKeepsForce(Take(s, e), events[1..]);
    }
  }

  lemma QuitKeepsForce(s: State, e: QuitEvent)
    requires ForceInv(s) && Inv(s) && QuitEnabled(s, e) && !s.exited
    ensures ForceInv(TakeQuit(s, e))
  {
  }

  lemma OtherKeepsForce(s: State, e: OtherEvent)
    requires ForceInv(s) && GateInv(s) && OtherEnabled(s, e) && !s.exited
    ensures ForceInv(TakeOther(s, e))
  {
    if e.Grant? {
      assert s.waiting == [s.waiting[0]] + s.waiting[1..];
      assert s.waiting[0].Quit? ==> Waits(s.phase);
    }
  }

  /** The application exits only after a confirmed restore, by force, or as the session ends. */
  lemma ExitIsEarned(start: State, events: seq<Event>)
    requires start == Initial(start.proxyOwned, start.kernelRunning) && Legal(start, events)
    requires Exec(start, events).exited
    ensures
      var s := Exec(start, events);
      s.forced || (s.phase.Finished? && Confirmed(events) && !s.proxyOwned) || (s.phase.Leaving? && s.sessionQuit)
  {
    RunKeepsForce(start, events);
    if Exec(start, events).phase.Finished? {
      FinishedIsClean(start, events);
    }
  }

  /** The quit goes on by itself, by its own deadline at the latest, or the application may exit. */
  predicate CanGoOn(s: State, e: Event) {
    Enabled(s, e) && (e == ByOther(Exit) || (e.ByQuit? && !e.quit.Begin?))
  }

  lemma WaitingPlace(waiting: seq<Owner>)
    requires multiset(waiting)[Quit] == 1
    ensures exists place: nat :: place < |waiting| && waiting[place].Quit?
  {
    assert Quit in multiset(waiting);
    assert Quit in waiting;
  }

  /** In every run, whatever mutation holds the gate and however its steps hang, a quit in flight can go on. */
  lemma QuitNeverHangs(start: State, events: seq<Event>)
    requires start == Initial(start.proxyOwned, start.kernelRunning) && Legal(start, events)
    requires Exec(start, events).inFlight && !Exec(start, events).exited
    ensures exists e :: CanGoOn(Exec(start, events), e)
  {
    var s := Exec(start, events);
    RunKeepsInv(start, events);
    RunKeepsForce(start, events);
    if Waits(s.phase) {
      WaitingPlace(s.waiting);
      var place: nat :| place < |s.waiting| && s.waiting[place].Quit?;
      assert CanGoOn(s, ByQuit(if s.phase.Draining? then DrainTimesOut(place) else FlowTimesOut(place)));
    } else if UnderDeadline(s.phase) {
      assert CanGoOn(s, ByQuit(FlowTimesOut(0)));
    } else {
      EarlyQuitGoesOn(s);
    }
  }

  lemma EarlyQuitGoesOn(s: State)
    requires Inv(s) && ForceInv(s) && s.inFlight && !s.exited && !Waits(s.phase) && !UnderDeadline(s.phase)
    ensures exists e :: CanGoOn(s, e)
  {
    var e :=
      if s.phase.Claimed? then ByQuit(Fence)
      else if s.phase.Fenced? then ByQuit(AskDrain)
      else if s.phase.Drained? then ByQuit(DrainDone)
      else if s.phase.Ready? then ByQuit(AskRestore)
      else if s.phase.Failed? then ByQuit(Cancel)
      else if s.phase.Cancelled? then ByQuit(Release)
      else ByOther(Exit);
    assert CanGoOn(s, e);
  }

  // ---------------------------------------------------------------------------
  // The forced path and the gate
  // ---------------------------------------------------------------------------

  /** What neither a step of the quit nor one of the others takes away, a cancel, a release and a mutation apart. */
  predicate Keeps(s: State, t: State, e: Event) {
    && (!s.proxyOwned && !IsAct(e) ==> !t.proxyOwned)
    && (s.ordinary && e != ByQuit(Cancel) ==> t.ordinary)
    && (s.forced ==> t.forced)
    && (s.inFlight && e != ByQuit(Release) ==> t.inFlight && t.sessionQuit == s.sessionQuit)
  }

  lemma EarlyKeeps(s: State, e: QuitEvent)
    requires QuitEnabled(s, e) && (e.Begin? || e.Fence? || e.AskDrain? || e.DrainDone? || e.DrainTimesOut?)
    ensures Keeps(s, TakeQuit(s, e), ByQuit(e))
  {
  }

  lemma MiddleKeeps(s: State, e: QuitEvent)
    requires QuitEnabled(s, e) && (e.AskRestore? || e.Restore? || e.LeaveRestore? || e.AskStop?)
    ensures Keeps(s, TakeQuit(s, e), ByQuit(e))
  {
  }

  lemma LateKeeps(s: State, e: QuitEvent)
    requires QuitEnabled(s, e) && (e.StopKernel? || e.Dispose? || e.FlowTimesOut?)
    ensures Keeps(s, TakeQuit(s, e), ByQuit(e))
  {
  }

  lemma EndKeeps(s: State, e: QuitEvent)
    requires QuitEnabled(s, e) && (e.Cancel? || e.Release?)
    ensures Keeps(s, TakeQuit(s, e), ByQuit(e))
  {
  }

  lemma GateKeeps(s: State, e: OtherEvent)
    requires OtherEnabled(s, e) && (e.Grant? || e.Request? || e.Abandon? || e.Check? || e.Act? || e.Finish?)
    ensures Keeps(s, TakeOther(s, e), ByOther(e))
  {
  }

  lemma OthersKeep(s: State, e: OtherEvent)
    requires OtherEnabled(s, e) && (e.MarkSession? || e.Force? || e.ForcedRestore? || e.Exit?)
    ensures Keeps(s, TakeOther(s, e), ByOther(e))
  {
  }

  lemma StepKeeps(s: State, e: Event)
    requires Enabled(s, e)
    ensures Keeps(s, Take(s, e), e)
  {
    match e
    case ByQuit(q) =>
      if q.Begin? || q.Fence? || q.AskDrain? || q.DrainDone? || q.DrainTimesOut? {
        EarlyKeeps(s, q);
      } else if q.AskRestore? || q.Restore? || q.LeaveRestore? || q.AskStop? {
        MiddleKeeps(s, q);
      } else if q.StopKernel? || q.Dispose? || q.FlowTimesOut? {
        LateKeeps(s, q);
      } else {
        EndKeeps(s, q);
      }
    case ByOther(o) =>
      if o.MarkSession? || o.Force? || o.ForcedRestore? || o.Exit? {
        OthersKeep(s, o);
      } else {
        GateKeeps(s, o);
      }
  }

  /** Once the proxy is given back only a guarded mutation can take it again. */
  lemma {:induction false} GivenBackStays(s: State, events: seq<Event>)
    requires !s.proxyOwned && Legal(s, events) && forall e <- events :: !IsAct(e)
    ensures !Exec(s, events).proxyOwned
    decreases |events|
  {
    if events != [] {
      assert events[0] in events;
      StepKeeps(s, events[0]);
      GivenBackStays(Take(s, events[0]), events[1..]);
    }
  }

  /** A forced restore gives the proxy back, whatever the quit in flight does meanwhile. */
  lemma ForcedRestoreHolds(s: State, events: seq<Event>)
    requires Enabled(s, ByOther(ForcedRestore)) && Legal(Take(s, ByOther(ForcedRestore)), events)
    requires forall e <- events :: !IsAct(e)
    ensures !Exec(Take(s, ByOther(ForcedRestore)), events).proxyOwned
  {
    GivenBackStays(Take(s, ByOther(ForcedRestore)), events);
  }

  lemma {:induction false} OrdinaryHolds(s: State, events: seq<Event>)
    requires s.ordinary && Legal(s, events) && ByQuit(Cancel) !in events
    ensures Exec(s, events).ordinary
    decreases |events|
  {
    if events != [] {
      assert events[0] in events;
      StepKeeps(s, events[0]);
      OrdinaryHolds(Take(s, events[0]), events[1..]);
    }
  }

  /** A forced quit fences: until a quit is cancelled, no mutation that enters the gate gets past the check. */
  lemma ForceFences(s: State, events: seq<Event>)
    requires Enabled(s, ByOther(Force)) && Legal(Take(s, ByOther(Force)), events) && ByQuit(Cancel) !in events
    ensures
      var t := Exec(Take(s, ByOther(Force)), events);
      && t.ordinary && t.forced
      && (Enabled(t, ByOther(Check)) ==> !Take(t, ByOther(Check)).gate.Running?)
  {
    OrdinaryHolds(Take(s, ByOther(Force)), events);
    ForcedStays(Take(s, ByOther(Force)), events);
  }

  lemma {:induction false} ForcedStays(s: State, events: seq<Event>)
    requires s.forced && Legal(s, events)
    ensures Exec(s, events).forced
    decreases |events|
  {
    if events != [] {
      StepKeeps(s, events[0]);
      ForcedStays(Take(s, events[0]), events[1..]);
    }
  }

  /** Whether the quit in flight is a session end is what its `Begin` said, as long as it is in flight. */
  lemma {:induction false} SessionQuitIsRemembered(s: State, events: seq<Event>)
    requires s.inFlight && Legal(s, events) && ByQuit(Release) !in events
    ensures Exec(s, events).inFlight && Exec(s, events).sessionQuit == s.sessionQuit
    decreases |events|
  {
    if events != [] {
      assert events[0] in events;
      StepKeeps(s, events[0]);
      SessionQuitIsRemembered(Take(s, events[0]), events[1..]);
    }
  }

  /** A failed quit of a session end leaves without clearing its fence, and any other is cancelled. */
  lemma FailedQuitEnds(start: State, before: seq<Event>, sessionEnding: bool, after: seq<Event>)
    requires start == Initial(start.proxyOwned, start.kernelRunning) && Legal(start, before)
    requires Enabled(Exec(start, before), ByQuit(Begin(sessionEnding))) && !Exec(start, before).inFlight
    requires
      var s := Take(Exec(start, before), ByQuit(Begin(sessionEnding)));
      Legal(s, after) && ByQuit(Release) !in after && Enabled(Exec(s, after), ByQuit(Cancel))
    ensures
      var s := Exec(Take(Exec(start, before), ByQuit(Begin(sessionEnding))), after);
      var t := Take(s, ByQuit(Cancel));
      if sessionEnding then t.phase.Leaving? && t.ordinary == s.ordinary else t.phase.Cancelled? && !t.ordinary
  {
    SessionQuitIsRemembered(Take(Exec(start, before), ByQuit(Begin(sessionEnding))), after);
  }

  /** The mutation at the gate checks and, if it was admitted, finishes. */
  function LettingGo(s: State): seq<Event> {
    if s.gate.Running? then [ByOther(Finish)]
    else if !s.gate.Entered? then []
    else if IsQuitting(s) then [ByOther(Check)]
    else [ByOther(Check), ByOther(Finish)]
  }

  /** Whatever mutation holds the gate can let go of it without anybody's help, and the queue is as it was. */
  lemma QueueMovesOn(s: State)
    requires !s.exited && !s.gate.Shutdown?
    ensures Legal(s, LettingGo(s)) && Exec(s, LettingGo(s)).gate.Free? && Exec(s, LettingGo(s)).waiting == s.waiting
  {
    if s.gate.Running? {
      assert Legal(Take(s, ByOther(Finish)), []);
      Prepend(s, ByOther(Finish), []);
    } else if s.gate.Entered? {
      var t := Take(s, ByOther(Check));
      if !IsQuitting(s) {
        assert Legal(Take(t, ByOther(Finish)), []);
        Prepend(t, ByOther(Finish), []);
        Prepend(s, ByOther(Check), [ByOther(Finish)]);
      } else {
        assert Legal(t, []);
        Prepend(s, ByOther(Check), []);
      }
    }
  }

  /**
   The forced path has no claim on the single flight: a quit that fails while a forced quit is under
   way clears the bit that the forced quit counts on, and a mutation gets in.
   */
  lemma ForcedFenceCanBeCleared(s: State, id: nat)
    requires Inv(s) && !s.exited && s.phase.Failed? && !s.sessionQuit && !s.session
    requires s.gate.Free? && s.waiting == []
    ensures
      var events := [ByOther(Force), ByQuit(Cancel), ByOther(Request(id)), ByOther(Grant), ByOther(Check)];
      Legal(s, events) && Exec(s, events).gate == Running(id)
  {
    var s1 := Take(s, ByOther(Force));
    var s2 := Take(s1, ByQuit(Cancel));
    var s3 := Take(s2, ByOther(Request(id)));
    var s4 := Take(s3, ByOther(Grant));
    assert Legal(Take(s4, ByOther(Check)), []);
    Prepend(s4, ByOther(Check), []);
    Prepend(s3, ByOther(Grant), [ByOther(Check)]);
    Prepend(s2, ByOther(Request(id)), [ByOther(Grant), ByOther(Check)]);
    Prepend(s1, ByQuit(Cancel), [ByOther(Request(id)), ByOther(Grant), ByOther(Check)]);
    Prepend(s, ByOther(Force), [ByQuit(Cancel), ByOther(Request(id)), ByOther(Grant), ByOther(Check)]);
  }

  lemma Prepend(s: State, e: Event, events: seq<Event>)
    requires Enabled(s, e) && Legal(Take(s, e), events)
    ensures Legal(s, [e] + events) && Exec(s, [e] + events) == Exec(Take(s, e), events)
  {
    assert ([e] + events)[1..] == events;
  }

  lemma {:induction false} Extend(s: State, events: seq<Event>, more: seq<Event>)
    requires Legal(s, events) && Legal(Exec(s, events), more)
    ensures Legal(s, events + more) && Exec(s, events + more) == Exec(Exec(s, events), more)
    decreases |events|
  {
    if events == [] {
      assert events + more == more;
    } else {
      Extend(Take(s, events[0]), events[1..], more);
      assert (events + more)[1..] == events[1..] + more;
    }
  }

  lemma DrainsFrom(s: State)
    requires s == Initial(s.proxyOwned, s.kernelRunning)
    ensures
      var events := [ByQuit(Begin(false)), ByQuit(Fence), ByQuit(AskDrain)];
      && Legal(s, events)
      && Exec(s, events) == s.(
           inFlight := true, ordinary := true, fences := 1, waiting := [Quit], phase := Draining)
  {
    var s1 := Take(s, ByQuit(Begin(false)));
    assert s1 == s.(inFlight := true, phase := Claimed);
    var s2 := Take(s1, ByQuit(Fence));
    assert s2 == s1.(ordinary := true, fences := 1, phase := Fenced);
    assert Legal(Take(s2, ByQuit(AskDrain)), []);
    Prepend(s2, ByQuit(AskDrain), []);
    Prepend(s1, ByQuit(Fence), [ByQuit(AskDrain)]);
    Prepend(s, ByQuit(Begin(false)), [ByQuit(Fence), ByQuit(AskDrain)]);
  }

  lemma AsksFrom(s: State)
    requires !s.exited && s.waiting == [Quit] && s.phase.Draining? && s.gate.Free?
    ensures
      var events := [ByOther(Grant), ByQuit(DrainDone), ByQuit(AskRestore)];
      && Legal(s, events)
      && Exec(s, events) == s.(shut := true, phase := RestoreWaiting)
  {
    var s1 := Take(s, ByOther(Grant));
    var s2 := Take(s1, ByQuit(DrainDone));
    assert Legal(Take(s2, ByQuit(AskRestore)), []);
    Prepend(s2, ByQuit(AskRestore), []);
    Prepend(s1, ByQuit(DrainDone), [ByQuit(AskRestore)]);
    Prepend(s, ByOther(Grant), [ByQuit(DrainDone), ByQuit(AskRestore)]);
  }

  lemma FailsFrom(s: State)
    requires !s.exited && s.waiting == [Quit] && s.phase.RestoreWaiting? && s.gate.Free?
    ensures
      var events := [ByOther(Grant), ByQuit(Restore(false)), ByQuit(Restore(false)), ByQuit(Restore(false)), ByQuit(LeaveRestore)];
      && Legal(s, events)
      && Exec(s, events) == s.(waiting := [], shut := true, phase := Failed)
  {
    var s1 := Take(s, ByOther(Grant));
    var s2 := Take(s1, ByQuit(Restore(false)));
    var s3 := Take(s2, ByQuit(Restore(false)));
    var s4 := Take(s3, ByQuit(Restore(false)));
    assert Legal(Take(s4, ByQuit(LeaveRestore)), []);
    Prepend(s4, ByQuit(LeaveRestore), []);
    Prepend(s3, ByQuit(Restore(false)), [ByQuit(LeaveRestore)]);
    Prepend(s2, ByQuit(Restore(false)), [ByQuit(Restore(false)), ByQuit(LeaveRestore)]);
    Prepend(s1, ByQuit(Restore(false)), [ByQuit(Restore(false)), ByQuit(Restore(false)), ByQuit(LeaveRestore)]);
    Prepend(s, ByOther(Grant), [ByQuit(Restore(false)), ByQuit(Restore(false)), ByQuit(Restore(false)), ByQuit(LeaveRestore)]);
  }

  const FAILING_QUIT: seq<Event> := [ByQuit(Begin(false)), ByQuit(Fence), ByQuit(AskDrain)]
    + [ByOther(Grant), ByQuit(DrainDone), ByQuit(AskRestore)]
    + [ByOther(Grant), ByQuit(Restore(false)), ByQuit(Restore(false)), ByQuit(Restore(false)), ByQuit(LeaveRestore)]

  /** A quit whose three restores fail. */
  lemma FailingQuit(s: State)
    requires s == Initial(s.proxyOwned, s.kernelRunning)
    ensures Legal(s, FAILING_QUIT)
    ensures
      var t := Exec(s, FAILING_QUIT);
      !t.exited && t.phase.Failed? && !t.sessionQuit && !t.session && t.gate.Free? && t.waiting == []
  {
    var drains := [ByQuit(Begin(false)), ByQuit(Fence), ByQuit(AskDrain)];
    var asks := [ByOther(Grant), ByQuit(DrainDone), ByQuit(AskRestore)];
    var fails := [ByOther(Grant), ByQuit(Restore(false)), ByQuit(Restore(false)), ByQuit(Restore(false)),
                  ByQuit(LeaveRestore)];
    DrainsFrom(s);
    AsksFrom(Exec(s, drains));
    Extend(s, drains, asks);
    FailsFrom(Exec(s, drains + asks));
    Extend(s, drains + asks, fails);
  }

  /** A run gets there: the quit fails, a forced quit starts, and a mutation gets in. */
  lemma ForcedFenceIsCleared(proxyOwned: bool, kernelRunning: bool, id: nat)
    ensures
      var s := Initial(proxyOwned, kernelRunning);
      var late := [ByOther(Force), ByQuit(Cancel), ByOther(Request(id)), ByOther(Grant), ByOther(Check)];
      Legal(s, FAILING_QUIT + late) && Exec(s, FAILING_QUIT + late).gate == Running(id)
  {
    var s := Initial(proxyOwned, kernelRunning);
    var late := [ByOther(Force), ByQuit(Cancel), ByOther(Request(id)), ByOther(Grant), ByOther(Check)];
    FailingQuit(s);
    RunKeepsInv(s, FAILING_QUIT);
    ForcedFenceCanBeCleared(Exec(s, FAILING_QUIT), id);
    Extend(s, FAILING_QUIT, late);
  }

  // ---------------------------------------------------------------------------
  // The atomics
  // ---------------------------------------------------------------------------

  const SESSION_ENDING: bv8 := 1
  const ORDINARY_QUIT: bv8 := 2

  /** What the atomics show of a state. */
  datatype Bits = Bits(session: bool, ordinary: bool, inFlight: bool)

  function BitsOf(s: State): Bits {
    Bits(s.session, s.ordinary, s.inFlight)
  }

  class Lifecycle {
    var isQuitting: bv8
    var shutdownInFlight: bool

    ghost predicate Valid()
      reads this
    {
      isQuitting <= 3
    }

    ghost function View(): Bits
      reads this
    {
      Bits(isQuitting & SESSION_ENDING != 0, isQuitting & ORDINARY_QUIT != 0, shutdownInFlight)
    }

    constructor ()
      ensures Valid() && View() == BitsOf(Initial(false, false))
    {
      isQuitting, shutdownInFlight := 0, false;
    }

    method MarkQuitting()
      requires Valid()
      modifies this
      ensures Valid() && View() == old(View()).(session := true)
      ensures forall s: State | BitsOf(s) == old(View()) :: BitsOf(TakeOther(s, MarkSession)) == View()
    {
      isQuitting := isQuitting | SESSION_ENDING;
    }

    method RaiseFence()
      requires Valid()
      modifies this
      ensures Valid() && View() == old(View()).(ordinary := true)
      ensures forall s: State | BitsOf(s) == old(View()) && s.phase.Claimed? :: BitsOf(TakeQuit(s, Fence)) == View()
    {
      isQuitting := isQuitting | ORDINARY_QUIT;
    }

    method CancelNormalQuit()
      requires Valid()
      modifies this
      ensures Valid() && View() == old(View()).(ordinary := false)
      ensures forall s: State | BitsOf(s) == old(View()) && s.phase.Failed? && !s.sessionQuit ::
                BitsOf(TakeQuit(s, Cancel)) == View()
    {
      isQuitting := isQuitting & !ORDINARY_QUIT;
    }

    /** The look at the fence after the gate was acquired. */
    method CheckFence() returns (admitted: bool)
      requires Valid()
      ensures admitted <==> !View().session && !View().ordinary
      ensures forall s: State | BitsOf(s) == View() && s.gate.Entered? ::
                admitted <==> TakeOther(s, Check).gate.Running?
    {
      admitted := isQuitting == 0;
    }

    /** The single flight: only the first of several quits starts the flow. */
    method Claim() returns (started: bool)
      requires Valid()
      modifies this
      ensures Valid() && View() == old(View()).(inFlight := true) && started == !old(View()).inFlight
      ensures forall s: State | BitsOf(s) == old(View()) && BitInv(s) ::
                && BitsOf(TakeQuit(s, Begin(false))) == View()
                && (started <==> s.phase != Claimed && TakeQuit(s, Begin(false)).phase == Claimed)
    {
      started := !shutdownInFlight;
      shutdownInFlight := true;
    }

    method ReleaseFlight()
      requires Valid()
      modifies this
      ensures Valid() && View() == old(View()).(inFlight := false)
      ensures forall s: State | BitsOf(s) == old(View()) && s.phase.Cancelled? :: BitsOf(TakeQuit(s, Release)) == View()
    {
      shutdownInFlight := false;
    }
  }

  /** Retries until the first success; `outcomes(k)` is what attempt `k` yields. */
  method RestoreWithRetry(outcomes: nat -> bool) returns (restored: bool, attempts: nat)
    ensures restored <==> exists k | 1 <= k <= RESTORE_ATTEMPTS :: outcomes(k)
    ensures 1 <= attempts <= RESTORE_ATTEMPTS && (restored ==> outcomes(attempts))
    ensures forall k | 1 <= k < attempts :: !outcomes(k)
    ensures !restored ==> attempts == RESTORE_ATTEMPTS
  {
    attempts := 1;
    while true
      invariant 1 <= attempts <= RESTORE_ATTEMPTS
      invariant forall k | 1 <= k < attempts :: !outcomes(k)
      decreases RESTORE_ATTEMPTS - attempts
    {
      if outcomes(attempts) {
        return true, attempts;
      }
      if attempts == RESTORE_ATTEMPTS {
        return false, attempts;
      }
      attempts := attempts + 1;
    }
  }

  /** The phases after that many failed attempts, as the step machine has them. */
  function AfterAttempts(outcomes: nat -> bool, k: nat): Phase
    requires 1 <= k <= RESTORE_ATTEMPTS
    decreases RESTORE_ATTEMPTS - k
  {
    var next := AfterAttempt(k - 1, outcomes(k));
    if next.Restoring? then AfterAttempts(outcomes, k + 1) else next
  }

  /** The attempts of the step machine are those of the loop. */
  lemma {:induction false} AttemptsAgree(outcomes: nat -> bool, k: nat)
    requires 1 <= k <= RESTORE_ATTEMPTS
    ensures AfterAttempts(outcomes, k) ==
            if exists i | k <= i <= RESTORE_ATTEMPTS :: outcomes(i) then Restored else Unrestored
    decreases RESTORE_ATTEMPTS - k
  {
    if !outcomes(k) && k < RESTORE_ATTEMPTS {
      AttemptsAgree(outcomes, k + 1);
    }
  }

  datatype FlowResult = RestoreFailed | Quitting

  /** The quit flow proper, with the calls it makes; the outcome of the kernel stop does not matter. */
  method RunQuitFlow(restored: bool, stops: bool, disposes: bool) returns (result: FlowResult, calls: seq<Call>)
    ensures result.RestoreFailed? <==> !restored
    ensures calls == FlowCalls(restored, stops, disposes)
  {
    calls := [RestoreProxy];
    if !restored {
      return RestoreFailed, calls;
    }
    if stops {
      calls := calls + [Stop];
    }
    if disposes {
      calls := calls + [DisposeServices];
    }
    result := Quitting;
  }
}
