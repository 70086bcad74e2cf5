/**
 What a start and a stop request come to, over whole runs of the step machine in module Supervisor: the
 two exit waits of the termination ladder, the end of a stop, the end of a start, and the refills of the
 restart budget.
 */
module Requests {
  import opened Wrappers
  import opened Supervisor

  // ---------------------------------------------------------------------------
  // The termination ladder
  // ---------------------------------------------------------------------------

  /** Exit waits of the terminate under way that have expired, with this step. */
  function Counted(s: State, step: Step, n: nat): nat {
    if !s.op.WaitingExit? then 0 else if step.ExitTimeout? then n + 1 else n
  }

  /** ... and after a run, if `n` had expired before it. */
  function Expired(o: Settings, s: State, steps: seq<Step>, n: nat): nat
    requires Legal(o, s, steps)
    decreases |steps|
  {
    if steps == [] then n else Expired(o, Apply(o, s, steps[0]), steps[1..], Counted(s, steps[0], n))
  }

  /** The signal says how many waits have expired, and an exit that has come is being cleaned up. */
  ghost predicate LadderInv(s: State, n: nat) {
    s.op.WaitingExit? ==>
      && n == (if s.op.signal == Term then 0 else 1)
      && (!s.op.exited ==>
            && s.exitWait
            && (s.handle.None? ==> s.exitWork.Some? && s.exitWork.value in s.tasks))
  }

  lemma StartKeepsLadder(o: Settings, s: State, step: Step, n: nat)
    requires KernelInv(s) && LadderInv(s, n) && Enabled(s, step) && OfStart(step)
    ensures LadderInv(Apply(o, s, step), Counted(s, step, n))
  {
  }

  lemma WaitKeepsLadder(o: Settings, s: State, step: Step, n: nat)
    requires KernelInv(s) && LadderInv(s, n) && Enabled(s, step) && OfWait(step)
    ensures LadderInv(Apply(o, s, step), Counted(s, step, n))
  {
  }

  lemma LadderKeepsLadder(o: Settings, s: State, step: Step, n: nat)
    requires KernelInv(s) && LadderInv(s, n) && Enabled(s, step) && OfLadder(step)
    ensures LadderInv(Apply(o, s, step), Counted(s, step, n))
  {
  }

  lemma EventKeepsLadder(o: Settings, s: State, step: Step, n: nat)
    requires KernelInv(s) && LadderInv(s, n) && Enabled(s, step) && IsEvent(step)
    ensures LadderInv(Apply(o, s, step), Counted(s, step, n))
  {
  }

  lemma RestartKeepsLadder(o: Settings, s: State, step: Step, n: nat)
    requires KernelInv(s) && LadderInv(s, n) && Enabled(s, step)
    requires step.RestartFired? || step.RestartQueued? || step.QueuedRestartRuns? || step.BudgetTimer?
    ensures LadderInv(Apply(o, s, step), Counted(s, step, n))
  {
  }

  lemma StepKeepsLadder(o: Settings, s: State, step: Step, n: nat)
    requires KernelInv(s) && LadderInv(s, n) && Enabled(s, step)
    ensures LadderInv(Apply(o, s, step), Counted(s, step, n))
  {
    if OfStart(step) {
      StartKeepsLadder(o, s, step, n);
    } else if OfWait(step) {
      WaitKeepsLadder(o, s, step, n);
    } else if OfLadder(step) {
      LadderKeepsLadder(o, s, step, n);
    } else if IsEvent(step) {
      EventKeepsLadder(o, s, step, n);
    } else {
      RestartKeepsLadder(o, s, step, n);
    }
  }

  lemma {:induction false} RunKeepsLadder(o: Settings, s: State, steps: seq<Step>, n: nat)
    requires KernelInv(s) && LadderInv(s, n) && Legal(o, s, steps)
    ensures KernelInv(Exec(o, s, steps)) && LadderInv(Exec(o, s, steps), Expired(o, s, steps, n))
    decreases |steps|
  {
    if steps != [] {
      StepKeepsKernelInv(o, s, steps[0]);
      StepKeepsLadder(o, s, steps[0], n);
      RunKeepsLadder(o, Apply(o, s, steps[0]), steps[1..], Counted(s, steps[0], n));
    }
  }

  /** What a step may make of a terminate that has seen `n` waits expire, `m` with this step. */
  predicate Climbs(s: State, step: Step, t: State, n: nat, m: nat) {
    && (s.op.WaitingExit? ==> n <= 1)
    // it begins with SIGTERM to the tracked process
    && (t.op.WaitingExit? && !s.op.WaitingExit? ==> m == 0 && t.op.signal == Term && t.handle == Some(t.op.pid))
    // while it waits it is about one process, and the signal is the one that was sent last
    && (t.op.WaitingExit? && s.op.WaitingExit? ==>
          && t.op.pid == s.op.pid && t.op.cause == s.op.cause
          && t.op.signal == (if m == 0 then Term else Kill) && m <= 1
          && (m != n ==> t.handle == Some(t.op.pid)))
    // it ends with the process still tracked only after both waits, or answered by somebody's exit task
    && (s.op.WaitingExit? && !t.op.WaitingExit? && t.handle.Some? && !step.ExitSignalled? ==>
          step.ExitTimeout? && m == 2 && t.handle == Some(s.op.pid) && t.op.Idle? && t.phase.Failed?)
    // and at the latest then
    && (m >= 2 ==> t.op.Idle?)
  }

  lemma LadderClimbs(o: Settings, s: State, step: Step, n: nat)
    requires KernelInv(s) && LadderInv(s, n) && Enabled(s, step)
    requires s.op.WaitingExit? && (OfLadder(step) || step.MarkerSeen?)
    ensures Climbs(s, step, Apply(o, s, step), n, Counted(s, step, n))
  {
  }

  lemma WorldClimbs(o: Settings, s: State, step: Step, n: nat)
    requires KernelInv(s) && LadderInv(s, n) && Enabled(s, step)
    requires s.op.WaitingExit? && !OfStart(step) && !OfLadder(step) && !OfWait(step)
    ensures Climbs(s, step, Apply(o, s, step), n, Counted(s, step, n))
  {
  }

  lemma StartClimbs(o: Settings, s: State, step: Step, n: nat)
    requires KernelInv(s) && Enabled(s, step) && !s.op.WaitingExit? && OfStart(step)
    ensures Climbs(s, step, Apply(o, s, step), n, Counted(s, step, n))
  {
  }

  lemma RequestClimbs(o: Settings, s: State, step: Step, n: nat)
    requires KernelInv(s) && Enabled(s, step) && !s.op.WaitingExit? && (OfWait(step) || OfLadder(step))
    ensures Climbs(s, step, Apply(o, s, step), n, Counted(s, step, n))
  {
  }

  lemma NothingClimbs(o: Settings, s: State, step: Step, n: nat)
    requires KernelInv(s) && Enabled(s, step) && !s.op.WaitingExit?
    requires !OfStart(step) && !OfWait(step) && !OfLadder(step)
    ensures Climbs(s, step, Apply(o, s, step), n, Counted(s, step, n))
  {
  }

  /**
   Over every run: a terminate sends SIGTERM to the tracked process and, if a first exit wait for it
   expires, SIGKILL; only a second expired wait for the same process ends it with the process tracked.
   An answer of the exit task of another process is the exception, and orderly runs have none.
   */
  lemma TwoWaitsBeforeGivingUp(o: Settings, before: seq<Step>, step: Step)
    requires Legal(o, INIT, before) && Enabled(Exec(o, INIT, before), step)
    ensures
      var s, n := Exec(o, INIT, before), Expired(o, INIT, before, 0);
      && Climbs(s, step, Apply(o, s, step), n, Counted(s, step, n))
      && (step.ExitSignalled? && Orderly(o, INIT, before) ==> s.handle.None? && Apply(o, s, step).handle.None?)
  {
    var s, n := Exec(o, INIT, before), Expired(o, INIT, before, 0);
    if step.ExitSignalled? && Orderly(o, INIT, before) {
      RunKeepsClean(o, INIT, before);
    }
    RunKeepsLadder(o, INIT, before, 0);
    if !s.op.WaitingExit? {
      if OfStart(step) {
        StartClimbs(o, s, step, n);
      } else if OfWait(step) || OfLadder(step) {
        RequestClimbs(o, s, step, n);
      } else {
        NothingClimbs(o, s, step, n);
      }
    } else if OfLadder(step) || step.MarkerSeen? {
      LadderClimbs(o, s, step, n);
    } else {
      WorldClimbs(o, s, step, n);
    }
  }

  // ---------------------------------------------------------------------------
  // A stop request
  // ---------------------------------------------------------------------------

  /** A stop request holds the lock. */
  predicate OfStop(op: Op) {
    op.StopJoin? || ((op.WaitingExit? || op.ExitJoin?) && op.cause.StopRequest?)
  }

  /** The stop request holds the lock until the run is over, and no process reports an error meanwhile. */
  predicate StaysInStop(o: Settings, s: State, steps: seq<Step>)
    requires Legal(o, s, steps)
    decreases |steps|
  {
    steps == [] || (OfStop(s.op) && !steps[0].ErrorEvent? && StaysInStop(o, Apply(o, s, steps[0]), steps[1..]))
  }

  /** The latest process is going, or its exit task has ended the stop. */
  predicate Ending(s: State) {
    if TaskPending(s) then s.isStopping && PendingTask(s).ExitTask? else s.handle.None? && s.phase.Stopped? && !s.isStopping
  }

  /** What holds in every state of a stop request, beside `CleanInv`; `tracked` if it found a process. */
  ghost predicate Stops(s: State, n: nat, tracked: bool) {
    && LadderInv(s, n)
    && (s.op.StopJoin? <==> !tracked)
    && (s.op.WaitingExit? ==> if s.handle.Some? then s.isStopping && !s.op.exited else Ending(s))
    && (s.op.ExitJoin? ==> Ending(s) && n <= 1)
  }

  /** How it ends: everything gone and cleaned up, or given up after two exit waits. */
  predicate Ended(s: State, n: nat, tracked: bool) {
    && s.op.Idle?
    && (if n == 2 then s.phase.Failed? && !s.isStopping
        else
          && Silent(s) && (tracked ==> !s.isStopping)
          && forall w: nat | w < |s.cleanups| :: w in s.cleaned)
  }

  lemma SilentIsClean(s: State)
    requires CleanInv(s) && Silent(s)
    ensures forall w: nat | w < |s.cleanups| :: w in s.cleaned
  {
  }

  lemma StopBegins(o: Settings, s: State)
    requires CleanInv(s) && StoppedInv(s) && s.op.Idle?
    ensures
      var t, tracked := Apply(o, s, StopCall), s.handle.Some?;
      CleanInv(t) && if OfStop(t.op) then Stops(t, 0, tracked) else Ended(t, 0, tracked)
  {
    var t := Apply(o, s, StopCall);
    StepKeepsClean(o, s, StopCall);
    if t.op.Idle? {
      SilentWhenStopped(t);
      SilentIsClean(t);
    }
  }

  lemma WorldKeepsStop(o: Settings, s: State, step: Step, n: nat, tracked: bool)
    requires KernelInv(s) && TaskInv(s) && Stops(s, n, tracked) && OfStop(s.op) && Enabled(s, step)
    requires IsEvent(step) && !step.ErrorEvent? && !step.TaskFinished?
    ensures Stops(Apply(o, s, step), Counted(s, step, n), tracked) && OfStop(Apply(o, s, step).op)
  {
    EventKeepsLadder(o, s, step, n);
  }

  lemma TaskKeepsStop(o: Settings, s: State, task: nat, n: nat, tracked: bool)
    requires KernelInv(s) && TaskInv(s) && Stops(s, n, tracked) && OfStop(s.op) && Enabled(s, TaskFinished(task))
    ensures Stops(FinishTask(o, s, task), Counted(s, TaskFinished(task), n), tracked) && OfStop(FinishTask(o, s, task).op)
  {
    EventKeepsLadder(o, s, TaskFinished(task), n);
  }

  lemma PendingKeepsStop(o: Settings, s: State, step: Step, n: nat, tracked: bool)
    requires KernelInv(s) && TaskInv(s) && Stops(s, n, tracked) && OfStop(s.op) && Enabled(s, step)
    requires !OfLadder(step) && !step.StopJoined? && !IsEvent(step)
    ensures Stops(Apply(o, s, step), Counted(s, step, n), tracked) && OfStop(Apply(o, s, step).op)
  {
    StepKeepsLadder(o, s, step, n);
  }

  lemma TimeoutInStop(o: Settings, s: State, n: nat, tracked: bool)
    requires CleanInv(s) && Stops(s, n, tracked) && OfStop(s.op) && Enabled(s, ExitTimeout)
    ensures
      var t, m := Apply(o, s, ExitTimeout), Counted(s, ExitTimeout, n);
      if OfStop(t.op) then Stops(t, m, tracked) else Ended(t, m, tracked)
  {
    LadderKeepsLadder(o, s, ExitTimeout, n);
  }

  lemma AnswerInStop(o: Settings, s: State, step: Step, n: nat, tracked: bool)
    requires CleanInv(s) && Stops(s, n, tracked) && OfStop(s.op) && Enabled(s, step)
    requires step.ExitSignalled? || step.ExitJoined? || step.StopJoined?
    requires CleanInv(Apply(o, s, step))
    ensures Ended(Apply(o, s, step), Counted(s, step, n), tracked)
  {
    var t := Apply(o, s, step);
    assert !TaskPending(s) && s.handle.None?;
    assert Silent(t);
    SilentIsClean(t);
  }

  lemma StepInStop(o: Settings, s: State, step: Step, n: nat, tracked: bool)
    requires CleanInv(s) && Stops(s, n, tracked) && OfStop(s.op) && Enabled(s, step) && !step.ErrorEvent?
    ensures
      var t, m := Apply(o, s, step), Counted(s, step, n);
      CleanInv(t) && if OfStop(t.op) then Stops(t, m, tracked) else Ended(t, m, tracked)
  {
    StepKeepsClean(o, s, step);
    if step.ExitTimeout? {
      TimeoutInStop(o, s, n, tracked);
    } else if step.ExitSignalled? || step.ExitJoined? || step.StopJoined? {
      AnswerInStop(o, s, step, n, tracked);
    } else if step.TaskFinished? {
      TaskKeepsStop(o, s, step.task, n, tracked);
    } else if IsEvent(step) {
      WorldKeepsStop(o, s, step, n, tracked);
    } else {
      PendingKeepsStop(o, s, step, n, tracked);
    }
  }

  lemma {:induction false} StopGoesOn(o: Settings, s: State, steps: seq<Step>, n: nat, tracked: bool)
    requires CleanInv(s) && (if OfStop(s.op) then Stops(s, n, tracked) else Ended(s, n, tracked))
    requires Legal(o, s, steps) && StaysInStop(o, s, steps)
    ensures
      var t, m := Exec(o, s, steps), Expired(o, s, steps, n);
      CleanInv(t) && if OfStop(t.op) then Stops(t, m, tracked) else Ended(t, m, tracked)
    decreases |steps|
  {
    if steps != [] {
      StepInStop(o, s, steps[0], n, tracked);
      StopGoesOn(o, Apply(o, s, steps[0]), steps[1..], Counted(s, steps[0], n), tracked);
    }
  }

  /**
   After any orderly run, a stop request that is over, with no error report of the process meanwhile, has
   either left phase stopped, nothing alive or tracked and every workspace removed, or has given up in
   phase failed; it gives up exactly if two exit waits have expired.
   */
  lemma StopStopsOrGivesUp(o: Settings, before: seq<Step>, after: seq<Step>)
    requires Legal(o, INIT, before) && Orderly(o, INIT, before) && Enabled(Exec(o, INIT, before), StopCall)
    requires
      var t := Apply(o, Exec(o, INIT, before), StopCall);
      Legal(o, t, after) && StaysInStop(o, t, after) && Exec(o, t, after).op.Idle?
    ensures
      var s := Exec(o, INIT, before);
      var t := Apply(o, s, StopCall);
      var u := Exec(o, t, after);
      if Expired(o, t, after, 0) == 2 then u.phase.Failed? && !u.isStopping
      else
        && u.phase.Stopped? && u.handle.None? && u.alive == {} && u.tasks == map[]
        && (s.handle.Some? ==> !u.isStopping)
        && forall w: nat | w < |u.cleanups| :: w in u.cleaned
  {
    var s := Exec(o, INIT, before);
    RunKeepsStopped(o, INIT, before);
    StopBegins(o, s);
    StopGoesOn(o, Apply(o, s, StopCall), after, 0, s.handle.Some?);
  }

  // ---------------------------------------------------------------------------
  // The lock is never left in the middle of a request
  // ---------------------------------------------------------------------------

  predicate IsSettled(phase: Phase) {
    phase.Stopped? || phase.Failed?
  }

  ghost predicate PhaseInv(s: State) {
    && (s.op.Idle? || s.op.StartJoin? ==> IsSettled(s.phase) || s.phase.Running?)
    && (s.op.WaitingExit? && s.op.cause.StopRequest? && s.op.exited ==> IsSettled(s.phase))
    && (s.op.ExitJoin? && s.op.cause.StopRequest? ==>
          IsSettled(s.phase) || (s.op.awaited.Some? && s.op.awaited.value in s.tasks))
  }

  lemma WaitKeepsPhases(o: Settings, s: State, step: Step, n: nat)
    requires KernelInv(s) && LadderInv(s, n) && PhaseInv(s) && Enabled(s, step) && OfWait(step)
    ensures PhaseInv(Apply(o, s, step))
  {
  }

  lemma LadderKeepsPhases(o: Settings, s: State, step: Step, n: nat)
    requires KernelInv(s) && LadderInv(s, n) && PhaseInv(s) && Enabled(s, step) && OfLadder(step)
    ensures PhaseInv(Apply(o, s, step))
  {
  }

  lemma StartKeepsPhases(o: Settings, s: State, step: Step)
    requires PhaseInv(s) && Enabled(s, step) && OfStart(step) && !step.Materialized?
    ensures PhaseInv(Apply(o, s, step))
  {
  }

  lemma SpawnKeepsPhases(o: Settings, s: State, outcome: SpawnOutcome)
    requires PhaseInv(s) && s.op.Materializing?
    ensures PhaseInv(SpawnKernel(o, s, outcome))
  {
  }

  lemma WorldKeepsPhases(o: Settings, s: State, step: Step)
    requires KernelInv(s) && PhaseInv(s) && Enabled(s, step) && !OfStart(step) && !OfWait(step) && !OfLadder(step)
    ensures PhaseInv(Apply(o, s, step))
  {
  }

  lemma {:induction false} RunKeepsPhases(o: Settings, s: State, steps: seq<Step>, n: nat)
    requires KernelInv(s) && LadderInv(s, n) && PhaseInv(s) && Legal(o, s, steps)
    ensures PhaseInv(Exec(o, s, steps))
    decreases |steps|
  {
    if steps != [] {
      var step := steps[0];
      StepKeepsKernelInv(o, s, step);
      StepKeepsLadder(o, s, step, n);
      if step.Materialized? {
        SpawnKeepsPhases(o, s, step.outcome);
      } else if OfStart(step) {
        StartKeepsPhases(o, s, step);
      } else if OfWait(step) {
        WaitKeepsPhases(o, s, step, n);
      } else if OfLadder(step) {
        LadderKeepsPhases(o, s, step, n);
      } else {
        WorldKeepsPhases(o, s, step);
      }
      RunKeepsPhases(o, Apply(o, s, step), steps[1..], Counted(s, step, n));
    }
  }

  /**
   In every run: whenever the lock is free, the phase is stopped, running or failed, and a start goes on
   exactly if nothing runs and nothing is tracked; no request can leave the supervisor unable to start.
   */
  lemma StartIsNeverBarred(o: Settings, before: seq<Step>)
    requires Legal(o, INIT, before) && Exec(o, INIT, before).op.Idle?
    ensures
      var s := Exec(o, INIT, before);
      var t := Apply(o, s, StartCall);
      && s.phase in {Stopped, Running, Failed}
      && (if s.phase.Running? || s.handle.Some? then t == s else t.op.StartJoin? && t.phase == s.phase)
  {
    RunKeepsPhases(o, INIT, before, 0);
  }

  // ---------------------------------------------------------------------------
  // The end of a start
  // ---------------------------------------------------------------------------

  /** `do_start` is under way. */
  predicate OfDoStart(op: Op) {
    || op.Resolving? || op.Materializing? || op.SpawnCleanup? || op.AwaitingReady?
    || ((op.WaitingExit? || op.ExitJoin?) && op.cause.AbortStart?)
  }

  /** The marker has been seen since the latest spawn. */
  function MarkerSince(steps: seq<Step>): bool {
    steps != [] &&
    (steps[|steps| - 1].MarkerSeen? || (steps[|steps| - 1] != Materialized(Spawned) && MarkerSince(steps[..|steps| - 1])))
  }

  /** A report is a marker in the output of the process that is being started. */
  predicate ReportInv(s: State, marked: bool) {
    s.op == AwaitingReady(Reported) ==> marked
  }

  lemma StepKeepsReport(o: Settings, s: State, step: Step, marked: bool)
    requires ReportInv(s, marked) && Enabled(s, step)
    ensures ReportInv(Apply(o, s, step), step.MarkerSeen? || (step != Materialized(Spawned) && marked))
  {
    if OfStart(step) {
      StartReportsNothing(o, s, step);
    } else if OfWait(step) {
    } else if OfLadder(step) {
    } else {
      WorldReportsNothing(o, s, step);
    }
  }

  lemma StartReportsNothing(o: Settings, s: State, step: Step)
    requires Enabled(s, step) && OfStart(step)
    ensures Apply(o, s, step).op != AwaitingReady(Reported)
  {
  }

  lemma WorldReportsNothing(o: Settings, s: State, step: Step)
    requires Enabled(s, step) && !OfStart(step) && !OfWait(step) && !OfLadder(step)
    ensures Apply(o, s, step).op == AwaitingReady(Reported) ==> s.op == AwaitingReady(Reported)
  {
  }

  lemma {:induction false} RunKeepsReport(o: Settings, before: seq<Step>)
    requires Legal(o, INIT, before)
    ensures ReportInv(Exec(o, INIT, before), MarkerSince(before))
    decreases |before|
  {
    if before != [] {
      var first, step := before[..|before| - 1], before[|before| - 1];
      SplitLast(o, INIT, before);
      RunKeepsReport(o, first);
      StepKeepsReport(o, Exec(o, INIT, first), step, MarkerSince(first));
    }
  }

  /** A run by its last step. */
  lemma {:induction false} SplitLast(o: Settings, s: State, steps: seq<Step>)
    requires Legal(o, s, steps) && steps != []
    ensures
      var first, step := steps[..|steps| - 1], steps[|steps| - 1];
      && Legal(o, s, first) && Enabled(Exec(o, s, first), step)
      && Exec(o, s, steps) == Apply(o, Exec(o, s, first), step)
    decreases |steps|
  {
    if |steps| == 1 {
      assert steps == [steps[0]];
      One(o, s, steps[0]);
    } else {
      SplitLast(o, Apply(o, s, steps[0]), steps[1..]);
      assert steps[1..][..|steps| - 2] == steps[..|steps| - 1][1..];
    }
  }

  lemma StartStepEnds(o: Settings, s: State, step: Step)
    requires Enabled(s, step) && OfStart(step) && OfDoStart(s.op) && !step.Materialized?
    ensures Apply(o, s, step).op.Idle? ==> Apply(o, s, step).phase.Failed?
  {
  }

  lemma SpawnStepEnds(o: Settings, s: State, step: Step)
    requires Enabled(s, step) && step.Materialized?
    ensures Apply(o, s, step).op.Idle? <==> !o.waitsForMarker && step == Materialized(Spawned)
    ensures Apply(o, s, step).op.Idle? ==> Apply(o, s, step).phase.Running?
  {
  }

  lemma ReadyStepEnds(o: Settings, s: State, step: Step)
    requires Enabled(s, step) && !OfStart(step) && OfDoStart(s.op)
    ensures Apply(o, s, step).op.Idle? ==>
              && (Apply(o, s, step).phase.Running? <==> step.ReadyResumed? && s.op == AwaitingReady(Reported))
              && (!Apply(o, s, step).phase.Running? ==> Apply(o, s, step).phase.Failed?)
  {
    if OfWait(step) {
    } else if OfLadder(step) {
    } else {
      WorldKeepsLock(o, s, step);
    }
  }

  lemma WorldKeepsLock(o: Settings, s: State, step: Step)
    requires Enabled(s, step) && !OfStart(step) && !OfWait(step) && !OfLadder(step) && !s.op.Idle?
    ensures !Apply(o, s, step).op.Idle?
  {
  }

  /**
   Over every run a start ends in phase running or failed; with a readiness pattern it ends in running only
   after the marker was seen in the output of the process it has spawned, without one only by spawning;
   and the failed start has left a process tracked only if both exit waits for it expired.
   */
  lemma StartEndsReadyOrFailed(o: Settings, before: seq<Step>, step: Step)
    requires Legal(o, INIT, before) && Enabled(Exec(o, INIT, before), step)
    requires OfDoStart(Exec(o, INIT, before).op) && Apply(o, Exec(o, INIT, before), step).op.Idle?
    ensures
      var s := Exec(o, INIT, before);
      var t := Apply(o, s, step);
      && t.phase in {Running, Failed}
      && (o.waitsForMarker && t.phase.Running? ==> MarkerSince(before))
      && (!o.waitsForMarker ==> (t.phase.Running? <==> step == Materialized(Spawned)))
      && (Orderly(o, INIT, before) && t.phase.Failed? && t.handle.Some? ==>
            step.ExitTimeout? && Expired(o, INIT, before, 0) == 1)
  {
    var s := Exec(o, INIT, before);
    RunKeepsReport(o, before);
    TwoWaitsBeforeGivingUp(o, before, step);
    RunKeepsKernelInv(o, INIT, before);
    if OfStart(step) {
      if step.Materialized? {
        SpawnStepEnds(o, s, step);
      } else {
        StartStepEnds(o, s, step);
        FailedStartTracksNothing(o, s, step);
      }
    } else {
      ReadyStepEnds(o, s, step);
      if !o.waitsForMarker {
        RunNeverWaits(o, INIT, before);
      }
      if !s.op.WaitingExit? {
        AbortTracksNothing(o, s, step);
      }
    }
  }

  lemma FailedStartTracksNothing(o: Settings, s: State, step: Step)
    requires KernelInv(s) && Enabled(s, step) && OfStart(step) && OfDoStart(s.op) && !step.Materialized?
    ensures Apply(o, s, step).op.Idle? && Apply(o, s, step).phase.Failed? ==> Apply(o, s, step).handle.None?
  {
  }

  lemma AbortTracksNothing(o: Settings, s: State, step: Step)
    requires KernelInv(s) && Enabled(s, step) && !OfStart(step) && OfDoStart(s.op) && !s.op.WaitingExit?
    ensures Apply(o, s, step).op.Idle? && Apply(o, s, step).phase.Failed? ==> Apply(o, s, step).handle.None?
  {
    if !OfWait(step) && !OfLadder(step) {
      WorldKeepsLock(o, s, step);
    }
  }

  lemma {:induction false} RunNeverWaits(o: Settings, s: State, steps: seq<Step>)
    requires !o.waitsForMarker && !s.op.AwaitingReady? && Legal(o, s, steps)
    ensures !Exec(o, s, steps).op.AwaitingReady?
    decreases |steps|
  {
    if steps != [] {
      if OfStart(steps[0]) || OfWait(steps[0]) || OfLadder(steps[0]) {
        OperationNeverWaits(o, s, steps[0]);
      } else {
        WorldNeverWaits(o, s, steps[0]);
      }
      RunNeverWaits(o, Apply(o, s, steps[0]), steps[1..]);
    }
  }

  // ---------------------------------------------------------------------------
  // Refills of the restart budget
  // ---------------------------------------------------------------------------

  /** No restart carries an epoch that is still to come. */
  ghost predicate EpochInv(s: State) {
    forall e <- s.restarts :: e <= s.restartEpoch
  }

  lemma StartKeepsEpochs(o: Settings, s: State, step: Step)
    requires EpochInv(s) && Enabled(s, step) && OfStart(step)
    ensures EpochInv(Apply(o, s, step))
  {
  }

  lemma WaitKeepsEpochs(o: Settings, s: State, step: Step)
    requires EpochInv(s) && Enabled(s, step) && OfWait(step)
    ensures EpochInv(Apply(o, s, step))
  {
    if step.StopCall? {
      StopRefills(s);
    }
  }

  lemma LadderKeepsEpochs(o: Settings, s: State, step: Step)
    requires EpochInv(s) && Enabled(s, step) && OfLadder(step)
    ensures EpochInv(Apply(o, s, step))
  {
  }

  lemma EventKeepsEpochs(o: Settings, s: State, step: Step)
    requires EpochInv(s) && Enabled(s, step) && IsEvent(step)
    ensures EpochInv(Apply(o, s, step))
  {
  }

  lemma RestartKeepsEpochs(o: Settings, s: State, step: Step)
    requires EpochInv(s) && Enabled(s, step)
    requires step.RestartFired? || step.RestartQueued? || step.QueuedRestartRuns? || step.BudgetTimer?
    ensures EpochInv(Apply(o, s, step))
  {
  }

  lemma {:induction false} RunKeepsEpochs(o: Settings, s: State, steps: seq<Step>)
    requires EpochInv(s) && Legal(o, s, steps)
    ensures EpochInv(Exec(o, s, steps))
    decreases |steps|
  {
    if steps != [] {
      if OfStart(steps[0]) {
        StartKeepsEpochs(o, s, steps[0]);
      } else if OfWait(steps[0]) {
        WaitKeepsEpochs(o, s, steps[0]);
      } else if OfLadder(steps[0]) {
        LadderKeepsEpochs(o, s, steps[0]);
      } else if IsEvent(steps[0]) {
        EventKeepsEpochs(o, s, steps[0]);
      } else {
        RestartKeepsEpochs(o, s, steps[0]);
      }
      RunKeepsEpochs(o, Apply(o, s, steps[0]), steps[1..]);
    }
  }

  /** In every run a refill leaves the whole budget, and a start or a stop no restart that could still fire. */
  lemma RefillIsWhole(o: Settings, before: seq<Step>, step: Step)
    requires Legal(o, INIT, before) && Enabled(Exec(o, INIT, before), step) && Resets(Exec(o, INIT, before), step)
    ensures
      var t := Apply(o, Exec(o, INIT, before), step);
      t.restartCount == 0 && (!step.BudgetTimer? ==> Live(t) == 0)
  {
    RunKeepsEpochs(o, INIT, before);
    if step.StopCall? {
      StopRefills(Exec(o, INIT, before));
    }
  }

  lemma StopRefills(s: State)
    requires EpochInv(s)
    ensures EpochInv(BeginStop(s)) && BeginStop(s).restartCount == 0 && Live(BeginStop(s)) == 0
  {
  }

  /** Nothing happens to the running process, and its timer has not fired. */
  predicate Sustained(steps: seq<Step>) {
    forall step <- steps :: !step.ExitEvent? && !step.ErrorEvent? && !step.StopCall? && !step.BudgetTimer?
  }

  /** A process that runs, with its timer armed, the lock free, and nothing left to clean up. */
  predicate RunsTimed(s: State, epoch: nat) {
    && s.op.Idle? && s.phase.Running? && s.handle.Some? && s.tasks == map[]
    && s.healthyEpoch == epoch && epoch in s.timers
  }

  lemma SustainedStep(o: Settings, s: State, step: Step, epoch: nat)
    requires RunsTimed(s, epoch) && Enabled(s, step) && Sustained([step])
    ensures RunsTimed(Apply(o, s, step), epoch)
  {
    assert step in [step];
  }

  lemma {:induction false} SustainedGoesOn(o: Settings, s: State, steps: seq<Step>, epoch: nat)
    requires RunsTimed(s, epoch) && Legal(o, s, steps) && Sustained(steps)
    ensures RunsTimed(Exec(o, s, steps), epoch)
    decreases |steps|
  {
    if steps != [] {
      assert steps[0] in steps;
      SustainedStep(o, s, steps[0], epoch);
      SustainedGoesOn(o, Apply(o, s, steps[0]), steps[1..], epoch);
    }
  }

  lemma StartTurnsRunning(o: Settings, s: State, step: Step)
    requires Enabled(s, step) && OfStart(step) && !step.Materialized? && !s.phase.Running?
    ensures !Apply(o, s, step).phase.Running?
  {
  }

  lemma WaitTurnsRunning(o: Settings, s: State, step: Step)
    requires Enabled(s, step) && OfWait(step) && !step.ReadyResumed? && !s.phase.Running?
    ensures !Apply(o, s, step).phase.Running?
  {
    if step.StopCall? {
      assert !BeginStop(s).phase.Running?;
    }
  }

  lemma LadderTurnsRunning(o: Settings, s: State, step: Step)
    requires Enabled(s, step) && OfLadder(step) && !s.phase.Running?
    ensures !Apply(o, s, step).phase.Running?
  {
  }

  lemma WorldTurnsRunning(o: Settings, s: State, step: Step)
    requires Enabled(s, step) && !OfStart(step) && !OfWait(step) && !OfLadder(step) && !s.phase.Running?
    ensures !Apply(o, s, step).phase.Running?
  {
  }

  lemma SpawnIsTimed(o: Settings, s: State, outcome: SpawnOutcome)
    requires KernelInv(s) && TaskInv(s) && s.op.Materializing? && !s.phase.Running?
    requires SpawnKernel(o, s, outcome).phase.Running?
    requires o.maxRestarts > 0 && o.budgetResetMs > 0
    ensures RunsTimed(SpawnKernel(o, s, outcome), SpawnKernel(o, s, outcome).healthyEpoch)
  {
  }

  lemma ReportIsTimed(o: Settings, s: State)
    requires KernelInv(s) && TaskInv(s) && Enabled(s, ReadyResumed) && !s.phase.Running?
    requires Apply(o, s, ReadyResumed).phase.Running? && Apply(o, s, ReadyResumed).handle.Some?
    requires o.maxRestarts > 0 && o.budgetResetMs > 0
    ensures RunsTimed(Apply(o, s, ReadyResumed), Apply(o, s, ReadyResumed).healthyEpoch)
  {
  }

  lemma RunningIsTimed(o: Settings, s: State, step: Step)
    requires KernelInv(s) && TaskInv(s) && Enabled(s, step)
    requires !s.phase.Running? && Apply(o, s, step).phase.Running? && Apply(o, s, step).handle.Some?
    requires o.maxRestarts > 0 && o.budgetResetMs > 0
    ensures RunsTimed(Apply(o, s, step), Apply(o, s, step).healthyEpoch)
  {
    if step.Materialized? {
      SpawnIsTimed(o, s, step.outcome);
    } else if step.ReadyResumed? {
      ReportIsTimed(o, s);
    } else if OfStart(step) {
      StartTurnsRunning(o, s, step);
    } else if OfWait(step) {
      WaitTurnsRunning(o, s, step);
    } else if OfLadder(step) {
      LadderTurnsRunning(o, s, step);
    } else {
      WorldTurnsRunning(o, s, step);
    }
  }

  /**
   A sustained run refills the budget: when the phase turns running with the process tracked, its timer
   is armed, and if nothing happens to the process until it fires, the whole budget is back.
   */
  lemma SustainedRunRefills(o: Settings, before: seq<Step>, step: Step, after: seq<Step>)
    requires Legal(o, INIT, before) && Orderly(o, INIT, before) && Enabled(Exec(o, INIT, before), step)
    requires o.maxRestarts > 0 && o.budgetResetMs > 0
    requires !Exec(o, INIT, before).phase.Running?
    requires
      var t := Apply(o, Exec(o, INIT, before), step);
      t.phase.Running? && t.handle.Some? && Legal(o, t, after) && Sustained(after)
    ensures
      var t := Apply(o, Exec(o, INIT, before), step);
      var u, timer := Exec(o, t, after), BudgetTimer(t.healthyEpoch);
      && Enabled(u, timer)
      && Apply(o, u, timer).restartCount == 0 && Apply(o, u, timer).phase.Running? && Apply(o, u, timer).handle.Some?
  {
    var s := Exec(o, INIT, before);
    RunKeepsClean(o, INIT, before);
    RunningIsTimed(o, s, step);
    var t := Apply(o, s, step);
    SustainedGoesOn(o, t, after, t.healthyEpoch);
    TimerRefills(o, Exec(o, t, after), t.healthyEpoch);
  }

  lemma TimerRefills(o: Settings, s: State, epoch: nat)
    requires RunsTimed(s, epoch)
    ensures Enabled(s, BudgetTimer(epoch))
    ensures
      var t := Apply(o, s, BudgetTimer(epoch));
      t.restartCount == 0 && t.phase.Running? && t.handle.Some?
  {
  }

  /** While the newest timer is armed in phase running, its process is tracked or has just reported an error. */
  ghost predicate OwnerInv(s: State) {
    && !s.op.AwaitingReady?
    && (s.phase.Running? && s.healthyEpoch in s.timers ==>
          s.handle.Some? || (TaskPending(s) && PendingTask(s).ErrorTask?))
  }

  lemma StartKeepsOwner(o: Settings, s: State, step: Step)
    requires !o.waitsForMarker && KernelInv(s) && TimerInv(s) && OwnerInv(s) && Enabled(s, step) && OfStart(step)
    ensures OwnerInv(Apply(o, s, step))
  {
  }

  lemma WaitKeepsOwner(o: Settings, s: State, step: Step)
    requires KernelInv(s) && TimerInv(s) && OwnerInv(s) && Enabled(s, step) && OfWait(step)
    ensures OwnerInv(Apply(o, s, step))
  {
    if step.StopCall? {
      assert !Apply(o, s, StopCall).phase.Running? || Apply(o, s, StopCall).handle.None?;
    }
  }

  lemma LadderKeepsOwner(o: Settings, s: State, step: Step)
    requires TimerInv(s) && OwnerInv(s) && Enabled(s, step) && OfLadder(step)
    ensures OwnerInv(Apply(o, s, step))
  {
  }

  lemma EventKeepsOwner(o: Settings, s: State, step: Step)
    requires KernelInv(s) && TimerInv(s) && OwnerInv(s) && Enabled(s, step) && IsEvent(step)
    ensures OwnerInv(Apply(o, s, step))
  {
  }

  lemma RestartKeepsOwner(o: Settings, s: State, step: Step)
    requires OwnerInv(s) && Enabled(s, step) && (step.RestartFired? || step.QueuedRestartRuns?)
    ensures OwnerInv(Apply(o, s, step))
  {
  }

  lemma TimerKeepsOwner(o: Settings, s: State, step: Step)
    requires OwnerInv(s) && Enabled(s, step) && (step.RestartQueued? || step.BudgetTimer?)
    ensures OwnerInv(Apply(o, s, step))
  {
  }

  lemma {:induction false} RunKeepsOwner(o: Settings, s: State, steps: seq<Step>)
    requires !o.waitsForMarker && KernelInv(s) && TimerInv(s) && OwnerInv(s) && Legal(o, s, steps)
    ensures OwnerInv(Exec(o, s, steps))
    decreases |steps|
  {
    if steps != [] {
      var step := steps[0];
      One(o, s, step);
      RunKeepsTimers(o, s, [step]);
      if OfStart(step) {
        StartKeepsOwner(o, s, step);
      } else if OfWait(step) {
        WaitKeepsOwner(o, s, step);
      } else if OfLadder(step) {
        LadderKeepsOwner(o, s, step);
      } else if IsEvent(step) {
        EventKeepsOwner(o, s, step);
      } else if step.RestartFired? || step.QueuedRestartRuns? {
        RestartKeepsOwner(o, s, step);
      } else {
        TimerKeepsOwner(o, s, step);
      }
      RunKeepsOwner(o, Apply(o, s, step), steps[1..]);
    }
  }

  /** Without a readiness pattern a timer never refills the budget of a process whose exit was seen. */
  lemma ExitEndsTheSustainedRun(o: Settings, before: seq<Step>, epoch: nat)
    requires !o.waitsForMarker && Legal(o, INIT, before)
    requires Enabled(Exec(o, INIT, before), BudgetTimer(epoch)) && Resets(Exec(o, INIT, before), BudgetTimer(epoch))
    ensures
      var s := Exec(o, INIT, before);
      s.handle.Some? || (TaskPending(s) && PendingTask(s).ErrorTask?)
  {
    RunKeepsOwner(o, INIT, before);
  }

  /** In every run the exit of the process, and a stop of a tracked one, leave no timer that could still refill. */
  lemma TimerIsInvalidated(o: Settings, before: seq<Step>, step: Step)
    requires Legal(o, INIT, before) && Enabled(Exec(o, INIT, before), step)
    requires
      var s := Exec(o, INIT, before);
      step.ExitEvent? || (step.StopCall? && s.handle.Some? && !s.phase.Stopped?)
    ensures
      var t := Apply(o, Exec(o, INIT, before), step);
      t.healthyEpoch !in t.timers
  {
    RunKeepsTimers(o, INIT, before);
  }

  /** In every run the epoch under which a running phase is armed is a new one: no earlier timer can refill it. */
  lemma TimerIsFresh(o: Settings, before: seq<Step>, step: Step)
    requires Legal(o, INIT, before) && Enabled(Exec(o, INIT, before), step)
    requires !Exec(o, INIT, before).phase.Running? && Apply(o, Exec(o, INIT, before), step).phase.Running?
    ensures
      var s := Exec(o, INIT, before);
      Apply(o, s, step).healthyEpoch !in s.timers
  {
    var s := Exec(o, INIT, before);
    RunKeepsTimers(o, INIT, before);
    if step.Materialized? {
      SpawnIsFresh(o, s, step.outcome);
    } else if OfStart(step) {
      StartTurnsRunning(o, s, step);
    } else if OfWait(step) {
      WaitIsFresh(o, s, step);
    } else if OfLadder(step) {
      LadderTurnsRunning(o, s, step);
    } else {
      WorldTurnsRunning(o, s, step);
    }
  }

  lemma SpawnIsFresh(o: Settings, s: State, outcome: SpawnOutcome)
    requires TimerInv(s) && s.op.Materializing? && !s.phase.Running? && SpawnKernel(o, s, outcome).phase.Running?
    ensures SpawnKernel(o, s, outcome).healthyEpoch !in s.timers
  {
  }

  lemma WaitIsFresh(o: Settings, s: State, step: Step)
    requires TimerInv(s) && Enabled(s, step) && OfWait(step)
    requires !s.phase.Running? && Apply(o, s, step).phase.Running?
    ensures Apply(o, s, step).healthyEpoch !in s.timers
  {
    if !step.ReadyResumed? {
      WaitTurnsRunning(o, s, step);
    }
  }

  // ---------------------------------------------------------------------------
  // Error reports
  // ---------------------------------------------------------------------------

  /** A start that waits for the report can be told. */
  predicate ListensInv(s: State) {
    s.op == AwaitingReady(Pending) ==> s.readiness
  }

  lemma StartKeepsListening(o: Settings, s: State, step: Step)
    requires ListensInv(s) && Enabled(s, step) && OfStart(step)
    ensures ListensInv(Apply(o, s, step))
  {
  }

  lemma WaitKeepsListening(o: Settings, s: State, step: Step)
    requires ListensInv(s) && Enabled(s, step) && (OfWait(step) || OfLadder(step))
    ensures ListensInv(Apply(o, s, step))
  {
    if OfLadder(step) {
      LadderWaitsForNoReport(o, s, step);
    }
  }

  lemma LadderWaitsForNoReport(o: Settings, s: State, step: Step)
    requires Enabled(s, step) && OfLadder(step)
    ensures !Apply(o, s, step).op.AwaitingReady?
  {
  }

  lemma WorldKeepsListening(o: Settings, s: State, step: Step)
    requires ListensInv(s) && Enabled(s, step) && !OfStart(step) && !OfWait(step) && !OfLadder(step)
    ensures ListensInv(Apply(o, s, step))
  {
  }

  lemma {:induction false} RunKeepsListening(o: Settings, s: State, steps: seq<Step>)
    requires ListensInv(s) && Legal(o, s, steps)
    ensures ListensInv(Exec(o, s, steps))
    decreases |steps|
  {
    if steps != [] {
      if OfStart(steps[0]) {
        StartKeepsListening(o, s, steps[0]);
      } else if OfWait(steps[0]) || OfLadder(steps[0]) {
        WaitKeepsListening(o, s, steps[0]);
      } else {
        WorldKeepsListening(o, s, steps[0]);
      }
      RunKeepsListening(o, Apply(o, s, steps[0]), steps[1..]);
    }
  }

  /** The start that was refused: it has not resumed, or it is taking the process down. */
  predicate IsRefused(s: State) {
    || (s.op == AwaitingReady(Refused) && !s.readiness)
    || ((s.op.WaitingExit? || s.op.ExitJoin?) && s.op.cause.AbortStart?)
  }

  /** The refused start holds the lock until the run is over. */
  predicate StaysRefused(o: Settings, s: State, steps: seq<Step>)
    requires Legal(o, s, steps)
    decreases |steps|
  {
    steps == [] || (!s.op.Idle? && StaysRefused(o, Apply(o, s, steps[0]), steps[1..]))
  }

  predicate RefusedOrFailed(s: State) {
    IsRefused(s) || (s.op.Idle? && s.phase.Failed?)
  }

  lemma RequestKeepsRefusal(o: Settings, s: State, step: Step)
    requires IsRefused(s) && Enabled(s, step) && (OfStart(step) || OfWait(step) || OfLadder(step))
    ensures RefusedOrFailed(Apply(o, s, step))
  {
    if OfLadder(step) {
      LadderKeepsRefusal(o, s, step);
    }
  }

  lemma LadderKeepsRefusal(o: Settings, s: State, step: Step)
    requires IsRefused(s) && Enabled(s, step) && OfLadder(step)
    ensures RefusedOrFailed(Apply(o, s, step))
  {
  }

  lemma WorldKeepsRefusal(o: Settings, s: State, step: Step)
    requires IsRefused(s) && Enabled(s, step) && !OfStart(step) && !OfWait(step) && !OfLadder(step)
    ensures IsRefused(Apply(o, s, step))
  {
  }

  lemma {:induction false} RefusalGoesOn(o: Settings, s: State, steps: seq<Step>)
    requires RefusedOrFailed(s) && Legal(o, s, steps) && StaysRefused(o, s, steps)
    ensures RefusedOrFailed(Exec(o, s, steps))
    decreases |steps|
  {
    if steps != [] {
      if OfStart(steps[0]) || OfWait(steps[0]) || OfLadder(steps[0]) {
        RequestKeepsRefusal(o, s, steps[0]);
      } else {
        WorldKeepsRefusal(o, s, steps[0]);
      }
      RefusalGoesOn(o, Apply(o, s, steps[0]), steps[1..]);
    }
  }

  /** In every run, a start that waits for its report and is told of an error instead ends in phase failed. */
  lemma ErrorRefusesTheStart(o: Settings, before: seq<Step>, step: Step, after: seq<Step>)
    requires Legal(o, INIT, before) && Enabled(Exec(o, INIT, before), step) && step.ErrorEvent?
    requires Exec(o, INIT, before).op == AwaitingReady(Pending)
    requires
      var t := Apply(o, Exec(o, INIT, before), step);
      Legal(o, t, after) && StaysRefused(o, t, after) && Exec(o, t, after).op.Idle?
    ensures Exec(o, Apply(o, Exec(o, INIT, before), step), after).phase.Failed?
  {
    RunKeepsListening(o, INIT, before);
    RefusalGoesOn(o, Apply(o, Exec(o, INIT, before), step), after);
  }

  /**
   In every run an error report of a process that seems alive ends phase running and keeps the process
   tracked; any other drops the handle of a dead process and leaves a task that cleans up and fails.
   */
  lemma ErrorIsNeverIgnored(o: Settings, before: seq<Step>, pid: nat, seemsAlive: bool)
    requires Legal(o, INIT, before) && Enabled(Exec(o, INIT, before), ErrorEvent(pid, seemsAlive))
    ensures
      var s := Exec(o, INIT, before);
      var t := Apply(o, s, ErrorEvent(pid, seemsAlive));
      && t.alive == s.alive
      && (if seemsAlive then t.phase.Failed? && t.handle == s.handle == Some(pid)
          else t.alive == {} && t.handle.None? && pid in t.tasks && t.tasks[pid].ErrorTask? && t.exitWork == Some(pid))
  {
    RunKeepsKernelInv(o, INIT, before);
  }
}
