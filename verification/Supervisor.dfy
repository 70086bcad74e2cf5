/**
 The kernel process supervisor of src-tauri/src/kernel_process.rs as a state machine.

 One step is the code between two `await`s. `op` is the suspended holder of the
 lifecycle lock, `tasks` are the post-exit cleanup tasks (keyed by the process whose
 terminal event created them), `restarts` the sleeping crash restarts (by the epoch
 they captured), `queued` the restarts that passed their epoch check while the lock
 was held, and `timers` the armed budget timers (epoch to process).

 Processes and workspaces are numbered in the order they were created. `alive` is
 what the operating system runs, `events` the processes whose single terminal event
 has not been delivered yet.
 */
module Supervisor {
  import Text
  import opened Wrappers

  datatype Settings = Settings(
    maxRestarts: nat,
    backoffMs: nat,
    maxBackoffMs: nat,
    budgetResetMs: nat,
    waitsForMarker: bool)

  datatype Phase = Stopped | Starting | Running | Stopping | Failed

  /** Who runs the SIGTERM/SIGKILL ladder: an aborted start or a stop request. */
  datatype Cause = AbortStart | StopRequest

  datatype Signal = Term | Kill

  datatype Readiness = Pending | Reported | Refused

  datatype Op =
    | Idle
    | StartJoin(awaited: Option<nat>)
    | Resolving
    | Materializing
    | SpawnCleanup(workspace: nat)
    | AwaitingReady(readiness: Readiness)
    | WaitingExit(cause: Cause, signal: Signal, pid: nat, exited: bool)
    | ExitJoin(cause: Cause, awaited: Option<nat>)
    | StopJoin(awaited: Option<nat>)

  datatype Stage = Fresh | Cleaning(workspace: Option<nat>)

  datatype Task =
    | ExitTask(stage: Stage, wasRunning: bool)
    | ErrorTask(stage: Stage)

  datatype State = State(
    phase: Phase,
    handle: Option<nat>,
    config: Option<nat>,
    isStopping: bool,
    restartCount: nat,
    readiness: bool,
    exitWait: bool,
    exitWork: Option<nat>,
    restartEpoch: nat,
    healthyEpoch: nat,
    op: Op,
    tasks: map<nat, Task>,
    restarts: multiset<nat>,
    queued: nat,
    timers: map<nat, nat>,
    alive: set<nat>,
    events: set<nat>,
    workspaceOf: seq<nat>,
    cleanups: seq<nat>,
    cleaned: set<nat>)

  const INIT := State(Stopped, None, None, false, 0, false, false, None, 0, 0,
                      Idle, map[], multiset{}, 0, map[], {}, {}, [], [], {})

  datatype SpawnOutcome = SpawnFailed | NoPid | Spawned

  datatype Step =
    | StartCall
    | StartJoined
    | ResolveFailed
    | Resolved
    | MaterializeFailed
    | Materialized(outcome: SpawnOutcome)
    | SpawnCleaned
    | MarkerSeen
    | ReadyTimeout
    | ReadyResumed
    | ExitSignalled
    | ExitTimeout
    | ExitJoined
    | StopCall
    | StopJoined
    | Died(pid: nat)
    | ExitEvent(pid: nat)
    | ErrorEvent(pid: nat, seemsAlive: bool)
    | TaskStarted(task: nat)
    | TaskFinished(task: nat)
    | RestartFired(epoch: nat)
    | RestartQueued(epoch: nat)
    | QueuedRestartRuns
    | BudgetTimer(epoch: nat)

  // ---------------------------------------------------------------------------
  // Segments of the source
  // ---------------------------------------------------------------------------

  predicate Joined(s: State, awaited: Option<nat>) {
    awaited.None? || awaited.value !in s.tasks
  }

  /** `raise_failed`, after which the operation releases the lifecycle lock. */
  function RaiseFailed(s: State): State {
    s.(phase := Failed, op := Idle)
  }

  /** The head of `do_start`, up to the resolver. */
  function BeginDoStart(s: State): State {
    s.(phase := Starting, op := Resolving)
  }

  /** The tail of `do_start` once the kernel is ready. */
  function MarkRunning(o: Settings, s: State): State {
    var epoch := s.healthyEpoch + 1;
    s.(phase := Running,
       op := Idle,
       healthyEpoch := epoch,
       timers := if o.maxRestarts > 0 && o.budgetResetMs > 0 && |s.workspaceOf| > 0
                 then s.timers[epoch := |s.workspaceOf| - 1] else s.timers)
  }

  /** What follows `terminate_and_wait` in its caller. */
  function FinishTerminate(s: State, cause: Cause, exited: bool): State {
    s.(phase := if cause.StopRequest? && exited then s.phase else Failed,
       op := Idle,
       isStopping := s.isStopping && (cause.AbortStart? || exited))
  }

  /** The head of `terminate_and_wait`: SIGTERM and the first exit wait. */
  function BeginTerminate(s: State, cause: Cause): State {
    match s.handle
    case None => FinishTerminate(s, cause, true)
    case Some(pid) => s.(exitWait := true, op := WaitingExit(cause, Term, pid, false))
  }

  /** An exit wait ran out: escalate to SIGKILL, or give up. */
  function EscalateTerminate(s: State): State
    requires s.op.WaitingExit?
  {
    var t := s.(exitWait := false);
    if s.op.signal == Kill then FinishTerminate(t, s.op.cause, false)
    else if s.handle != Some(s.op.pid) then
      t.(op := ExitJoin(s.op.cause, s.exitWork), exitWork := None)
    else
      t.(exitWait := true, op := s.op.(signal := Kill))
  }

  /** `materialize` succeeded: the config is recorded and the process spawned. */
  function SpawnKernel(o: Settings, s: State, outcome: SpawnOutcome): State {
    var workspace := |s.cleanups|;
    var t := s.(config := Some(workspace), cleanups := s.cleanups + [0]);
    match outcome
    case SpawnFailed => BeginSpawnCleanup(t)
    case NoPid => BeginSpawnCleanup(t.(handle := None))
    case Spawned =>
      var pid := |s.workspaceOf|;
      var u := t.(handle := Some(pid),
                  workspaceOf := s.workspaceOf + [workspace],
                  alive := s.alive + {pid},
                  events := s.events + {pid});
      if o.waitsForMarker then u.(readiness := true, op := AwaitingReady(Pending))
      else MarkRunning(o, u)
  }

  /** `cleanup_config` up to its await, on the failed-spawn path. */
  function BeginSpawnCleanup(s: State): State
    requires s.config.Some? && s.config.value < |s.cleanups|
  {
    var w := s.config.value;
    s.(config := None, cleanups := s.cleanups[w := s.cleanups[w] + 1], op := SpawnCleanup(w))
  }

  /** `stop` up to its first await. */
  function BeginStop(s: State): State {
    var t := s.(restartEpoch := s.restartEpoch + 1, restartCount := 0);
    if s.phase == Stopped then t
    else if s.handle.None? then
      t.(op := StopJoin(s.exitWork), exitWork := None)
    else
      BeginTerminate(t.(isStopping := true, healthyEpoch := s.healthyEpoch + 1, phase := Stopping),
                     StopRequest)
  }

  /** `start` up to its first await; an early answer leaves everything as it is. */
  function BeginStart(s: State): State {
    if s.phase in {Running, Starting, Stopping} || s.handle.Some? then s
    else s.(op := StartJoin(s.exitWork), exitWork := None)
  }

  /** `handle_exit`. The event is not keyed by process: whatever is tracked is dropped. */
  function HandleExit(s: State, pid: nat): State {
    s.(events := s.events - {pid},
       handle := None,
       healthyEpoch := s.healthyEpoch + 1,
       tasks := s.tasks[pid := ExitTask(Fresh, s.phase == Running)],
       exitWork := Some(pid))
  }

  /** `handle_error`, with what the liveness probe answered. */
  function HandleError(s: State, pid: nat, seemsAlive: bool): State {
    var t := s.(events := s.events - {pid},
                readiness := false,
                op := if s.readiness && s.op.AwaitingReady? then AwaitingReady(Refused) else s.op);
    if s.handle.Some? && seemsAlive then t.(phase := Failed)
    else t.(handle := None, tasks := s.tasks[pid := ErrorTask(Fresh)], exitWork := Some(pid))
  }

  /** A post-exit task takes the config and starts removing its workspace. */
  function BeginTaskCleanup(s: State, task: nat): State
    requires task in s.tasks
    requires s.config.Some? ==> s.config.value < |s.cleanups|
  {
    s.(config := None,
       cleanups := if s.config.None? then s.cleanups
                   else s.cleanups[s.config.value := s.cleanups[s.config.value] + 1],
       tasks := s.tasks[task := s.tasks[task].(stage := Cleaning(s.config))])
  }

  /** `schedule_restart`. */
  function ScheduleRestart(o: Settings, s: State): State {
    var n := if s.restartCount >= o.maxRestarts then 0 else 1;
    s.(restartCount := s.restartCount + n, restarts := s.restarts[s.restartEpoch := s.restarts[s.restartEpoch] + n])
  }

  /** The rest of a post-exit task: resolve the exit wait, then set the status. */
  function FinishTask(o: Settings, s: State, task: nat): State
    requires task in s.tasks && s.tasks[task].stage.Cleaning?
  {
    var done := s.tasks[task];
    var t := s.(tasks := s.tasks - {task},
                cleaned := if done.stage.workspace.Some? then s.cleaned + {done.stage.workspace.value} else s.cleaned,
                exitWait := false,
                op := if s.exitWait && s.op.WaitingExit? then s.op.(exited := true) else s.op);
    match done
    case ErrorTask(_) => t.(phase := Failed)
    case ExitTask(_, wasRunning) =>
      if s.isStopping then t.(isStopping := false, phase := Stopped)
      else if wasRunning then ScheduleRestart(o, t.(phase := Failed))
      else t.(phase := Failed)
  }

  /** A crash restart holding the lock. */
  function RunRestart(s: State): State {
    if s.handle.Some? || s.phase != Failed then s
    else BeginDoStart(s)
  }

  /** A sleeping restart wakes up and finds the lock free. */
  function FireRestart(s: State, epoch: nat): State
    requires epoch in s.restarts
  {
    var t := s.(restarts := s.restarts[epoch := s.restarts[epoch] - 1]);
    if epoch != s.restartEpoch then t else RunRestart(t)
  }

  /** A sleeping restart wakes up, passes its epoch check and queues for the lock. */
  function QueueRestart(s: State, epoch: nat): State
    requires epoch in s.restarts
  {
    var t := s.(restarts := s.restarts[epoch := s.restarts[epoch] - 1]);
    if epoch != s.restartEpoch then t else t.(queued := s.queued + 1)
  }

  /** The sustained-run timer. */
  function FireBudgetTimer(s: State, epoch: nat): State {
    var t := s.(timers := s.timers - {epoch});
    if epoch == s.healthyEpoch && s.phase == Running && s.restartCount > 0
    then t.(restartCount := 0) else t
  }

  // ---------------------------------------------------------------------------
  // The step relation
  // ---------------------------------------------------------------------------

  predicate Enabled(s: State, step: Step) {
    match step
    case StartCall => s.op.Idle?
    case StartJoined => s.op.StartJoin? && Joined(s, s.op.awaited)
    case ResolveFailed => s.op.Resolving?
    case Resolved => s.op.Resolving?
    case MaterializeFailed => s.op.Materializing?
    case Materialized(_) => s.op.Materializing?
    case SpawnCleaned => s.op.SpawnCleanup?
    case MarkerSeen => true
    case ReadyTimeout => s.op == AwaitingReady(Pending)
    case ReadyResumed => s.op.AwaitingReady? && s.op.readiness != Pending
    case ExitSignalled => s.op.WaitingExit? && s.op.exited
    case ExitTimeout => s.op.WaitingExit? && !s.op.exited
    case ExitJoined => s.op.ExitJoin? && Joined(s, s.op.awaited)
    case StopCall => s.op.Idle?
    case StopJoined => s.op.StopJoin? && Joined(s, s.op.awaited)
    case Died(pid) => pid in s.alive
    case ExitEvent(pid) => pid in s.events && pid !in s.alive
    case ErrorEvent(pid, seemsAlive) =>
      pid in s.events && (s.handle.Some? && s.handle.value in s.alive ==> seemsAlive)
    case TaskStarted(t) =>
      t in s.tasks && s.tasks[t].stage.Fresh? && (s.config.Some? ==> s.config.value < |s.cleanups|)
    case TaskFinished(t) => t in s.tasks && s.tasks[t].stage.Cleaning?
    case RestartFired(epoch) => epoch in s.restarts && s.op.Idle?
    case RestartQueued(epoch) => epoch in s.restarts && !s.op.Idle?
    case QueuedRestartRuns => s.queued > 0 && s.op.Idle?
    case BudgetTimer(epoch) => epoch in s.timers
  }

  function Apply(o: Settings, s: State, step: Step): State
    requires Enabled(s, step)
  {
    match step
    case StartCall => BeginStart(s)
    case StartJoined =>
      BeginDoStart(s.(restartEpoch := s.restartEpoch + 1, restartCount := 0))
    case ResolveFailed => RaiseFailed(s)
    case Resolved => s.(op := Materializing)
    case MaterializeFailed => RaiseFailed(s)
    case Materialized(outcome) => SpawnKernel(o, s, outcome)
    case SpawnCleaned => RaiseFailed(s.(cleaned := s.cleaned + {s.op.workspace}))
    case MarkerSeen =>
      if s.readiness && s.op.AwaitingReady? then s.(readiness := false, op := AwaitingReady(Reported))
      else s
    case ReadyTimeout => BeginTerminate(s.(readiness := false), AbortStart)
    case ReadyResumed =>
      if s.op.readiness == Reported then MarkRunning(o, s.(readiness := false))
      else BeginTerminate(s.(readiness := false), AbortStart)
    case ExitSignalled => FinishTerminate(s, s.op.cause, true)
    case ExitTimeout => EscalateTerminate(s)
    case ExitJoined => FinishTerminate(s, s.op.cause, true)
    case StopCall => BeginStop(s)
    case StopJoined => s.(phase := Stopped, op := Idle)
    case Died(pid) => s.(alive := s.alive - {pid})
    case ExitEvent(pid) => HandleExit(s, pid)
    case ErrorEvent(pid, seemsAlive) => HandleError(s, pid, seemsAlive)
    case TaskStarted(t) => BeginTaskCleanup(s, t)
    case TaskFinished(t) => FinishTask(o, s, t)
    case RestartFired(epoch) => FireRestart(s, epoch)
    case RestartQueued(epoch) => QueueRestart(s, epoch)
    case QueuedRestartRuns => RunRestart(s.(queued := s.queued - 1))
    case BudgetTimer(epoch) => FireBudgetTimer(s, epoch)
  }

  predicate Legal(o: Settings, s: State, steps: seq<Step>)
    decreases |steps|
  {
    steps == [] || (Enabled(s, steps[0]) && Legal(o, Apply(o, s, steps[0]), steps[1..]))
  }

  function Exec(o: Settings, s: State, steps: seq<Step>): State
    requires Legal(o, s, steps)
    decreases |steps|
  {
    if steps == [] then s else Exec(o, Apply(o, s, steps[0]), steps[1..])
  }

  lemma {:induction false} ExtendRun(o: Settings, s: State, steps: seq<Step>, step: Step)
    requires Legal(o, s, steps) && Enabled(Exec(o, s, steps), step)
    ensures Legal(o, s, steps + [step])
    ensures Exec(o, s, steps + [step]) == Apply(o, Exec(o, s, steps), step)
    decreases |steps|
  {
    if steps == [] {
      assert [] + [step] == [step];
      assert [step][1..] == [];
    } else {
      assert (steps + [step])[1..] == steps[1..] + [step];
      ExtendRun(o, Apply(o, s, steps[0]), steps[1..], step);
    }
  }

  // ---------------------------------------------------------------------------
  // One kernel: holds of every run, queued restarts included
  // ---------------------------------------------------------------------------

  /** The lock holder has seen that no process is tracked and has not spawned since. */
  predicate BeforeSpawn(op: Op) {
    op.StartJoin? || op.Resolving? || op.Materializing? || op.SpawnCleanup? || op.StopJoin?
  }

  ghost predicate KernelInv(s: State) {
    && (forall p <- s.alive :: s.handle == Some(p))
    && (forall p <- s.events :: s.handle == Some(p))
    && (s.handle.Some? ==> s.handle.value == |s.workspaceOf| - 1)
    && (BeforeSpawn(s.op) ==> s.handle.None?)
    && (s.op.WaitingExit? ==> s.handle.None? || s.handle.value == s.op.pid)
    && (s.op.ExitJoin? ==> s.handle.None?)
  }

  /** Steps of the lock holder up to and including a spawn. */
  predicate OfStart(step: Step) {
    step.StartCall? || step.StartJoined? || step.ResolveFailed? || step.Resolved? ||
    step.MaterializeFailed? || step.Materialized? || step.SpawnCleaned?
  }

  /** Steps of the readiness wait and of a stop request. */
  predicate OfWait(step: Step) {
    step.MarkerSeen? || step.ReadyTimeout? || step.ReadyResumed? || step.StopCall? || step.StopJoined?
  }

  /** Steps of the termination ladder. */
  predicate OfLadder(step: Step) {
    step.ExitSignalled? || step.ExitTimeout? || step.ExitJoined?
  }

  /** Terminal events of processes and the tasks they leave. */
  predicate IsEvent(step: Step) {
    step.Died? || step.ExitEvent? || step.ErrorEvent? || step.TaskStarted? || step.TaskFinished?
  }

  lemma StartKeepsKernelInv(o: Settings, s: State, step: Step)
    requires KernelInv(s) && Enabled(s, step) && OfStart(step)
    ensures KernelInv(Apply(o, s, step))
  {
    if step.Materialized? {
      SpawnKeepsKernelInv(o, s, step.outcome);
    }
  }

  lemma SpawnKeepsKernelInv(o: Settings, s: State, outcome: SpawnOutcome)
    requires KernelInv(s) && s.op.Materializing?
    ensures KernelInv(SpawnKernel(o, s, outcome))
  {
  }

  lemma LadderKeepsKernelInv(o: Settings, s: State, step: Step)
    requires KernelInv(s) && Enabled(s, step) && OfLadder(step)
    ensures KernelInv(Apply(o, s, step))
  {
    if step.ExitTimeout? {
      EscalateKeepsKernelInv(s);
    }
  }

  lemma EscalateKeepsKernelInv(s: State)
    requires KernelInv(s) && Enabled(s, ExitTimeout)
    ensures KernelInv(EscalateTerminate(s))
  {
  }

  lemma ReadyKeepsKernelInv(o: Settings, s: State, step: Step)
    requires KernelInv(s) && Enabled(s, step) && (step.MarkerSeen? || step.ReadyTimeout? || step.ReadyResumed?)
    ensures KernelInv(Apply(o, s, step))
  {
  }

  lemma StopCallKeepsKernelInv(s: State)
    requires KernelInv(s) && s.op.Idle?
    ensures KernelInv(BeginStop(s))
  {
  }

  lemma WaitKeepsKernelInv(o: Settings, s: State, step: Step)
    requires KernelInv(s) && Enabled(s, step) && OfWait(step)
    ensures KernelInv(Apply(o, s, step))
  {
    if step.StopCall? {
      StopCallKeepsKernelInv(s);
    } else if !step.StopJoined? {
      ReadyKeepsKernelInv(o, s, step);
    }
  }

  lemma EventKeepsKernelInv(o: Settings, s: State, step: Step)
    requires KernelInv(s) && Enabled(s, step) && (step.Died? || step.ExitEvent? || step.ErrorEvent?)
    ensures KernelInv(Apply(o, s, step))
  {
  }

  lemma TaskKeepsKernelInv(o: Settings, s: State, step: Step)
    requires KernelInv(s) && Enabled(s, step) && (step.TaskStarted? || step.TaskFinished?)
    ensures KernelInv(Apply(o, s, step))
  {
  }

  lemma RestartKeepsKernelInv(o: Settings, s: State, step: Step)
    requires KernelInv(s) && Enabled(s, step) && (step.RestartFired? || step.QueuedRestartRuns?)
    ensures KernelInv(Apply(o, s, step))
  {
  }

  lemma TimerKeepsKernelInv(o: Settings, s: State, step: Step)
    requires KernelInv(s) && Enabled(s, step)
    requires step.RestartFired? || step.RestartQueued? || step.QueuedRestartRuns? || step.BudgetTimer?
    ensures KernelInv(Apply(o, s, step))
  {
    if step.RestartFired? || step.QueuedRestartRuns? {
      RestartKeepsKernelInv(o, s, step);
    }
  }

  lemma StepKeepsKernelInv(o: Settings, s: State, step: Step)
    requires KernelInv(s) && Enabled(s, step)
    ensures KernelInv(Apply(o, s, step))
  {
    if OfStart(step) {
      StartKeepsKernelInv(o, s, step);
    } else if OfLadder(step) {
      LadderKeepsKernelInv(o, s, step);
    } else if OfWait(step) {
      WaitKeepsKernelInv(o, s, step);
    } else if step.Died? || step.ExitEvent? || step.ErrorEvent? {
      EventKeepsKernelInv(o, s, step);
    } else if step.TaskStarted? || step.TaskFinished? {
      TaskKeepsKernelInv(o, s, step);
    } else {
      TimerKeepsKernelInv(o, s, step);
    }
  }

  lemma {:induction false} RunKeepsKernelInv(o: Settings, s: State, steps: seq<Step>)
    requires KernelInv(s) && Legal(o, s, steps)
    ensures KernelInv(Exec(o, s, steps))
    decreases |steps|
  {
    if steps != [] {
      StepKeepsKernelInv(o, s, steps[0]);
      RunKeepsKernelInv(o, Apply(o, s, steps[0]), steps[1..]);
    }
  }

  /**
   In every reachable state at most one process is alive, it is the tracked handle, and
   if the next step spawns a process then none is alive beside it.
   */
  lemma OneKernel(o: Settings, steps: seq<Step>)
    requires Legal(o, INIT, steps)
    ensures
      var s := Exec(o, INIT, steps);
      && (forall p, q | p in s.alive && q in s.alive :: p == q)
      && (forall p <- s.alive :: s.handle == Some(p))
      && (forall outcome | Enabled(s, Materialized(outcome)) :: s.alive == {} && s.events == {})
  {
    RunKeepsKernelInv(o, INIT, steps);
  }

  // ---------------------------------------------------------------------------
  // Tasks and workspaces: runs in which no restart starts over a pending cleanup
  // ---------------------------------------------------------------------------

  predicate Awaits(op: Op, task: nat) {
    (op.StartJoin? || op.ExitJoin? || op.StopJoin?) && op.awaited == Some(task)
  }

  /** The post-exit task of the latest process has not finished. */
  predicate TaskPending(s: State) {
    |s.workspaceOf| > 0 && |s.workspaceOf| - 1 in s.tasks
  }

  function PendingTask(s: State): Task
    requires TaskPending(s)
  {
    s.tasks[|s.workspaceOf| - 1]
  }

  /** At most one post-exit task is pending, and whoever must wait for it can find it. */
  ghost predicate TaskInv(s: State) {
    && (forall t <- s.tasks :: t == |s.workspaceOf| - 1)
    && (s.op.StartJoin? || s.op.ExitJoin? || s.op.StopJoin? ==> s.exitWork.None?)
    && (TaskPending(s) ==>
          && s.handle.None?
          && (s.exitWork == Some(|s.workspaceOf| - 1) || Awaits(s.op, |s.workspaceOf| - 1))
          && !s.op.Resolving? && !s.op.Materializing? && !s.op.SpawnCleanup?)
    && (s.op.WaitingExit? && s.op.exited ==> s.handle.None? && !TaskPending(s))
  }

  /** The removal of the latest workspace has been started and has not finished. */
  predicate BeingCleaned(s: State) {
    || s.op.SpawnCleanup?
    || (TaskPending(s) && PendingTask(s).stage.Cleaning? && PendingTask(s).stage.workspace.Some?)
  }

  ghost predicate WorkspaceInv(s: State) {
    var last := |s.cleanups| - 1;
    && (forall w: nat | w < last :: w in s.cleaned && s.cleanups[w] == 1)
    && (forall w <- s.cleaned :: w <= last)
    && (s.config.Some? ==>
          && s.config.value == last && s.cleanups[last] == 0 && last !in s.cleaned
          && !BeingCleaned(s)
          && (s.handle.Some? || (TaskPending(s) && PendingTask(s).stage.Fresh?)))
    && (s.config.None? && last >= 0 ==> s.cleanups[last] == 1 && (last in s.cleaned || BeingCleaned(s)))
    && (BeingCleaned(s) ==> last >= 0 && last !in s.cleaned)
    && (s.op.SpawnCleanup? ==> s.op.workspace == last)
    && (TaskPending(s) && PendingTask(s).stage.Fresh? ==> s.config.Some?)
    && (TaskPending(s) && PendingTask(s).stage.Cleaning? ==> PendingTask(s).stage.workspace == Some(last))
    && (s.handle.Some? ==> |s.workspaceOf| > 0 && s.config == Some(s.workspaceOf[|s.workspaceOf| - 1]))
  }

  ghost predicate CleanInv(s: State) {
    KernelInv(s) && TaskInv(s) && WorkspaceInv(s)
  }

  lemma StartKeeps(o: Settings, s: State, step: Step)
    requires CleanInv(s) && Enabled(s, step) && (step.StartCall? || step.StartJoined? || step.Resolved?)
    ensures CleanInv(Apply(o, s, step))
  {
  }

  lemma StartFailureKeeps(o: Settings, s: State, step: Step)
    requires CleanInv(s) && Enabled(s, step)
    requires step.ResolveFailed? || step.MaterializeFailed? || step.SpawnCleaned?
    ensures CleanInv(Apply(o, s, step))
  {
  }

  lemma SpawnFailureKeeps(o: Settings, s: State, outcome: SpawnOutcome)
    requires CleanInv(s) && Enabled(s, Materialized(outcome)) && outcome != Spawned
    ensures CleanInv(SpawnKernel(o, s, outcome))
  {
  }

  lemma SpawnedKeeps(o: Settings, s: State)
    requires CleanInv(s) && Enabled(s, Materialized(Spawned))
    ensures CleanInv(SpawnKernel(o, s, Spawned))
  {
    var t := SpawnKernel(o, s, Spawned);
    assert t.workspaceOf[|s.workspaceOf|] == |s.cleanups|;
    SpawnKeepsKernelInv(o, s, Spawned);
    assert TaskInv(t);
  }

  lemma MarkRunningKeeps(o: Settings, s: State)
    requires CleanInv(s) && Enabled(s, ReadyResumed)
    ensures CleanInv(MarkRunning(o, s.(readiness := false)))
  {
  }

  lemma MarkerKeeps(o: Settings, s: State)
    requires CleanInv(s)
    ensures CleanInv(Apply(o, s, MarkerSeen))
  {
  }

  /** The invariant does not depend on the three flags. */
  lemma FlagsKeep(o: Settings, s: State, isStopping: bool, readiness: bool, exitWait: bool)
    requires CleanInv(s)
    ensures CleanInv(s.(isStopping := isStopping, readiness := readiness, exitWait := exitWait))
  {
  }

  lemma RaiseFailedKeeps(o: Settings, s: State)
    requires CleanInv(s)
    requires s.op.AwaitingReady? || s.op.WaitingExit? || Enabled(s, ExitJoined)
    ensures CleanInv(RaiseFailed(s))
  {
  }

  lemma AwaitExitKeeps(o: Settings, s: State, cause: Cause, signal: Signal)
    requires CleanInv(s) && s.handle.Some?
    requires s.op.AwaitingReady? || s.op.WaitingExit?
    ensures CleanInv(s.(op := WaitingExit(cause, signal, s.handle.value, false)))
  {
  }

  lemma AbortKeeps(o: Settings, s: State)
    requires CleanInv(s) && s.op.AwaitingReady?
    ensures CleanInv(BeginTerminate(s.(readiness := false), AbortStart))
  {
    var t := s.(readiness := false);
    if s.handle.None? {
      FlagsKeep(o, s, s.isStopping, false, s.exitWait);
      RaiseFailedKeeps(o, t);
    } else {
      FlagsKeep(o, s, s.isStopping, false, true);
      AwaitExitKeeps(o, t.(exitWait := true), AbortStart, Term);
    }
  }

  lemma ReleaseKeeps(s: State)
    requires CleanInv(s) && (Enabled(s, ExitSignalled) || Enabled(s, ExitJoined))
    ensures CleanInv(s.(op := Idle))
  {
  }

  lemma ExitedKeeps(o: Settings, s: State)
    requires CleanInv(s) && (Enabled(s, ExitSignalled) || Enabled(s, ExitJoined))
    ensures CleanInv(FinishTerminate(s, s.op.cause, true))
  {
    if s.op.cause == AbortStart {
      RaiseFailedKeeps(o, s);
      assert FinishTerminate(s, AbortStart, true) == RaiseFailed(s);
    } else {
      ReleaseKeeps(s);
      assert FinishTerminate(s, StopRequest, true) == s.(op := Idle);
    }
  }

  lemma JoinExitKeeps(o: Settings, s: State)
    requires CleanInv(s) && s.op.WaitingExit? && s.handle.None?
    ensures CleanInv(s.(op := ExitJoin(s.op.cause, s.exitWork), exitWork := None))
  {
  }

  lemma EscalateKeeps(o: Settings, s: State)
    requires CleanInv(s) && Enabled(s, ExitTimeout)
    ensures CleanInv(EscalateTerminate(s))
  {
    var t := s.(exitWait := false);
    if s.op.signal == Kill {
      var failed := if s.op.cause == StopRequest then t.(isStopping := false) else t;
      FlagsKeep(o, s, failed.isStopping, s.readiness, false);
      RaiseFailedKeeps(o, failed);
    } else if s.handle.None? {
      FlagsKeep(o, s, s.isStopping, s.readiness, false);
      JoinExitKeeps(o, t);
    } else {
      FlagsKeep(o, s, s.isStopping, s.readiness, true);
      AwaitExitKeeps(o, t.(exitWait := true), s.op.cause, Kill);
    }
  }

  lemma StopEarlyKeeps(o: Settings, s: State)
    requires CleanInv(s) && Enabled(s, StopCall) && (s.phase == Stopped || s.handle.None?)
    ensures CleanInv(BeginStop(s))
  {
  }

  lemma StopLateKeeps(o: Settings, s: State)
    requires CleanInv(s) && Enabled(s, StopCall) && s.phase != Stopped && s.handle.Some?
    ensures CleanInv(BeginStop(s))
  {
  }

  lemma StopJoinedKeeps(o: Settings, s: State)
    requires CleanInv(s) && Enabled(s, StopJoined)
    ensures CleanInv(s.(phase := Stopped, op := Idle))
  {
  }

  lemma DeathKeeps(o: Settings, s: State, pid: nat)
    requires CleanInv(s) && Enabled(s, Died(pid))
    ensures CleanInv(s.(alive := s.alive - {pid}))
  {
  }

  lemma HandleExitKeeps(o: Settings, s: State, pid: nat)
    requires CleanInv(s) && Enabled(s, ExitEvent(pid))
    ensures CleanInv(HandleExit(s, pid))
  {
    assert pid in HandleExit(s, pid).tasks;
  }

  lemma HandleErrorKeeps(o: Settings, s: State, pid: nat, seemsAlive: bool)
    requires CleanInv(s) && Enabled(s, ErrorEvent(pid, seemsAlive))
    ensures CleanInv(HandleError(s, pid, seemsAlive))
  {
    assert !seemsAlive ==> pid in HandleError(s, pid, seemsAlive).tasks;
  }

  lemma TaskStartKeeps(o: Settings, s: State, task: nat)
    requires CleanInv(s) && Enabled(s, TaskStarted(task))
    ensures CleanInv(BeginTaskCleanup(s, task))
  {
  }

  lemma TaskFinishKeepsTasks(o: Settings, s: State, task: nat)
    requires CleanInv(s) && Enabled(s, TaskFinished(task))
    ensures !TaskPending(FinishTask(o, s, task)) && TaskInv(FinishTask(o, s, task))
  {
  }

  lemma TaskFinishKeepsWorkspaces(o: Settings, s: State, task: nat)
    requires CleanInv(s) && Enabled(s, TaskFinished(task))
    ensures KernelInv(FinishTask(o, s, task)) && WorkspaceInv(FinishTask(o, s, task))
  {
  }

  lemma DoStartKeeps(s: State)
    requires CleanInv(s) && s.op.Idle? && s.handle.None?
    ensures CleanInv(BeginDoStart(s)) <==> !TaskPending(s)
  {
  }

  lemma RestartsDoNotMatter(s: State, restarts: multiset<nat>, queued: nat, timers: map<nat, nat>, restartCount: nat)
    requires CleanInv(s)
    ensures CleanInv(s.(restarts := restarts, queued := queued, timers := timers, restartCount := restartCount))
  {
  }

  /** A crash restart goes on to `do_start` although the post-exit task of the last process is pending. */
  predicate OverCleanup(o: Settings, s: State, step: Step)
    requires Enabled(s, step)
  {
    (step.RestartFired? || step.QueuedRestartRuns?) && Apply(o, s, step).op.Resolving? && TaskPending(s)
  }

  lemma RestartKeepsExactly(o: Settings, s: State, step: Step)
    requires CleanInv(s) && Enabled(s, step) && (step.RestartFired? || step.QueuedRestartRuns?)
    ensures CleanInv(Apply(o, s, step)) <==> !OverCleanup(o, s, step)
  {
    var t := if step.RestartFired? then s.(restarts := s.restarts[step.epoch := s.restarts[step.epoch] - 1])
             else s.(queued := s.queued - 1);
    RestartsDoNotMatter(s, t.restarts, t.queued, s.timers, s.restartCount);
    if Apply(o, s, step).op.Resolving? {
      DoStartKeeps(t);
    }
  }

  lemma OperationKeepsClean(o: Settings, s: State, step: Step)
    requires CleanInv(s) && Enabled(s, step) && (OfStart(step) || OfWait(step) || OfLadder(step))
    ensures CleanInv(Apply(o, s, step))
  {
    match step
    case StartCall => StartKeeps(o, s, step);
    case StartJoined => StartKeeps(o, s, step);
    case Resolved => StartKeeps(o, s, step);
    case ResolveFailed => StartFailureKeeps(o, s, step);
    case MaterializeFailed => StartFailureKeeps(o, s, step);
    case SpawnCleaned => StartFailureKeeps(o, s, step);
    case Materialized(outcome) =>
      if outcome == Spawned { SpawnedKeeps(o, s); } else { SpawnFailureKeeps(o, s, outcome); }
    case MarkerSeen => MarkerKeeps(o, s);
    case ReadyTimeout => AbortKeeps(o, s);
    case ReadyResumed =>
      MarkRunningKeeps(o, s);
      AbortKeeps(o, s);
    case ExitSignalled => ExitedKeeps(o, s);
    case ExitTimeout => EscalateKeeps(o, s);
    case ExitJoined => ExitedKeeps(o, s);
    case StopCall =>
      if s.phase == Stopped || s.handle.None? { StopEarlyKeeps(o, s); } else { StopLateKeeps(o, s); }
    case StopJoined => StopJoinedKeeps(o, s);
  }

  lemma EventKeepsClean(o: Settings, s: State, step: Step)
    requires CleanInv(s) && Enabled(s, step)
    requires IsEvent(step)
    ensures CleanInv(Apply(o, s, step))
  {
    match step
    case Died(pid) => DeathKeeps(o, s, pid);
    case ExitEvent(pid) => HandleExitKeeps(o, s, pid);
    case ErrorEvent(pid, seemsAlive) => HandleErrorKeeps(o, s, pid, seemsAlive);
    case TaskStarted(t) => TaskStartKeeps(o, s, t);
    case TaskFinished(t) =>
      TaskFinishKeepsTasks(o, s, t);
      TaskFinishKeepsWorkspaces(o, s, t);
  }

  lemma QueueKeepsClean(s: State, epoch: nat)
    requires CleanInv(s) && epoch in s.restarts
    ensures CleanInv(QueueRestart(s, epoch))
  {
    var t := QueueRestart(s, epoch);
    assert t == s.(restarts := t.restarts, queued := t.queued);
    RestartsDoNotMatter(s, t.restarts, t.queued, s.timers, s.restartCount);
  }

  lemma BudgetKeepsClean(s: State, epoch: nat)
    requires CleanInv(s)
    ensures CleanInv(FireBudgetTimer(s, epoch))
  {
    var t := FireBudgetTimer(s, epoch);
    assert t == s.(timers := t.timers, restartCount := t.restartCount);
    RestartsDoNotMatter(s, s.restarts, s.queued, t.timers, t.restartCount);
  }

  /** One step keeps the invariant exactly if it does not start a kernel over a pending cleanup. */
  lemma StepKeepsClean(o: Settings, s: State, step: Step)
    requires CleanInv(s) && Enabled(s, step)
    ensures CleanInv(Apply(o, s, step)) <==> !OverCleanup(o, s, step)
  {
    if OfStart(step) || OfWait(step) || OfLadder(step) {
      OperationKeepsClean(o, s, step);
    } else if step.RestartFired? || step.QueuedRestartRuns? {
      RestartKeepsExactly(o, s, step);
    } else if step.RestartQueued? {
      QueueKeepsClean(s, step.epoch);
    } else if step.BudgetTimer? {
      BudgetKeepsClean(s, step.epoch);
    } else {
      EventKeepsClean(o, s, step);
    }
  }

  /** No restart of the run starts a kernel over a pending cleanup. */
  predicate Orderly(o: Settings, s: State, steps: seq<Step>)
    requires Legal(o, s, steps)
    decreases |steps|
  {
    steps == [] || (!OverCleanup(o, s, steps[0]) && Orderly(o, Apply(o, s, steps[0]), steps[1..]))
  }

  /** Every orderly run keeps the invariant, queued restarts included. */
  lemma {:induction false} RunKeepsClean(o: Settings, s: State, steps: seq<Step>)
    requires CleanInv(s) && Legal(o, s, steps) && Orderly(o, s, steps)
    ensures CleanInv(Exec(o, s, steps))
    decreases |steps|
  {
    if steps != [] {
      StepKeepsClean(o, s, steps[0]);
      RunKeepsClean(o, Apply(o, s, steps[0]), steps[1..]);
    }
  }

  // ---------------------------------------------------------------------------
  // Workspace hygiene
  // ---------------------------------------------------------------------------

  /**
   No workspace is cleaned twice, none is touched while its process lives, and when the
   next one is about to be created every earlier one has been removed.
   */
  ghost predicate Hygiene(s: State) {
    && (forall w: nat | w < |s.cleanups| :: s.cleanups[w] <= 1)
    && (forall p <- s.alive :: p < |s.workspaceOf| && s.workspaceOf[p] < |s.cleanups| &&
          s.cleanups[s.workspaceOf[p]] == 0 && s.workspaceOf[p] !in s.cleaned)
    && (s.op.Materializing? ==> forall w: nat | w < |s.cleanups| :: w in s.cleaned)
  }

  /** Over every orderly run. */
  lemma WorkspaceHygiene(o: Settings, steps: seq<Step>)
    requires Legal(o, INIT, steps) && Orderly(o, INIT, steps)
    ensures Hygiene(Exec(o, INIT, steps))
  {
    RunKeepsClean(o, INIT, steps);
  }

  lemma PendingIsUncleaned(s: State)
    requires CleanInv(s) && TaskPending(s)
    ensures |s.cleanups| > 0 && |s.cleanups| - 1 !in s.cleaned
  {
  }

  lemma RestartCleansNothing(o: Settings, s: State, step: Step)
    requires Enabled(s, step) && OverCleanup(o, s, step)
    ensures Apply(o, s, step).cleaned == s.cleaned && Apply(o, s, step).cleanups == s.cleanups
  {
  }

  lemma OverCleanupHurts(o: Settings, s: State, step: Step)
    requires CleanInv(s) && Enabled(s, step) && OverCleanup(o, s, step)
    ensures Enabled(Apply(o, s, step), Resolved) && !Hygiene(Apply(o, Apply(o, s, step), Resolved))
  {
    PendingIsUncleaned(s);
    RestartCleansNothing(o, s, step);
  }

  lemma ResolvedIsHygienic(o: Settings, s: State)
    requires CleanInv(s) && Enabled(s, Resolved)
    ensures Hygiene(Apply(o, s, Resolved))
  {
  }

  lemma HygieneStep(o: Settings, s: State, step: Step)
    requires CleanInv(s) && Enabled(s, step)
    ensures
      var t := Apply(o, s, step);
      OverCleanup(o, s, step) <==> Enabled(t, Resolved) && !Hygiene(Apply(o, t, Resolved))
  {
    if OverCleanup(o, s, step) {
      OverCleanupHurts(o, s, step);
    } else {
      StepKeepsClean(o, s, step);
      if Enabled(Apply(o, s, step), Resolved) {
        ResolvedIsHygienic(o, Apply(o, s, step));
      }
    }
  }

  /**
   Hygiene ends exactly there: the next step of an orderly run is a restart over a pending cleanup if
   and only if the resolver's answer right after it takes the run to a second workspace beside an
   uncleaned one.
   */
  lemma HygieneEndsExactly(o: Settings, before: seq<Step>, step: Step)
    requires Legal(o, INIT, before) && Orderly(o, INIT, before) && Enabled(Exec(o, INIT, before), step)
    ensures
      var s := Exec(o, INIT, before);
      var t := Apply(o, s, step);
      OverCleanup(o, s, step) <==> Enabled(t, Resolved) && !Hygiene(Apply(o, t, Resolved))
  {
    RunKeepsClean(o, INIT, before);
    HygieneStep(o, Exec(o, INIT, before), step);
  }

  // ---------------------------------------------------------------------------
  // Phases and timers: every run
  // ---------------------------------------------------------------------------

  /** Phase running is entered when the lock is released, and the newest timer belongs to the newest process. */
  ghost predicate TimerInv(s: State) {
    && (s.phase.Running? ==> s.op.Idle? || s.op.StopJoin?)
    && (forall e <- s.timers :: e <= s.healthyEpoch)
    && (s.phase.Running? && s.healthyEpoch in s.timers ==>
          s.timers[s.healthyEpoch] == |s.workspaceOf| - 1)
  }

  lemma SpawnKeepsTimers(o: Settings, s: State, outcome: SpawnOutcome)
    requires KernelInv(s) && TimerInv(s) && Enabled(s, Materialized(outcome))
    ensures TimerInv(SpawnKernel(o, s, outcome))
  {
  }

  lemma StartKeepsTimers(o: Settings, s: State, step: Step)
    requires KernelInv(s) && TimerInv(s) && Enabled(s, step) && OfStart(step) && !step.Materialized?
    ensures TimerInv(Apply(o, s, step))
  {
  }

  lemma WaitKeepsTimers(o: Settings, s: State, step: Step)
    requires KernelInv(s) && TimerInv(s) && Enabled(s, step) && OfWait(step)
    ensures TimerInv(Apply(o, s, step))
  {
  }

  lemma LadderKeepsTimers(o: Settings, s: State, step: Step)
    requires KernelInv(s) && TimerInv(s) && Enabled(s, step) && OfLadder(step)
    ensures TimerInv(Apply(o, s, step))
  {
  }

  lemma BudgetKeepsTimers(s: State, epoch: nat)
    requires TimerInv(s)
    ensures TimerInv(FireBudgetTimer(s, epoch))
  {
  }

  lemma RestartKeepsTimers(o: Settings, s: State, step: Step)
    requires KernelInv(s) && TimerInv(s) && Enabled(s, step)
    requires step.RestartFired? || step.RestartQueued? || step.QueuedRestartRuns?
    ensures TimerInv(Apply(o, s, step))
  {
  }

  lemma EventKeepsTimers(o: Settings, s: State, step: Step)
    requires KernelInv(s) && TimerInv(s) && Enabled(s, step)
    requires IsEvent(step)
    ensures TimerInv(Apply(o, s, step))
  {
  }

  lemma {:induction false} RunKeepsTimers(o: Settings, s: State, steps: seq<Step>)
    requires KernelInv(s) && TimerInv(s) && Legal(o, s, steps)
    ensures KernelInv(Exec(o, s, steps)) && TimerInv(Exec(o, s, steps))
    decreases |steps|
  {
    if steps != [] {
      StepKeepsKernelInv(o, s, steps[0]);
      if steps[0].Materialized? {
        SpawnKeepsTimers(o, s, steps[0].outcome);
      } else if steps[0].BudgetTimer? {
        BudgetKeepsTimers(s, steps[0].epoch);
      } else if OfStart(steps[0]) {
        StartKeepsTimers(o, s, steps[0]);
      } else if OfWait(steps[0]) {
        WaitKeepsTimers(o, s, steps[0]);
      } else if OfLadder(steps[0]) {
        LadderKeepsTimers(o, s, steps[0]);
      } else if IsEvent(steps[0]) {
        EventKeepsTimers(o, s, steps[0]);
      } else {
        RestartKeepsTimers(o, s, steps[0]);
      }
      RunKeepsTimers(o, Apply(o, s, steps[0]), steps[1..]);
    }
  }

  // ---------------------------------------------------------------------------
  // Silence after stop
  // ---------------------------------------------------------------------------

  predicate Silent(s: State) {
    s.op.Idle? && s.phase.Stopped? && s.handle.None? && s.tasks == map[] && s.alive == {} && s.events == {}
  }

  lemma SilentStep(o: Settings, s: State, step: Step)
    requires Silent(s) && Enabled(s, step) && !step.StartCall?
    ensures Silent(Apply(o, s, step)) && Apply(o, s, step).workspaceOf == s.workspaceOf
  {
  }

  lemma {:induction false} SilentRun(o: Settings, s: State, steps: seq<Step>)
    requires Silent(s) && Legal(o, s, steps) && StartCall !in steps
    ensures Silent(Exec(o, s, steps)) && Exec(o, s, steps).workspaceOf == s.workspaceOf
    decreases |steps|
  {
    if steps != [] {
      assert steps[0] in steps;
      SilentStep(o, s, steps[0]);
      SilentRun(o, Apply(o, s, steps[0]), steps[1..]);
    }
  }

  /** In phase stopped with the lock free nothing is tracked and no task is left. */
  ghost predicate StoppedInv(s: State) {
    s.phase.Stopped? && s.op.Idle? ==> s.handle.None? && !TaskPending(s)
  }

  lemma SpawnKeepsStopped(o: Settings, s: State, outcome: SpawnOutcome)
    requires TaskInv(s) && StoppedInv(s) && Enabled(s, Materialized(outcome))
    ensures StoppedInv(SpawnKernel(o, s, outcome))
  {
  }

  lemma StartKeepsStopped(o: Settings, s: State, step: Step)
    requires KernelInv(s) && TaskInv(s) && StoppedInv(s) && Enabled(s, step) && OfStart(step) && !step.Materialized?
    ensures StoppedInv(Apply(o, s, step))
  {
  }

  lemma ReadyKeepsStopped(o: Settings, s: State, step: Step)
    requires CleanInv(s) && StoppedInv(s) && Enabled(s, step)
    requires step.MarkerSeen? || step.ReadyTimeout? || step.ReadyResumed?
    ensures StoppedInv(Apply(o, s, step))
  {
  }

  lemma StopKeepsStopped(o: Settings, s: State, step: Step)
    requires KernelInv(s) && TaskInv(s) && StoppedInv(s) && Enabled(s, step) && (step.StopCall? || step.StopJoined?)
    ensures StoppedInv(Apply(o, s, step))
  {
  }

  lemma WaitKeepsStopped(o: Settings, s: State, step: Step)
    requires CleanInv(s) && StoppedInv(s) && Enabled(s, step) && OfWait(step)
    ensures StoppedInv(Apply(o, s, step))
  {
    if step.StopCall? || step.StopJoined? {
      StopKeepsStopped(o, s, step);
    } else {
      ReadyKeepsStopped(o, s, step);
    }
  }

  lemma LadderKeepsStopped(o: Settings, s: State, step: Step)
    requires CleanInv(s) && StoppedInv(s) && Enabled(s, step) && OfLadder(step)
    ensures StoppedInv(Apply(o, s, step))
  {
  }

  lemma RestartKeepsStopped(o: Settings, s: State, step: Step)
    requires StoppedInv(s) && Enabled(s, step) && (step.RestartFired? || step.QueuedRestartRuns?)
    ensures StoppedInv(Apply(o, s, step))
  {
  }

  lemma PendingKeepsStopped(o: Settings, s: State, step: Step)
    requires StoppedInv(s) && Enabled(s, step) && (step.RestartQueued? || step.BudgetTimer?)
    ensures StoppedInv(Apply(o, s, step))
  {
  }

  lemma EventKeepsStopped(o: Settings, s: State, step: Step)
    requires CleanInv(s) && StoppedInv(s) && Enabled(s, step) && IsEvent(step)
    ensures StoppedInv(Apply(o, s, step))
  {
    if step.TaskFinished? {
      TaskFinishKeepsTasks(o, s, step.task);
    }
  }

  lemma StepKeepsStopped(o: Settings, s: State, step: Step)
    requires CleanInv(s) && StoppedInv(s) && Enabled(s, step)
    ensures StoppedInv(Apply(o, s, step))
    ensures !OverCleanup(o, s, step) ==> CleanInv(Apply(o, s, step))
  {
    StepKeepsClean(o, s, step);
    if step.Materialized? {
      SpawnKeepsStopped(o, s, step.outcome);
    } else if OfStart(step) {
      StartKeepsStopped(o, s, step);
    } else if OfWait(step) {
      WaitKeepsStopped(o, s, step);
    } else if OfLadder(step) {
      LadderKeepsStopped(o, s, step);
    } else if IsEvent(step) {
      EventKeepsStopped(o, s, step);
    } else if step.RestartFired? || step.QueuedRestartRuns? {
      RestartKeepsStopped(o, s, step);
    } else {
      PendingKeepsStopped(o, s, step);
    }
  }

  lemma {:induction false} RunKeepsStopped(o: Settings, s: State, steps: seq<Step>)
    requires CleanInv(s) && StoppedInv(s) && Legal(o, s, steps) && Orderly(o, s, steps)
    ensures CleanInv(Exec(o, s, steps)) && StoppedInv(Exec(o, s, steps))
    decreases |steps|
  {
    if steps != [] {
      StepKeepsStopped(o, s, steps[0]);
      RunKeepsStopped(o, Apply(o, s, steps[0]), steps[1..]);
    }
  }

  /**
   Once the lock is free in phase stopped, nothing is spawned until the next `start`, whatever
   restarts are still asleep or queued and whichever epoch they carry.
   */
  lemma SilenceAfterStop(o: Settings, before: seq<Step>, after: seq<Step>)
    requires Legal(o, INIT, before) && Orderly(o, INIT, before)
    requires Exec(o, INIT, before).op.Idle? && Exec(o, INIT, before).phase.Stopped?
    requires Legal(o, Exec(o, INIT, before), after) && StartCall !in after
    ensures
      var s := Exec(o, INIT, before);
      var t := Exec(o, s, after);
      t.workspaceOf == s.workspaceOf && t.alive == {} && t.phase.Stopped?
  {
    RunKeepsStopped(o, INIT, before);
    SilentRun(o, Exec(o, INIT, before), after);
  }

  // ---------------------------------------------------------------------------
  // Restart budget
  // ---------------------------------------------------------------------------

  /** The restarts that would still pass their epoch check. */
  function Live(s: State): nat {
    s.restarts[s.restartEpoch]
  }

  /** The step refills the crash-restart budget. */
  predicate Resets(s: State, step: Step) {
    || step.StartJoined?
    || step.StopCall?
    || (step.BudgetTimer? && step.epoch == s.healthyEpoch && s.phase.Running? && s.restartCount > 0)
  }

  /** The step is a crash restart that goes on to `do_start`. */
  predicate StartsItself(o: Settings, s: State, step: Step)
    requires Enabled(s, step)
  {
    (step.RestartFired? || step.QueuedRestartRuns?) && Apply(o, s, step).op.Resolving?
  }

  function AutoStarts(o: Settings, s: State, steps: seq<Step>): nat
    requires Legal(o, s, steps)
    decreases |steps|
  {
    if steps == [] then 0
    else (if StartsItself(o, s, steps[0]) then 1 else 0) + AutoStarts(o, Apply(o, s, steps[0]), steps[1..])
  }

  predicate NoReset(o: Settings, s: State, steps: seq<Step>)
    requires Legal(o, s, steps)
    decreases |steps|
  {
    steps == [] || (!Resets(s, steps[0]) && NoReset(o, Apply(o, s, steps[0]), steps[1..]))
  }

  /** What the budget has already paid out: restarts counted that are neither asleep nor queued. */
  function Spent(s: State): int {
    s.restartCount - Live(s) - s.queued
  }

  lemma FinishedTaskSpendsNothing(o: Settings, s: State, task: nat)
    requires Enabled(s, TaskFinished(task))
    ensures Spent(FinishTask(o, s, task)) == Spent(s)
  {
  }

  lemma RestartSpends(o: Settings, s: State, step: Step)
    requires Enabled(s, step) && (step.RestartFired? || step.RestartQueued? || step.QueuedRestartRuns?)
    ensures Spent(Apply(o, s, step)) ==
            Spent(s) + if step.QueuedRestartRuns? || (step.RestartFired? && step.epoch == s.restartEpoch) then 1 else 0
  {
  }

  lemma StartSpendsNothing(o: Settings, s: State, step: Step)
    requires Enabled(s, step) && !Resets(s, step) && OfStart(step)
    ensures Spent(Apply(o, s, step)) == Spent(s)
  {
  }

  lemma WaitSpendsNothing(o: Settings, s: State, step: Step)
    requires Enabled(s, step) && !Resets(s, step) && OfWait(step)
    ensures Spent(Apply(o, s, step)) == Spent(s)
  {
  }

  lemma LadderSpendsNothing(o: Settings, s: State, step: Step)
    requires Enabled(s, step) && OfLadder(step)
    ensures Spent(Apply(o, s, step)) == Spent(s)
  {
  }

  lemma SpendingStep(o: Settings, s: State, step: Step)
    requires Enabled(s, step) && !Resets(s, step)
    ensures Spent(Apply(o, s, step)) >= Spent(s) + (if StartsItself(o, s, step) then 1 else 0)
  {
    if OfStart(step) {
      StartSpendsNothing(o, s, step);
    } else if OfWait(step) {
      WaitSpendsNothing(o, s, step);
    } else if OfLadder(step) {
      LadderSpendsNothing(o, s, step);
    } else if step.TaskFinished? {
      FinishedTaskSpendsNothing(o, s, step.task);
    } else if step.RestartFired? || step.RestartQueued? || step.QueuedRestartRuns? {
      RestartSpends(o, s, step);
    }
  }

  lemma {:induction false} AutoStartsArePaid(o: Settings, s: State, steps: seq<Step>)
    requires Legal(o, s, steps) && NoReset(o, s, steps)
    ensures Spent(Exec(o, s, steps)) >= Spent(s) + AutoStarts(o, s, steps)
    decreases |steps|
  {
    if steps != [] {
      SpendingStep(o, s, steps[0]);
      AutoStartsArePaid(o, Apply(o, s, steps[0]), steps[1..]);
    }
  }

  lemma StartKeepsCount(o: Settings, s: State, step: Step)
    requires s.restartCount <= o.maxRestarts && Enabled(s, step) && OfStart(step)
    ensures Apply(o, s, step).restartCount <= o.maxRestarts
  {
  }

  lemma ReadyKeepsCount(o: Settings, s: State, step: Step)
    requires Enabled(s, step) && (step.MarkerSeen? || step.ReadyTimeout? || step.ReadyResumed?)
    ensures Apply(o, s, step).restartCount == s.restartCount
  {
  }

  lemma StopKeepsCount(o: Settings, s: State, step: Step)
    requires s.restartCount <= o.maxRestarts && Enabled(s, step) && (step.StopCall? || step.StopJoined?)
    ensures Apply(o, s, step).restartCount <= o.maxRestarts
  {
  }

  lemma LadderKeepsCount(o: Settings, s: State, step: Step)
    requires s.restartCount <= o.maxRestarts && Enabled(s, step) && OfLadder(step)
    ensures Apply(o, s, step).restartCount <= o.maxRestarts
  {
  }

  lemma WorldKeepsCount(o: Settings, s: State, step: Step)
    requires s.restartCount <= o.maxRestarts && Enabled(s, step) && !OfStart(step) && !OfWait(step) && !OfLadder(step)
    ensures Apply(o, s, step).restartCount <= o.maxRestarts
  {
  }

  lemma {:induction false} RunKeepsCount(o: Settings, s: State, steps: seq<Step>)
    requires s.restartCount <= o.maxRestarts && Legal(o, s, steps)
    ensures Exec(o, s, steps).restartCount <= o.maxRestarts
    decreases |steps|
  {
    if steps != [] {
      if OfStart(steps[0]) {
        StartKeepsCount(o, s, steps[0]);
      } else if steps[0].StopCall? || steps[0].StopJoined? {
        StopKeepsCount(o, s, steps[0]);
      } else if OfWait(steps[0]) {
        ReadyKeepsCount(o, s, steps[0]);
      } else if OfLadder(steps[0]) {
        LadderKeepsCount(o, s, steps[0]);
      } else {
        WorldKeepsCount(o, s, steps[0]);
      }
      RunKeepsCount(o, Apply(o, s, steps[0]), steps[1..]);
    }
  }

  /**
   Over every run, between two refills: the automatic starts are at most what is left of the budget
   and the restarts that are asleep or queued when the window opens.
   */
  lemma RestartBudget(o: Settings, before: seq<Step>, after: seq<Step>)
    requires Legal(o, INIT, before) && Legal(o, Exec(o, INIT, before), after)
    requires NoReset(o, Exec(o, INIT, before), after)
    ensures
      var s := Exec(o, INIT, before);
      AutoStarts(o, s, after) <= (o.maxRestarts - s.restartCount) + Live(s) + s.queued
  {
    var s := Exec(o, INIT, before);
    RunKeepsCount(o, INIT, before);
    RunKeepsCount(o, s, after);
    AutoStartsArePaid(o, s, after);
  }

  /** A budget timer that refills anything was armed by the latest process, in every run. */
  lemma BudgetTimerOwner(o: Settings, steps: seq<Step>, epoch: nat)
    requires Legal(o, INIT, steps)
    requires Enabled(Exec(o, INIT, steps), BudgetTimer(epoch))
    requires Resets(Exec(o, INIT, steps), BudgetTimer(epoch))
    ensures
      var s := Exec(o, INIT, steps);
      && s.timers[epoch] == |s.workspaceOf| - 1
      && (s.handle.Some? ==> s.handle.value == s.timers[epoch])
  {
    RunKeepsTimers(o, INIT, steps);
  }

  // ---------------------------------------------------------------------------
  // Runs in which no restart queues behind the lock
  // ---------------------------------------------------------------------------

  /** No restart timer of the run fires while an operation holds the lifecycle lock. */
  predicate Unqueued(steps: seq<Step>) {
    forall step <- steps :: !step.RestartQueued?
  }

  ghost predicate RestartInv(o: Settings, s: State) {
    && s.restartCount <= o.maxRestarts
    && (forall e <- s.restarts :: e <= s.restartEpoch)
    && Live(s) <= 1
    && Live(s) <= s.restartCount
    && (Live(s) > 0 ==>
          && s.handle.None? && !TaskPending(s) && (s.phase.Failed? || s.phase.Stopped?)
          && (s.op.Idle? || s.op.StartJoin? || s.op.StopJoin?))
    && (TaskPending(s) && PendingTask(s).ExitTask? && PendingTask(s).wasRunning ==>
          s.op.Idle? || s.op.StartJoin? || s.op.StopJoin?)
    && s.queued == 0
  }

  ghost predicate Inv(o: Settings, s: State) {
    CleanInv(s) && TimerInv(s) && RestartInv(o, s)
  }

  lemma SpawnKeepsRestarts(o: Settings, s: State, outcome: SpawnOutcome)
    requires KernelInv(s) && TaskInv(s) && RestartInv(o, s) && Enabled(s, Materialized(outcome))
    ensures RestartInv(o, SpawnKernel(o, s, outcome))
  {
  }

  lemma StartKeepsRestarts(o: Settings, s: State, step: Step)
    requires KernelInv(s) && TaskInv(s) && TimerInv(s) && RestartInv(o, s)
    requires Enabled(s, step) && OfStart(step) && !step.Materialized?
    ensures RestartInv(o, Apply(o, s, step))
  {
  }

  lemma ReadyKeepsRestarts(o: Settings, s: State)
    requires KernelInv(s) && TaskInv(s) && RestartInv(o, s) && Enabled(s, ReadyResumed)
    ensures RestartInv(o, Apply(o, s, ReadyResumed))
  {
  }

  lemma WaitKeepsRestarts(o: Settings, s: State, step: Step)
    requires KernelInv(s) && TaskInv(s) && RestartInv(o, s)
    requires Enabled(s, step) && (step.MarkerSeen? || step.ReadyTimeout?)
    ensures RestartInv(o, Apply(o, s, step))
  {
  }

  lemma StopKeepsRestarts(o: Settings, s: State)
    requires KernelInv(s) && TaskInv(s) && TimerInv(s) && RestartInv(o, s) && Enabled(s, StopCall)
    ensures RestartInv(o, BeginStop(s))
  {
  }

  lemma StopJoinedKeepsRestarts(o: Settings, s: State)
    requires TaskInv(s) && RestartInv(o, s) && Enabled(s, StopJoined)
    ensures RestartInv(o, Apply(o, s, StopJoined))
  {
  }

  lemma EscalateKeepsRestarts(o: Settings, s: State)
    requires KernelInv(s) && TaskInv(s) && RestartInv(o, s) && Enabled(s, ExitTimeout)
    ensures RestartInv(o, EscalateTerminate(s))
  {
  }

  lemma LadderKeepsRestarts(o: Settings, s: State, step: Step)
    requires KernelInv(s) && TaskInv(s) && TimerInv(s) && RestartInv(o, s)
    requires Enabled(s, step) && (step.ExitSignalled? || step.ExitJoined?)
    ensures RestartInv(o, Apply(o, s, step))
  {
  }

  lemma RestartKeepsRestarts(o: Settings, s: State, epoch: nat)
    requires KernelInv(s) && TaskInv(s) && RestartInv(o, s) && Enabled(s, RestartFired(epoch))
    ensures RestartInv(o, FireRestart(s, epoch))
  {
    if epoch != s.restartEpoch {
      StaleKeepsRestarts(o, s, epoch);
    }
  }

  lemma StaleKeepsRestarts(o: Settings, s: State, epoch: nat)
    requires RestartInv(o, s) && epoch in s.restarts && epoch != s.restartEpoch
    ensures RestartInv(o, s.(restarts := s.restarts[epoch := s.restarts[epoch] - 1]))
  {
  }

  lemma BudgetKeepsRestarts(o: Settings, s: State, epoch: nat)
    requires TimerInv(s) && RestartInv(o, s)
    ensures RestartInv(o, FireBudgetTimer(s, epoch))
  {
  }

  lemma FiredIsOrderly(o: Settings, s: State, step: Step)
    requires TaskInv(s) && RestartInv(o, s) && Enabled(s, step) && !step.RestartQueued?
    ensures !OverCleanup(o, s, step) && !step.QueuedRestartRuns?
  {
  }

  lemma FinishKeepsRestarts(o: Settings, s: State, task: nat)
    requires TaskInv(s) && RestartInv(o, s) && Enabled(s, TaskFinished(task))
    requires !TaskPending(FinishTask(o, s, task))
    ensures RestartInv(o, FinishTask(o, s, task))
  {
  }

  lemma EventKeepsRestarts(o: Settings, s: State, step: Step)
    requires KernelInv(s) && TaskInv(s) && TimerInv(s) && RestartInv(o, s)
    requires Enabled(s, step) && IsEvent(step) && !step.TaskFinished?
    ensures RestartInv(o, Apply(o, s, step))
  {
  }

  lemma StepKeepsRestarts(o: Settings, s: State, step: Step)
    requires Inv(o, s) && Enabled(s, step) && !step.RestartQueued?
    ensures RestartInv(o, Apply(o, s, step)) && !OverCleanup(o, s, step)
  {
    FiredIsOrderly(o, s, step);
    if step.Materialized? {
      SpawnKeepsRestarts(o, s, step.outcome);
    } else if OfStart(step) {
      StartKeepsRestarts(o, s, step);
    } else if step.StopCall? {
      StopKeepsRestarts(o, s);
    } else if step.StopJoined? {
      StopJoinedKeepsRestarts(o, s);
    } else if step.ReadyResumed? {
      ReadyKeepsRestarts(o, s);
    } else if OfWait(step) {
      WaitKeepsRestarts(o, s, step);
    } else if step.ExitTimeout? {
      EscalateKeepsRestarts(o, s);
    } else if OfLadder(step) {
      LadderKeepsRestarts(o, s, step);
    } else if IsEvent(step) {
      if step.TaskFinished? {
        TaskFinishKeepsTasks(o, s, step.task);
        FinishKeepsRestarts(o, s, step.task);
      } else {
        EventKeepsRestarts(o, s, step);
      }
    } else if step.BudgetTimer? {
      BudgetKeepsRestarts(o, s, step.epoch);
    } else {
      RestartKeepsRestarts(o, s, step.epoch);
    }
  }

  /** If the epoch check and the lock are one step, no restart ever starts over a pending cleanup. */
  lemma {:induction false} UnqueuedIsOrderly(o: Settings, s: State, steps: seq<Step>)
    requires Inv(o, s) && Legal(o, s, steps) && Unqueued(steps)
    ensures Orderly(o, s, steps) && Inv(o, Exec(o, s, steps))
    decreases |steps|
  {
    if steps != [] {
      StepKeepsRestarts(o, s, steps[0]);
      StepKeepsClean(o, s, steps[0]);
      assert Exec(o, s, [steps[0]]) == Apply(o, s, steps[0]) by {
        assert [steps[0]][1..] == [];
      }
      RunKeepsTimers(o, s, [steps[0]]);
      UnqueuedIsOrderly(o, Apply(o, s, steps[0]), steps[1..]);
    }
  }

  /** Then the automatic starts between two refills are at most `maxRestarts`. */
  lemma UnqueuedBudget(o: Settings, before: seq<Step>, after: seq<Step>)
    requires Legal(o, INIT, before) && Unqueued(before)
    requires Legal(o, Exec(o, INIT, before), after)
    requires NoReset(o, Exec(o, INIT, before), after)
    ensures AutoStarts(o, Exec(o, INIT, before), after) <= o.maxRestarts
  {
    UnqueuedIsOrderly(o, INIT, before);
    RestartBudget(o, before, after);
  }

  const U64_MAX: nat := 0xFFFF_FFFF_FFFF_FFFF

  function Min(a: nat, b: nat): nat {
    if a < b then a else b
  }

  /** The back-off before restart `attempt`, with `saturating_mul` and the shift clamped to 16. */
  function RestartDelay(o: Settings, attempt: nat): nat
    requires attempt > 0
  {
    Min(Min(o.backoffMs * Text.Pow2(Min(attempt - 1, 16)), U64_MAX), o.maxBackoffMs)
  }

  lemma {:induction false} Pow2Grows(a: nat, b: nat)
    requires a <= b
    ensures 0 < Text.Pow2(a) <= Text.Pow2(b)
    decreases b
  {
    if a < b {
      Pow2Grows(a, b - 1);
    } else if a > 0 {
      Pow2Grows(a - 1, a - 1);
    }
  }

  /** Delays never shrink with the attempt, never pass the cap, and double until they reach it. */
  lemma RestartDelayShape(o: Settings, attempt: nat, later: nat)
    requires 0 < attempt <= later && o.maxBackoffMs <= U64_MAX
    ensures RestartDelay(o, attempt) <= RestartDelay(o, later) <= o.maxBackoffMs
    ensures RestartDelay(o, 1) == Min(o.backoffMs, o.maxBackoffMs)
    ensures attempt <= 16 ==> RestartDelay(o, attempt + 1) == Min(2 * RestartDelay(o, attempt), o.maxBackoffMs)
    ensures attempt >= 17 ==> RestartDelay(o, attempt) == RestartDelay(o, 17)
  {
    var a, b := Min(attempt - 1, 16), Min(later - 1, 16);
    Pow2Grows(a, b);
    MulGrows(o.backoffMs, Text.Pow2(a), Text.Pow2(b));
    assert Text.Pow2(0) == 1;
    if attempt <= 16 {
      assert Text.Pow2(attempt) == 2 * Text.Pow2(attempt - 1);
      DoubleProduct(o.backoffMs, Text.Pow2(attempt - 1));
    }
  }

  lemma MulGrows(x: nat, a: nat, b: nat)
    requires a <= b
    ensures x * a <= x * b
  {
  }

  lemma DoubleProduct(x: nat, a: nat)
    ensures x * (2 * a) == 2 * (x * a)
  {
  }

  // ---------------------------------------------------------------------------
  // What phase running means
  // ---------------------------------------------------------------------------

  /** Phase running is backed by a tracked process or by the exit task of the one that just ended. */
  predicate RunningIsBacked(s: State) {
    s.phase.Running? ==> s.handle.Some? || TaskPending(s)
  }

  /** The ready report was received, but the process and its exit task are both gone. */
  predicate LateReport(s: State, step: Step) {
    step.ReadyResumed? && s.op == AwaitingReady(Reported) && s.handle.None? && !TaskPending(s)
  }

  lemma StartKeepsBacked(o: Settings, s: State, step: Step)
    requires KernelInv(s) && TimerInv(s) && RunningIsBacked(s) && Enabled(s, step) && OfStart(step)
    ensures RunningIsBacked(Apply(o, s, step)) && !LateReport(s, step)
  {
  }

  lemma LadderKeepsBacked(o: Settings, s: State, step: Step)
    requires KernelInv(s) && TimerInv(s) && RunningIsBacked(s) && Enabled(s, step) && OfLadder(step)
    ensures RunningIsBacked(Apply(o, s, step)) && !LateReport(s, step)
  {
  }

  lemma WaitKeepsBacked(o: Settings, s: State, step: Step)
    requires KernelInv(s) && TimerInv(s) && RunningIsBacked(s) && Enabled(s, step) && OfWait(step)
    ensures RunningIsBacked(Apply(o, s, step)) <==> !LateReport(s, step)
  {
  }

  lemma WorldKeepsBacked(o: Settings, s: State, step: Step)
    requires KernelInv(s) && RunningIsBacked(s) && Enabled(s, step)
    requires !OfStart(step) && !OfWait(step) && !OfLadder(step)
    ensures RunningIsBacked(Apply(o, s, step)) && !LateReport(s, step)
  {
  }

  lemma StepKeepsBacked(o: Settings, s: State, step: Step)
    requires KernelInv(s) && TimerInv(s) && RunningIsBacked(s) && Enabled(s, step)
    ensures RunningIsBacked(Apply(o, s, step)) <==> !LateReport(s, step)
  {
    if OfStart(step) {
      StartKeepsBacked(o, s, step);
    } else if OfWait(step) {
      WaitKeepsBacked(o, s, step);
    } else if OfLadder(step) {
      LadderKeepsBacked(o, s, step);
    } else {
      WorldKeepsBacked(o, s, step);
    }
  }

  /**
   In every run a late report is the only step that leaves phase running without anything behind it:
   the report was received, and before `start` resumed the process ended and its exit task finished.
   */
  lemma RunningIsBackedExactly(o: Settings, before: seq<Step>, step: Step)
    requires Legal(o, INIT, before)
    requires RunningIsBacked(Exec(o, INIT, before)) && Enabled(Exec(o, INIT, before), step)
    ensures RunningIsBacked(Apply(o, Exec(o, INIT, before), step)) <==>
            !LateReport(Exec(o, INIT, before), step)
  {
    RunKeepsTimers(o, INIT, before);
    StepKeepsBacked(o, Exec(o, INIT, before), step);
  }

  lemma StartNeverWaits(o: Settings, s: State, step: Step)
    requires !o.waitsForMarker && Enabled(s, step) && OfStart(step)
    ensures !Apply(o, s, step).op.AwaitingReady?
  {
  }

  lemma OperationNeverWaits(o: Settings, s: State, step: Step)
    requires !o.waitsForMarker && !s.op.AwaitingReady? && Enabled(s, step)
    requires OfStart(step) || OfWait(step) || OfLadder(step)
    ensures !Apply(o, s, step).op.AwaitingReady?
  {
    if OfStart(step) {
      StartNeverWaits(o, s, step);
    }
  }

  lemma WorldNeverWaits(o: Settings, s: State, step: Step)
    requires !s.op.AwaitingReady? && Enabled(s, step)
    requires !OfStart(step) && !OfWait(step) && !OfLadder(step)
    ensures !Apply(o, s, step).op.AwaitingReady?
  {
  }

  lemma {:induction false} BackedWithoutMarker(o: Settings, s: State, steps: seq<Step>)
    requires !o.waitsForMarker && !s.op.AwaitingReady?
    requires KernelInv(s) && TimerInv(s) && RunningIsBacked(s) && Legal(o, s, steps)
    ensures RunningIsBacked(Exec(o, s, steps))
    decreases |steps|
  {
    if steps != [] {
      var step := steps[0];
      if OfStart(step) || OfWait(step) || OfLadder(step) {
        OperationNeverWaits(o, s, step);
      } else {
        WorldNeverWaits(o, s, step);
      }
      StepKeepsBacked(o, s, step);
      assert Exec(o, s, [step]) == Apply(o, s, step) by {
        assert [step][1..] == [];
      }
      RunKeepsTimers(o, s, [step]);
      BackedWithoutMarker(o, Apply(o, s, step), steps[1..]);
    }
  }

  /** Without a readiness marker, the production setting, phase running is always backed. */
  lemma RunningIsBackedWithoutMarker(o: Settings, steps: seq<Step>)
    requires !o.waitsForMarker && Legal(o, INIT, steps)
    ensures RunningIsBacked(Exec(o, INIT, steps))
  {
    BackedWithoutMarker(o, INIT, steps);
  }

  // ---------------------------------------------------------------------------
  // Runs that show where the properties stop
  // ---------------------------------------------------------------------------

  lemma Next(o: Settings, s: State, steps: seq<Step>, step: Step) returns (t: State, more: seq<Step>)
    requires Legal(o, INIT, steps) && Exec(o, INIT, steps) == s && Enabled(s, step)
    ensures more == steps + [step]
    ensures Legal(o, INIT, more) && Exec(o, INIT, more) == t && t == Apply(o, s, step)
  {
    ExtendRun(o, INIT, steps, step);
    t, more := Apply(o, s, step), steps + [step];
  }

  const SPAWNED := INIT.(
    phase := Starting, handle := Some(0), config := Some(0), readiness := true, restartEpoch := 1,
    op := AwaitingReady(Pending), alive := {0}, events := {0}, workspaceOf := [0], cleanups := [0])

  lemma FirstSpawn(o: Settings) returns (steps: seq<Step>)
    requires o.waitsForMarker
    ensures Legal(o, INIT, steps) && Unqueued(steps) && Exec(o, INIT, steps) == SPAWNED
  {
    var s;
    s, steps := Next(o, INIT, [], StartCall);
    s, steps := Next(o, s, steps, StartJoined);
    s, steps := Next(o, s, steps, Resolved);
    s, steps := Next(o, s, steps, Materialized(Spawned));
  }

  const REPORTED_THEN_GONE := SPAWNED.(
    handle := None, readiness := false, healthyEpoch := 1, exitWork := Some(0),
    op := AwaitingReady(Reported), alive := {}, events := {}, tasks := map[0 := ExitTask(Fresh, false)])

  /** With a readiness marker the late report does happen, in a run without queued restarts. */
  lemma LateReportHappens(o: Settings) returns (steps: seq<Step>)
    requires o.waitsForMarker
    ensures Legal(o, INIT, steps) && Unqueued(steps)
    ensures Exec(o, INIT, steps).phase.Running? && !RunningIsBacked(Exec(o, INIT, steps))
  {
    var s;
    steps := FirstSpawn(o);
    s, steps := Next(o, SPAWNED, steps, MarkerSeen);
    s, steps := Next(o, s, steps, Died(0));
    s, steps := Next(o, s, steps, ExitEvent(0));
    assert s == REPORTED_THEN_GONE;
    steps := LateReportEnds(o, steps);
  }

  lemma LateReportEnds(o: Settings, before: seq<Step>) returns (steps: seq<Step>)
    requires Legal(o, INIT, before) && Unqueued(before) && Exec(o, INIT, before) == REPORTED_THEN_GONE
    ensures Legal(o, INIT, steps) && Unqueued(steps)
    ensures Exec(o, INIT, steps).phase.Running? && !RunningIsBacked(Exec(o, INIT, steps))
  {
    var s;
    s, steps := Next(o, REPORTED_THEN_GONE, before, TaskStarted(0));
    s, steps := Next(o, s, steps, TaskFinished(0));
    s, steps := Next(o, s, steps, ReadyResumed);
  }

  /** The first process ran, crashed and was cleaned up; its restart sleeps. */
  predicate Crashed(s: State) {
    && s.phase.Failed? && s.handle.None? && s.config.None? && !s.isStopping && !s.readiness
    && s.restartEpoch == 1 && s.op.Idle? && s.tasks == map[] && s.restarts == multiset{1}
    && s.queued == 0 && s.alive == {} && s.events == {} && s.workspaceOf == [0] && s.cleanups == [1]
  }

  lemma FirstCrash(o: Settings) returns (s: State, steps: seq<Step>)
    requires o.waitsForMarker && o.maxRestarts > 0
    ensures Legal(o, INIT, steps) && Exec(o, INIT, steps) == s && Crashed(s)
  {
    steps := FirstSpawn(o);
    s, steps := Next(o, SPAWNED, steps, MarkerSeen);
    s, steps := Next(o, s, steps, ReadyResumed);
    s, steps := Next(o, s, steps, Died(0));
    s, steps := FirstCleanup(o, s, steps);
  }

  /** The exit is recorded, and its task runs the one cleanup. */
  predicate Exiting(s: State) {
    && s.phase.Running? && s.handle.None? && s.config.None? && !s.isStopping && !s.readiness
    && s.restartEpoch == 1 && s.op.Idle? && s.tasks == map[0 := ExitTask(Cleaning(Some(0)), true)] && s.restarts == multiset{}
    && s.queued == 0 && s.restartCount == 0 && s.alive == {} && s.events == {} && s.workspaceOf == [0] && s.cleanups == [1]
  }

  lemma FirstExit(o: Settings, before: State, done: seq<Step>) returns (s: State, steps: seq<Step>)
    requires Legal(o, INIT, done) && Exec(o, INIT, done) == before
    requires before == SPAWNED.(phase := Running, readiness := false, op := Idle, healthyEpoch := 1,
                                timers := before.timers, alive := {})
    ensures Legal(o, INIT, steps) && Exec(o, INIT, steps) == s && Exiting(s)
  {
    s, steps := Next(o, before, done, ExitEvent(0));
    s, steps := Next(o, s, steps, TaskStarted(0));
  }

  lemma FirstCleanup(o: Settings, before: State, done: seq<Step>) returns (s: State, steps: seq<Step>)
    requires o.maxRestarts > 0 && Legal(o, INIT, done) && Exec(o, INIT, done) == before
    requires before == SPAWNED.(phase := Running, readiness := false, op := Idle, healthyEpoch := 1,
                                timers := before.timers, alive := {})
    ensures Legal(o, INIT, steps) && Exec(o, INIT, steps) == s && Crashed(s)
  {
    s, steps := FirstExit(o, before, done);
    s, steps := Next(o, s, steps, TaskFinished(0));
  }

  /** A second start is spawning while the first crash restart waits for the lock. */
  predicate StartBesideQueued(s: State) {
    && s.op.Materializing? && s.phase.Starting? && s.handle.None? && s.config.None? && s.restartEpoch == 2 && s.queued == 1
    && s.tasks == map[] && s.alive == {} && s.events == {} && s.workspaceOf == [0] && s.cleanups == [1]
    && !s.isStopping
  }

  lemma SecondStart(o: Settings, before: State, done: seq<Step>) returns (s: State, steps: seq<Step>)
    requires Legal(o, INIT, done) && Exec(o, INIT, done) == before && Crashed(before)
    ensures Legal(o, INIT, steps) && Exec(o, INIT, steps) == s && StartBesideQueued(s)
  {
    s, steps := Next(o, before, done, StartCall);
    s, steps := Next(o, s, steps, RestartQueued(1));
    s, steps := Next(o, s, steps, StartJoined);
    s, steps := Next(o, s, steps, Resolved);
  }

  /** The second process ended before it was ready; its exit task has not begun. */
  predicate SecondFailed(s: State) {
    && s.op.Idle? && s.phase.Failed? && s.handle.None? && s.config == Some(1) && s.queued == 1
    && s.tasks == map[1 := ExitTask(Fresh, false)] && s.alive == {} && s.events == {}
    && s.workspaceOf == [0, 1] && s.cleanups == [1, 0] && !s.isStopping
  }

  /** The queued restart spawned a third process beside the second one's task. */
  predicate ThirdSpawned(s: State) {
    && s.op == AwaitingReady(Pending) && s.readiness && s.handle == Some(2) && s.alive == {2} && !s.isStopping
    && s.config == Some(2) && s.tasks == map[1 := ExitTask(Fresh, false)]
    && s.workspaceOf == [0, 1, 2] && s.cleanups == [1, 0, 0]
  }

  /** ... and that task took its workspace. */
  predicate ThirdBesideTask(s: State) {
    && s.op == AwaitingReady(Pending) && s.readiness && s.handle == Some(2) && s.alive == {2} && !s.isStopping
    && s.tasks == map[1 := ExitTask(Cleaning(Some(2)), false)]
    && s.workspaceOf == [0, 1, 2] && s.cleanups == [1, 0, 1]
  }

  lemma SecondFailure(o: Settings, before: State, done: seq<Step>) returns (s: State, steps: seq<Step>)
    requires o.waitsForMarker
    requires Legal(o, INIT, done) && Exec(o, INIT, done) == before && StartBesideQueued(before)
    ensures Legal(o, INIT, steps) && Exec(o, INIT, steps) == s && SecondFailed(s)
  {
    s, steps := Next(o, before, done, Materialized(Spawned));
    s, steps := Next(o, s, steps, Died(1));
    s, steps := Next(o, s, steps, ExitEvent(1));
    s, steps := Next(o, s, steps, ReadyTimeout);
  }

  lemma ThirdSpawn(o: Settings, before: State, done: seq<Step>) returns (s: State, steps: seq<Step>)
    requires o.waitsForMarker
    requires Legal(o, INIT, done) && Exec(o, INIT, done) == before && SecondFailed(before)
    ensures Legal(o, INIT, steps) && Exec(o, INIT, steps) == s && ThirdSpawned(s)
  {
    s, steps := Next(o, before, done, QueuedRestartRuns);
    s, steps := Next(o, s, steps, Resolved);
    s, steps := Next(o, s, steps, Materialized(Spawned));
  }

  lemma ThirdCleanup(o: Settings, before: State, done: seq<Step>) returns (s: State, steps: seq<Step>)
    requires Legal(o, INIT, done) && Exec(o, INIT, done) == before && ThirdSpawned(before)
    ensures Legal(o, INIT, steps) && Exec(o, INIT, steps) == s && ThirdBesideTask(s) && !Hygiene(s)
  {
    s, steps := Next(o, before, done, TaskStarted(1));
    assert 2 in s.alive && s.workspaceOf[2] == 2 && s.cleanups[2] == 1;
  }

  lemma ThirdRun(o: Settings) returns (s: State, steps: seq<Step>)
    requires o.waitsForMarker && o.maxRestarts > 0
    ensures Legal(o, INIT, steps) && Exec(o, INIT, steps) == s && ThirdBesideTask(s) && !Hygiene(s)
  {
    s, steps := FirstCrash(o);
    s, steps := SecondStart(o, s, steps);
    s, steps := SecondFailure(o, s, steps);
    s, steps := ThirdSpawn(o, s, steps);
    s, steps := ThirdCleanup(o, s, steps);
  }

  /**
   Why hygiene needs the epoch check and the lock to be one step: a restart that passed its check
   and then queued behind a newer start lets the older exit task remove a live workspace.
   */
  lemma QueuedRestartBreaksHygiene(o: Settings) returns (steps: seq<Step>)
    requires o.waitsForMarker && o.maxRestarts > 0
    ensures Legal(o, INIT, steps) && !Hygiene(Exec(o, INIT, steps))
  {
    var s;
    s, steps := ThirdRun(o);
  }

  /** From there a stop is answered by the older task: phase stopped, the lock free, the process alive. */
  lemma QueuedRestartBreaksSilence(o: Settings) returns (steps: seq<Step>)
    requires o.waitsForMarker && o.maxRestarts > 0
    ensures Legal(o, INIT, steps)
    ensures
      var s := Exec(o, INIT, steps);
      s.op.Idle? && s.phase.Stopped? && s.alive == {2}
  {
    var s;
    s, steps := ThirdRun(o);
    s, steps := Next(o, s, steps, MarkerSeen);
    s, steps := Next(o, s, steps, ReadyResumed);
    s, steps := Next(o, s, steps, StopCall);
    s, steps := Next(o, s, steps, TaskFinished(1));
    s, steps := Next(o, s, steps, ExitSignalled);
  }

  // ---------------------------------------------------------------------------
  // A kernel that starts, runs and crashes
  // ---------------------------------------------------------------------------

  lemma {:induction false} Append(o: Settings, s: State, a: seq<Step>, b: seq<Step>)
    requires Legal(o, s, a) && Legal(o, Exec(o, s, a), b)
    ensures Legal(o, s, a + b) && Exec(o, s, a + b) == Exec(o, Exec(o, s, a), b)
    decreases |a|
  {
    if a == [] {
      assert a + b == b;
    } else {
      Append(o, Apply(o, s, a[0]), a[1..], b);
      assert (a + b)[1..] == a[1..] + b;
    }
  }

  lemma One(o: Settings, s: State, step: Step)
    requires Enabled(s, step)
    ensures Legal(o, s, [step]) && Exec(o, s, [step]) == Apply(o, s, step)
  {
    assert [step][1..] == [];
  }

  /** A process is up and reported ready, or needs no report. */
  function SpawnSteps(o: Settings): seq<Step> {
    [Resolved] + [Materialized(Spawned)] + if o.waitsForMarker then [MarkerSeen] + [ReadyResumed] else []
  }

  function CrashSteps(o: Settings, p: nat): seq<Step> {
    SpawnSteps(o) + [Died(p)] + [ExitEvent(p)]
  }

  /** `t` is `s` after one more workspace and process, in phase running with the lock free. */
  predicate Up(s: State, t: State) {
    && t.op.Idle? && t.phase.Running? && t.handle == Some(|s.workspaceOf|) && t.config == Some(|s.cleanups|)
    && |t.cleanups| == |s.cleanups| + 1 && |t.workspaceOf| == |s.workspaceOf| + 1
    && t.alive == {|s.workspaceOf|} && t.events == {|s.workspaceOf|} && t.tasks == s.tasks
    && Same(s, t)
  }

  /** What neither a start nor a crash changes. */
  predicate Same(s: State, t: State) {
    && t.isStopping == s.isStopping && t.restarts == s.restarts && t.restartEpoch == s.restartEpoch
    && t.restartCount == s.restartCount && t.queued == s.queued
  }

  /** ... and after its crash, the exit task not yet begun. */
  predicate Gone(s: State, t: State) {
    && t.op.Idle? && t.phase.Running? && t.handle.None? && t.config == Some(|s.cleanups|)
    && |t.cleanups| == |s.cleanups| + 1
    && t.alive == {} && t.events == {} && t.exitWork == Some(|s.workspaceOf|)
    && t.tasks == s.tasks[|s.workspaceOf| := ExitTask(Fresh, true)]
    && Same(s, t)
  }

  lemma Materializes(o: Settings, s: State)
    requires s.op.Resolving? && s.handle.None? && s.alive == {} && s.events == {}
    ensures
      var steps := [Resolved] + [Materialized(Spawned)];
      && Legal(o, s, steps)
      && var t := Exec(o, s, steps);
      && (if o.waitsForMarker then
            Up(s, t.(op := Idle, phase := Running)) && t.op == AwaitingReady(Pending) && t.readiness
          else Up(s, t))
  {
    One(o, s, Resolved);
    var t := Apply(o, s, Resolved);
    One(o, t, Materialized(Spawned));
    Append(o, s, [Resolved], [Materialized(Spawned)]);
  }

  lemma Reports(o: Settings, s: State, t: State)
    requires Up(s, t.(op := Idle, phase := Running)) && t.op == AwaitingReady(Pending) && t.readiness
    ensures
      var steps := [MarkerSeen] + [ReadyResumed];
      Legal(o, t, steps) && Up(s, Exec(o, t, steps))
  {
    One(o, t, MarkerSeen);
    var u := Apply(o, t, MarkerSeen);
    One(o, u, ReadyResumed);
    Append(o, t, [MarkerSeen], [ReadyResumed]);
  }

  lemma Starts(o: Settings, s: State)
    requires s.op.Resolving? && s.handle.None? && s.alive == {} && s.events == {}
    ensures Legal(o, s, SpawnSteps(o)) && Up(s, Exec(o, s, SpawnSteps(o)))
  {
    var first := [Resolved] + [Materialized(Spawned)];
    Materializes(o, s);
    if o.waitsForMarker {
      Reports(o, s, Exec(o, s, first));
      Append(o, s, first, [MarkerSeen] + [ReadyResumed]);
    } else {
      assert first + [] == first;
    }
  }

  lemma Ends(o: Settings, s: State, t: State)
    requires Up(s, t)
    ensures
      var steps := [Died(|s.workspaceOf|)] + [ExitEvent(|s.workspaceOf|)];
      Legal(o, t, steps) && Gone(s, Exec(o, t, steps))
  {
    var p := |s.workspaceOf|;
    One(o, t, Died(p));
    var u := Apply(o, t, Died(p));
    assert u.alive == {};
    One(o, u, ExitEvent(p));
    assert Apply(o, u, ExitEvent(p)).events == {};
    Append(o, t, [Died(p)], [ExitEvent(p)]);
  }

  lemma Crashes(o: Settings, s: State)
    requires s.op.Resolving? && s.handle.None? && s.alive == {} && s.events == {}
    ensures
      var steps := CrashSteps(o, |s.workspaceOf|);
      Legal(o, s, steps) && Gone(s, Exec(o, s, steps))
  {
    var p := |s.workspaceOf|;
    Starts(o, s);
    Ends(o, s, Exec(o, s, SpawnSteps(o)));
    Append(o, s, SpawnSteps(o), [Died(p)] + [ExitEvent(p)]);
    assert SpawnSteps(o) + ([Died(p)] + [ExitEvent(p)]) == CrashSteps(o, p);
  }

  // ---------------------------------------------------------------------------
  // Where silence ends
  // ---------------------------------------------------------------------------

  predicate NoRestart(steps: seq<Step>) {
    forall step <- steps :: !step.RestartFired? && !step.QueuedRestartRuns?
  }

  lemma {:induction false} NoRestartIsOrderly(o: Settings, s: State, steps: seq<Step>)
    requires Legal(o, s, steps) && NoRestart(steps)
    ensures Orderly(o, s, steps)
    decreases |steps|
  {
    if steps != [] {
      NoRestartIsOrderly(o, Apply(o, s, steps[0]), steps[1..]);
    }
  }

  function StopSteps(p: nat): seq<Step> {
    [StopCall] + [TaskStarted(p)] + ([TaskFinished(p)] + [StopJoined])
  }

  /** A stop after the crash waits for the newest task only. */
  lemma StopJoins(o: Settings, s: State, t: State)
    requires Gone(s, t)
    ensures
      var steps := StopSteps(|s.workspaceOf|);
      && Legal(o, t, steps)
      && var u := Exec(o, t, steps);
      && u.op.Idle? && u.phase.Stopped? && u.tasks == s.tasks - {|s.workspaceOf|}
  {
    var p := |s.workspaceOf|;
    One(o, t, StopCall);
    var u := Apply(o, t, StopCall);
    One(o, u, TaskStarted(p));
    var v := Apply(o, u, TaskStarted(p));
    Append(o, t, [StopCall], [TaskStarted(p)]);
    TaskJoins(o, s, v);
    Append(o, t, [StopCall] + [TaskStarted(p)], [TaskFinished(p)] + [StopJoined]);
  }

  lemma TaskJoins(o: Settings, s: State, v: State)
    requires
      var p := |s.workspaceOf|;
      && v.op == StopJoin(Some(p)) && p in v.tasks && v.tasks[p].stage.Cleaning? && v.tasks - {p} == s.tasks - {p}
    ensures
      var steps := [TaskFinished(|s.workspaceOf|)] + [StopJoined];
      && Legal(o, v, steps)
      && var u := Exec(o, v, steps);
      && u.op.Idle? && u.phase.Stopped? && u.tasks == s.tasks - {|s.workspaceOf|}
  {
    var p := |s.workspaceOf|;
    One(o, v, TaskFinished(p));
    var u := Apply(o, v, TaskFinished(p));
    assert u.tasks == v.tasks - {p} && u.op == v.op;
    One(o, u, StopJoined);
    Append(o, v, [TaskFinished(p)], [StopJoined]);
  }

  /** A run without a further `start` that ends stopped with the lock free, and not silent. */
  predicate BreaksSilence(o: Settings, s: State, after: seq<Step>) {
    && Legal(o, s, after) && Orderly(o, s, after) && StartCall !in after
    && Exec(o, s, after).op.Idle? && Exec(o, s, after).phase.Stopped? && !Silent(Exec(o, s, after))
  }

  function SilenceBreaker(o: Settings, p: nat): seq<Step> {
    CrashSteps(o, p) + StopSteps(p)
  }

  lemma BreakerIsPlain(o: Settings, p: nat)
    ensures NoRestart(SilenceBreaker(o, p)) && StartCall !in SilenceBreaker(o, p)
  {
  }

  /** After a restart over a pending cleanup: the new process crashes, and a stop does not wait for the old task. */
  lemma OverCleanupEndsSilence(o: Settings, s: State)
    requires s.op.Resolving? && s.handle.None? && s.alive == {} && s.events == {} && TaskPending(s)
    ensures BreaksSilence(o, s, SilenceBreaker(o, |s.workspaceOf|))
  {
    var p := |s.workspaceOf|;
    Crashes(o, s);
    StopJoins(o, s, Exec(o, s, CrashSteps(o, p)));
    Append(o, s, CrashSteps(o, p), StopSteps(p));
    BreakerIsPlain(o, p);
    NoRestartIsOrderly(o, s, SilenceBreaker(o, p));
    assert p - 1 in Exec(o, s, SilenceBreaker(o, p)).tasks;
  }

  lemma OverCleanupState(o: Settings, s: State, step: Step)
    requires KernelInv(s) && Enabled(s, step) && OverCleanup(o, s, step)
    ensures
      var t := Apply(o, s, step);
      t.op.Resolving? && t.handle.None? && t.alive == {} && t.events == {} && TaskPending(t)
  {
  }

  lemma SilentWhenStopped(s: State)
    requires CleanInv(s) && StoppedInv(s) && s.op.Idle? && s.phase.Stopped?
    ensures Silent(s)
  {
  }

  lemma OrderlyStaysSilent(o: Settings, s: State, after: seq<Step>)
    requires CleanInv(s) && StoppedInv(s) && Legal(o, s, after) && Orderly(o, s, after)
    ensures !BreaksSilence(o, s, after)
  {
    RunKeepsStopped(o, s, after);
    if Exec(o, s, after).op.Idle? && Exec(o, s, after).phase.Stopped? {
      SilentWhenStopped(Exec(o, s, after));
    }
  }

  /**
   Silence ends exactly where hygiene does: after an orderly run, the next step starts a kernel over a
   pending cleanup if and only if some orderly run from there, without a further `start`, ends in phase
   stopped with the lock free and something left that is not silent.
   */
  lemma SilenceEndsExactly(o: Settings, before: seq<Step>, step: Step)
    requires Legal(o, INIT, before) && Orderly(o, INIT, before) && Enabled(Exec(o, INIT, before), step)
    ensures
      var s := Exec(o, INIT, before);
      OverCleanup(o, s, step) <==> exists after :: BreaksSilence(o, Apply(o, s, step), after)
  {
    var s := Exec(o, INIT, before);
    var t := Apply(o, s, step);
    RunKeepsStopped(o, INIT, before);
    if OverCleanup(o, s, step) {
      OverCleanupState(o, s, step);
      OverCleanupEndsSilence(o, t);
    } else {
      StepKeepsStopped(o, s, step);
      forall after ensures !BreaksSilence(o, t, after) {
        if Legal(o, t, after) && Orderly(o, t, after) {
          OrderlyStaysSilent(o, t, after);
        }
      }
    }
  }

  // ---------------------------------------------------------------------------
  // The budget bound is reached
  // ---------------------------------------------------------------------------

  /** No step of these refills the budget or starts the kernel by itself. */
  predicate IsPlain(steps: seq<Step>) {
    NoRestart(steps) && forall step <- steps :: !step.StartJoined? && !step.StopCall? && !step.BudgetTimer?
  }

  lemma {:induction false} PlainWindow(o: Settings, s: State, steps: seq<Step>)
    requires Legal(o, s, steps) && IsPlain(steps)
    ensures NoReset(o, s, steps) && AutoStarts(o, s, steps) == 0
    decreases |steps|
  {
    if steps != [] {
      PlainWindow(o, Apply(o, s, steps[0]), steps[1..]);
    }
  }

  lemma {:induction false} WindowsJoin(o: Settings, s: State, a: seq<Step>, b: seq<Step>)
    requires Legal(o, s, a) && Legal(o, Exec(o, s, a), b)
    requires NoReset(o, s, a) && NoReset(o, Exec(o, s, a), b)
    ensures Legal(o, s, a + b) && Exec(o, s, a + b) == Exec(o, Exec(o, s, a), b)
    ensures NoReset(o, s, a + b)
    ensures AutoStarts(o, s, a + b) == AutoStarts(o, s, a) + AutoStarts(o, Exec(o, s, a), b)
    decreases |a|
  {
    Append(o, s, a, b);
    if a == [] {
      assert a + b == b;
    } else {
      var t := Apply(o, s, a[0]);
      WindowsJoin(o, t, a[1..], b);
      Unfold(o, s, a);
      assert (a + b)[0] == a[0] && (a + b)[1..] == a[1..] + b;
      Unfold(o, s, a + b);
    }
  }

  /** A run by its first step. */
  lemma Unfold(o: Settings, s: State, steps: seq<Step>)
    requires Legal(o, s, steps) && steps != []
    ensures Enabled(s, steps[0])
    ensures
      var t := Apply(o, s, steps[0]);
      && Legal(o, t, steps[1..]) && Exec(o, s, steps) == Exec(o, t, steps[1..])
      && (NoReset(o, s, steps) <==> !Resets(s, steps[0]) && NoReset(o, t, steps[1..]))
      && AutoStarts(o, s, steps) == (if StartsItself(o, s, steps[0]) then 1 else 0) + AutoStarts(o, t, steps[1..])
  {
  }

  /** The last start failed or crashed, everything is cleaned up, and the lock is free. */
  predicate Quiet(o: Settings, s: State) {
    && s.op.Idle? && s.phase.Failed? && s.handle.None? && s.tasks == map[] && s.alive == {} && s.events == {}
    && !s.isStopping && s.restartCount <= o.maxRestarts
  }

  /** The automatic starts that are still to come: queued, asleep, and left in the budget. */
  function ToCome(o: Settings, s: State): int {
    (o.maxRestarts - s.restartCount) + Live(s) + s.queued
  }

  function NextRestart(s: State): Step {
    if s.queued > 0 then QueuedRestartRuns else RestartFired(s.restartEpoch)
  }

  lemma RestartGoes(o: Settings, s: State)
    requires Quiet(o, s) && s.queued + Live(s) > 0
    ensures Enabled(s, NextRestart(s))
    ensures
      var t := Apply(o, s, NextRestart(s));
      && t.op.Resolving? && t.handle.None? && t.tasks == map[] && t.alive == {} && t.events == {} && !t.isStopping
      && t.restartCount == s.restartCount && Live(t) + t.queued == Live(s) + s.queued - 1
    ensures NoReset(o, s, [NextRestart(s)]) && AutoStarts(o, s, [NextRestart(s)]) == 1
  {
    assert [NextRestart(s)][1..] == [];
  }

  lemma TaskSettles(o: Settings, s: State, t: State)
    requires Gone(s, t) && s.tasks == map[] && !s.isStopping && s.restartCount <= o.maxRestarts
    ensures
      var steps := [TaskStarted(|s.workspaceOf|)] + [TaskFinished(|s.workspaceOf|)];
      && Legal(o, t, steps)
      && var u := Exec(o, t, steps);
      && Quiet(o, u) && ToCome(o, u) == ToCome(o, s)
      && (if s.restartCount < o.maxRestarts then Live(u) > 0 else u.restartCount == o.maxRestarts)
  {
    var p := |s.workspaceOf|;
    One(o, t, TaskStarted(p));
    var u := Apply(o, t, TaskStarted(p));
    One(o, u, TaskFinished(p));
    Append(o, t, [TaskStarted(p)], [TaskFinished(p)]);
    assert Apply(o, u, TaskFinished(p)).tasks == map[];
  }

  function Cycle(o: Settings, p: nat): seq<Step> {
    CrashSteps(o, p) + ([TaskStarted(p)] + [TaskFinished(p)])
  }

  lemma CycleIsPlain(o: Settings, p: nat)
    ensures IsPlain(Cycle(o, p))
  {
  }

  lemma CycleSettles(o: Settings, s: State)
    requires s.op.Resolving? && s.handle.None? && s.tasks == map[] && s.alive == {} && s.events == {}
    requires !s.isStopping && s.restartCount <= o.maxRestarts
    ensures
      var steps := Cycle(o, |s.workspaceOf|);
      && Legal(o, s, steps) && NoReset(o, s, steps) && AutoStarts(o, s, steps) == 0
      && var u := Exec(o, s, steps);
      && Quiet(o, u) && ToCome(o, u) == ToCome(o, s)
      && (if s.restartCount < o.maxRestarts then Live(u) > 0 else u.restartCount == o.maxRestarts)
  {
    var p := |s.workspaceOf|;
    Crashes(o, s);
    TaskSettles(o, s, Exec(o, s, CrashSteps(o, p)));
    Append(o, s, CrashSteps(o, p), [TaskStarted(p)] + [TaskFinished(p)]);
    CycleIsPlain(o, p);
    PlainWindow(o, s, Cycle(o, p));
  }

  /** From every quiet state with a restart to come, all of them do come in one window. */
  lemma {:induction false} AllToComeCome(o: Settings, s: State) returns (steps: seq<Step>)
    requires Quiet(o, s) && (s.queued + Live(s) > 0 || s.restartCount == o.maxRestarts)
    ensures Legal(o, s, steps) && NoReset(o, s, steps) && AutoStarts(o, s, steps) == ToCome(o, s)
    decreases ToCome(o, s)
  {
    if s.queued + Live(s) == 0 {
      steps := [];
    } else {
      var first := [NextRestart(s)];
      RestartGoes(o, s);
      One(o, s, NextRestart(s));
      var t := Apply(o, s, NextRestart(s));
      CycleSettles(o, t);
      var cycle := Cycle(o, |t.workspaceOf|);
      WindowsJoin(o, s, first, cycle);
      var rest := AllToComeCome(o, Exec(o, t, cycle));
      WindowsJoin(o, s, first + cycle, rest);
      steps := first + cycle + rest;
    }
  }

  /**
   The bound of `RestartBudget` is reached from every reachable state in which the last start failed,
   everything is cleaned up, and a restart is queued or asleep.
   */
  lemma RestartBudgetIsReached(o: Settings, before: seq<Step>) returns (after: seq<Step>)
    requires Legal(o, INIT, before)
    requires
      var s := Exec(o, INIT, before);
      s.op.Idle? && s.phase.Failed? && s.handle.None? && s.tasks == map[] && !s.isStopping && s.queued + Live(s) > 0
    ensures
      var s := Exec(o, INIT, before);
      && Legal(o, s, after) && NoReset(o, s, after)
      && AutoStarts(o, s, after) == (o.maxRestarts - s.restartCount) + Live(s) + s.queued
  {
    var s := Exec(o, INIT, before);
    RunKeepsKernelInv(o, INIT, before);
    RunKeepsCount(o, INIT, before);
    assert s.alive == {} && s.events == {};
    after := AllToComeCome(o, s);
  }

  /** A refill has just happened, a restart from before it is still queued, and the start then fails. */
  lemma FirstRefill(o: Settings) returns (s: State, steps: seq<Step>)
    requires o.waitsForMarker && o.maxRestarts > 0
    ensures Legal(o, INIT, steps) && Exec(o, INIT, steps) == s
    ensures Quiet(o, s) && s.restartCount == 0 && s.queued == 1 && Live(s) == 0
  {
    s, steps := FirstCrash(o);
    s, steps := Next(o, s, steps, StartCall);
    s, steps := Next(o, s, steps, RestartQueued(1));
    s, steps := Next(o, s, steps, StartJoined);
    s, steps := Next(o, s, steps, ResolveFailed);
  }

  /** With a restart queued over a refill the supervisor starts once more than the budget allows. */
  lemma QueuedRestartGoesUnpaid(o: Settings) returns (before: seq<Step>, after: seq<Step>)
    requires o.waitsForMarker && o.maxRestarts > 0
    ensures Legal(o, INIT, before) && Legal(o, Exec(o, INIT, before), after)
    ensures
      var s := Exec(o, INIT, before);
      NoReset(o, s, after) && s.restartCount == 0 && AutoStarts(o, s, after) == o.maxRestarts + 1
  {
    var s;
    s, before := FirstRefill(o);
    after := RestartBudgetIsReached(o, before);
  }
}
