/**
 `KernelSupervisor` of src-tauri/src/kernel_process.rs as an object: each method is one segment
 between two awaits and updates the fields the way the source does. `Perform` runs whichever segment
 comes next; the object's history is then a run of the step machine in module Supervisor, so that
 the theorems about runs are facts about the object.
 */
module KernelProcess {
  import opened Wrappers
  import opened Supervisor

  datatype LogLine = LogLine(stream: string, text: string)

  function LogBytes(log: seq<LogLine>): nat {
    if log == [] then 0 else |log[0].text| + LogBytes(log[1..])
  }

  predicate FitsLog(log: seq<LogLine>, maxEntries: nat, maxBytes: nat) {
    |log| <= maxEntries && LogBytes(log) <= maxBytes
  }

  /** What the rolling log keeps: the longest suffix under both caps. */
  function Rotated(log: seq<LogLine>, maxEntries: nat, maxBytes: nat): seq<LogLine> {
    if FitsLog(log, maxEntries, maxBytes) || log == [] then log
    else Rotated(log[1..], maxEntries, maxBytes)
  }

  lemma {:induction false} RotatedIsLongestSuffix(log: seq<LogLine>, maxEntries: nat, maxBytes: nat, from: nat)
    requires from <= |log| && FitsLog(log[from..], maxEntries, maxBytes)
    ensures
      var kept := Rotated(log, maxEntries, maxBytes);
      && FitsLog(kept, maxEntries, maxBytes)
      && |kept| >= |log| - from
      && |kept| <= |log|
      && kept == log[|log| - |kept|..]
    decreases |log|
  {
    if FitsLog(log, maxEntries, maxBytes) || log == [] {
      assert log[0..] == log;
    } else {
      assert from > 0 by {
        assert log[0..] == log;
      }
      assert log[1..][from - 1..] == log[from..];
      RotatedIsLongestSuffix(log[1..], maxEntries, maxBytes, from - 1);
      var kept := Rotated(log, maxEntries, maxBytes);
      assert log[1..][|log| - 1 - |kept|..] == log[|log| - |kept|..];
    }
  }

  /** A step adds a process only where none is alive, and tracks it. */
  lemma OnlySpawnsAdd(o: Settings, s: State, steps: seq<Step>, step: Step)
    requires s == INIT && Legal(o, s, steps) && Enabled(Exec(o, s, steps), step)
    ensures
      var u := Exec(o, s, steps);
      var t := Apply(o, u, step);
      t.alive <= u.alive || (u.alive == {} && t.handle.Some? && t.alive == {t.handle.value})
  {
    var u := Exec(o, s, steps);
    var t := Apply(o, u, step);
    OneKernel(o, steps);
    RunKeepsKernelInv(o, s, steps);
    StepKeepsKernelInv(o, u, step);
    if step.Materialized? {
      assert Enabled(u, Materialized(step.outcome));
    } else if OfStart(step) {
      StartAddsNothing(o, u, step);
    } else if OfWait(step) {
      WaitAddsNothing(o, u, step);
    } else if OfLadder(step) {
      LadderAddsNothing(o, u, step);
    } else {
      WorldAddsNothing(o, u, step);
    }
  }

  lemma StartAddsNothing(o: Settings, s: State, step: Step)
    requires Enabled(s, step) && OfStart(step) && !step.Materialized?
    ensures Apply(o, s, step).alive == s.alive
  {
  }

  lemma WaitAddsNothing(o: Settings, s: State, step: Step)
    requires Enabled(s, step) && OfWait(step)
    ensures Apply(o, s, step).alive == s.alive
  {
  }

  lemma LadderAddsNothing(o: Settings, s: State, step: Step)
    requires Enabled(s, step) && OfLadder(step)
    ensures Apply(o, s, step).alive == s.alive
  {
  }

  lemma WorldAddsNothing(o: Settings, s: State, step: Step)
    requires Enabled(s, step) && !OfStart(step) && !OfWait(step) && !OfLadder(step)
    ensures Apply(o, s, step).alive <= s.alive
  {
  }

  class KernelSupervisor {
    const options: Settings
    const maxLogEntries: nat
    const maxLogBytes: nat

    var phase: Phase
    var handle: Option<nat>
    var config: Option<nat>
    var isStopping: bool
    var restartCount: nat
    var readiness: bool
    var exitWait: bool
    var exitWork: Option<nat>
    var restartEpoch: nat
    var healthyEpoch: nat
    var log: seq<LogLine>

    // Suspended futures and the outside world
    var op: Op
    var tasks: map<nat, Task>
    var restarts: multiset<nat>
    var queued: nat
    var timers: map<nat, nat>
    var alive: set<nat>
    var events: set<nat>
    var workspaceOf: seq<nat>
    var cleanups: seq<nat>
    var cleaned: set<nat>

    /** The segments performed so far. */
    ghost var run: seq<Step>

    ghost predicate Valid()
      reads this
    {
      Legal(options, INIT, run) && View() == Exec(options, INIT, run)
    }

    ghost function View(): State
      reads this
    {
      State(phase, handle, config, isStopping, restartCount, readiness, exitWait, exitWork,
            restartEpoch, healthyEpoch, op, tasks, restarts, queued, timers,
            alive, events, workspaceOf, cleanups, cleaned)
    }

    constructor (options: Settings, maxLogEntries: nat, maxLogBytes: nat)
      ensures Valid() && run == [] && log == []
      ensures this.options == options && this.maxLogEntries == maxLogEntries && this.maxLogBytes == maxLogBytes
    {
      this.options, this.maxLogEntries, this.maxLogBytes := options, maxLogEntries, maxLogBytes;
      phase, handle, config, isStopping, restartCount := Stopped, None, None, false, 0;
      readiness, exitWait, exitWork, restartEpoch, healthyEpoch, log := false, false, None, 0, 0, [];
      op, tasks, restarts, queued, timers := Idle, map[], multiset{}, 0, map[];
      alive, events, workspaceOf, cleanups, cleaned := {}, {}, [], [], {};
      run := [];
    }

    /** Whatever comes next extends the run, and a process is spawned beside no other. */
    method Perform(step: Step)
      requires Valid() && Enabled(View(), step)
      modifies this
      ensures Valid() && run == old(run) + [step]
      ensures alive <= old(alive) || (old(alive) == {} && handle.Some? && alive == {handle.value})
    {
      if OfStart(step) {
        PerformStart(step);
      } else if OfWait(step) || OfLadder(step) {
        PerformWait(step);
      } else if IsEvent(step) {
        PerformEvent(step);
      } else {
        PerformRestart(step);
      }
      ExtendRun(options, INIT, run, step);
      OnlySpawnsAdd(options, INIT, run, step);
      run := run + [step];
    }

    /** What `OneKernel` says of the object. */
    lemma TracksWhatIsAlive()
      requires Valid()
      ensures forall p <- alive :: handle == Some(p)
    {
      RunKeepsKernelInv(options, INIT, run);
    }

    /** What `WorkspaceHygiene` and `SilenceAfterStop` say of the object. */
    lemma IsHygienic()
      requires Valid() && Orderly(options, INIT, run)
      ensures Hygiene(View())
      ensures op.Idle? && phase.Stopped? ==> alive == {} && handle.None? && tasks == map[]
    {
      WorkspaceHygiene(options, run);
      RunKeepsStopped(options, INIT, run);
    }

    method PerformStart(step: Step)
      requires Enabled(View(), step) && OfStart(step)
      modifies this
      ensures View() == Apply(options, old(View()), step) && run == old(run)
    {
      match step {
        case StartCall => Start();
        case StartJoined => ContinueStart();
        case ResolveFailed => Fail();
        case Resolved => op := Materializing;
        case MaterializeFailed => Fail();
        case Materialized(outcome) => Spawn(outcome);
        case SpawnCleaned => EndSpawnCleanup();
      }
    }

    method PerformWait(step: Step)
      requires Enabled(View(), step) && (OfWait(step) || OfLadder(step))
      modifies this
      ensures View() == Apply(options, old(View()), step) && run == old(run)
    {
      match step {
        case MarkerSeen => ReceiveMarker();
        case ReadyTimeout => EndReadiness(false);
        case ReadyResumed => EndReadiness(op.readiness == Reported);
        case ExitSignalled => EndTerminate(op.cause, true);
        case ExitTimeout => ExitWaitExpired();
        case ExitJoined => EndTerminate(op.cause, true);
        case StopCall => Stop();
        case StopJoined => EndStop();
      }
    }

    method PerformEvent(step: Step)
      requires Enabled(View(), step) && IsEvent(step)
      modifies this
      ensures View() == Apply(options, old(View()), step) && run == old(run)
    {
      match step {
        case Died(pid) => alive := alive - {pid};
        case ExitEvent(pid) => OnExit(pid);
        case ErrorEvent(pid, seemsAlive) => OnError(pid, seemsAlive);
        case TaskStarted(task) => CleanupConfig(task);
        case TaskFinished(task) => EndExitWork(task);
      }
    }

    method PerformRestart(step: Step)
      requires Enabled(View(), step)
      requires step.RestartFired? || step.RestartQueued? || step.QueuedRestartRuns? || step.BudgetTimer?
      modifies this
      ensures View() == Apply(options, old(View()), step) && run == old(run)
    {
      match step {
        case RestartFired(epoch) => WakeRestart(epoch);
        case RestartQueued(epoch) => QueueBehindLock(epoch);
        case QueuedRestartRuns => LeaveQueue();
        case BudgetTimer(epoch) => RefillBudget(epoch);
      }
    }

    /** The end of `cleanup_config` after a failed spawn. */
    method EndSpawnCleanup()
      requires Enabled(View(), SpawnCleaned)
      modifies this`cleaned, this`phase, this`op
      ensures View() == Apply(options, old(View()), SpawnCleaned)
    {
      cleaned := cleaned + {op.workspace};
      Fail();
    }

    /** Output with the readiness marker in it. */
    method ReceiveMarker()
      modifies this`readiness, this`op
      ensures View() == Apply(options, old(View()), MarkerSeen)
    {
      if readiness && op.AwaitingReady? {
        readiness := false;
        op := AwaitingReady(Reported);
      }
    }

    /** The tail of `await_ready` and what `do_start` makes of it. */
    method EndReadiness(ready: bool)
      modifies this`readiness, this`phase, this`healthyEpoch, this`timers, this`op, this`exitWait, this`isStopping
      ensures
        var s := old(View()).(readiness := false);
        View() == if ready then MarkRunning(options, s) else BeginTerminate(s, AbortStart)
    {
      readiness := false;
      if ready {
        EnterRunning();
      } else {
        TerminateAndWait(AbortStart);
      }
    }

    /** The tail of `stop` without a handle. */
    method EndStop()
      modifies this`phase, this`op
      ensures View() == old(View()).(phase := Stopped, op := Idle)
    {
      phase := Stopped;
      op := Idle;
    }

    /** A sleeping restart passes its epoch check while the lock is held. */
    method QueueBehindLock(epoch: nat)
      requires epoch in restarts
      modifies this`restarts, this`queued
      ensures View() == QueueRestart(old(View()), epoch)
    {
      restarts := restarts[epoch := restarts[epoch] - 1];
      if restartEpoch == epoch {
        queued := queued + 1;
      }
    }

    /** A queued restart gets the lock. */
    method LeaveQueue()
      requires Enabled(View(), QueuedRestartRuns)
      modifies this`queued, this`phase, this`op
      ensures View() == Apply(options, old(View()), QueuedRestartRuns)
    {
      queued := queued - 1;
      RestartKernel();
    }

    /** A restart that holds the lock. */
    method RestartKernel()
      modifies this`phase, this`op
      ensures View() == RunRestart(old(View()))
    {
      if handle.Some? || phase != Failed {
        return;
      }
      DoStart();
    }

    method AppendLog(stream: string, text: string)
      modifies this`log
      ensures log == Rotated(old(log) + [LogLine(stream, text)], maxLogEntries, maxLogBytes)
    {
      log := log + [LogLine(stream, text)];
      ghost var whole := log;
      var size := LogBytes(log);
      while |log| > maxLogEntries || size > maxLogBytes
        invariant size == LogBytes(log)
        invariant Rotated(log, maxLogEntries, maxLogBytes) == Rotated(whole, maxLogEntries, maxLogBytes)
        decreases |log|
      {
        if log == [] {
          break;
        }
        size := size - |log[0].text|;
        log := log[1..];
      }
    }

    method Start()
      requires op.Idle?
      modifies this`op, this`exitWork
      ensures View() == BeginStart(old(View()))
    {
      if phase == Running || phase == Starting || phase == Stopping {
        return;
      }
      if handle.Some? {
        return;
      }
      op, exitWork := StartJoin(exitWork), None;
    }

    method ContinueStart()
      requires Enabled(View(), StartJoined)
      modifies this`restartEpoch, this`restartCount, this`phase, this`op
      ensures View() == Apply(options, old(View()), StartJoined)
    {
      restartEpoch := restartEpoch + 1;
      restartCount := 0;
      DoStart();
    }

    /** The head of `do_start`. */
    method DoStart()
      modifies this`phase, this`op
      ensures View() == BeginDoStart(old(View()))
    {
      phase := Starting;
      op := Resolving;
    }

    method Fail()
      modifies this`phase, this`op
      ensures View() == RaiseFailed(old(View()))
    {
      phase := Failed;
      op := Idle;
    }

    /** `materialize` answered: record the config and spawn. */
    method Spawn(outcome: SpawnOutcome)
      requires Enabled(View(), Materialized(outcome))
      modifies this
      ensures View() == SpawnKernel(options, old(View()), outcome) && run == old(run)
    {
      if outcome == Spawned {
        SpawnTracked();
      } else {
        SpawnAbandoned(outcome);
      }
    }

    method SpawnTracked()
      requires op.Materializing?
      modifies this
      ensures View() == SpawnKernel(options, old(View()), Spawned) && run == old(run)
    {
      RecordConfig();
      Track();
      AppendLog("stdout", "[supervisor] spawned");
      AwaitReady();
    }

    /** The head of `await_ready`; without a marker a spawned kernel is ready at once. */
    method AwaitReady()
      modifies this`readiness, this`op, this`phase, this`healthyEpoch, this`timers
      ensures
        var s := old(View());
        View() == if options.waitsForMarker then s.(readiness := true, op := AwaitingReady(Pending))
                  else MarkRunning(options, s)
    {
      if options.waitsForMarker {
        readiness := true;
        op := AwaitingReady(Pending);
      } else {
        EnterRunning();
      }
    }

    method SpawnAbandoned(outcome: SpawnOutcome)
      requires op.Materializing? && outcome != Spawned
      modifies this`config, this`cleanups, this`handle, this`op
      ensures View() == SpawnKernel(options, old(View()), outcome)
    {
      RecordConfig();
      if outcome == NoPid {
        handle := None;
      }
      AbandonConfig();
    }

    method RecordConfig()
      modifies this`config, this`cleanups
      ensures View() == old(View()).(config := Some(|old(cleanups)|), cleanups := old(cleanups) + [0])
    {
      config := Some(|cleanups|);
      cleanups := cleanups + [0];
    }

    /** The adapter reported a process: it becomes the tracked handle. */
    method Track()
      requires config.Some?
      modifies this`workspaceOf, this`alive, this`events, this`handle
      ensures
        var s := old(View());
        var pid := |s.workspaceOf|;
        View() == s.(handle := Some(pid), workspaceOf := s.workspaceOf + [s.config.value],
                     alive := s.alive + {pid}, events := s.events + {pid})
    {
      var pid := |workspaceOf|;
      workspaceOf := workspaceOf + [config.value];
      alive, events := alive + {pid}, events + {pid};
      handle := Some(pid);
    }

    /** `cleanup_config` on the failed-spawn path. */
    method AbandonConfig()
      requires config.Some? && config.value < |cleanups|
      modifies this`config, this`cleanups, this`op
      ensures config == None && op == SpawnCleanup(old(config.value))
      ensures cleanups == old(cleanups)[old(config.value) := old(cleanups[config.value]) + 1]
    {
      var w := config.value;
      config := None;
      cleanups := cleanups[w := cleanups[w] + 1];
      op := SpawnCleanup(w);
    }

    /** The tail of `do_start`: phase running and the sustained-run timer. */
    method EnterRunning()
      modifies this`phase, this`healthyEpoch, this`timers, this`op
      ensures View() == MarkRunning(options, old(View()))
    {
      phase := Running;
      healthyEpoch := healthyEpoch + 1;
      if options.maxRestarts > 0 && options.budgetResetMs > 0 && |workspaceOf| > 0 {
        timers := timers[healthyEpoch := |workspaceOf| - 1];
      }
      op := Idle;
    }

    method TerminateAndWait(cause: Cause)
      modifies this`exitWait, this`op, this`phase, this`isStopping
      ensures View() == BeginTerminate(old(View()), cause)
    {
      if handle.None? {
        EndTerminate(cause, true);
      } else {
        exitWait := true;
        op := WaitingExit(cause, Term, handle.value, false);
      }
    }

    method EndTerminate(cause: Cause, exited: bool)
      modifies this`op, this`phase, this`isStopping
      ensures View() == FinishTerminate(old(View()), cause, exited)
    {
      if cause == AbortStart {
        Fail();
      } else if exited {
        op := Idle;
      } else {
        isStopping := false;
        Fail();
      }
    }

    /** `wait_for_exit` timed out. */
    method ExitWaitExpired()
      requires Enabled(View(), ExitTimeout)
      modifies this`exitWait, this`op, this`phase, this`isStopping, this`exitWork
      ensures View() == EscalateTerminate(old(View()))
    {
      exitWait := false;
      var pid := op.pid;
      if op.signal == Kill {
        EndTerminate(op.cause, false);
      } else if handle != Some(pid) {
        op, exitWork := ExitJoin(op.cause, exitWork), None;
      } else {
        exitWait := true;
        op := WaitingExit(op.cause, Kill, pid, false);
      }
    }

    method Stop()
      requires op.Idle?
      modifies this`restartEpoch, this`restartCount, this`op, this`exitWork, this`isStopping
      modifies this`healthyEpoch, this`phase, this`exitWait
      ensures View() == BeginStop(old(View()))
    {
      restartEpoch := restartEpoch + 1;
      restartCount := 0;
      if phase == Stopped {
        return;
      }
      if handle.None? {
        op, exitWork := StopJoin(exitWork), None;
        return;
      }
      StopTracked();
    }

    method StopTracked()
      requires handle.Some?
      modifies this`isStopping, this`healthyEpoch, this`phase, this`exitWait, this`op
      ensures
        var s := old(View());
        View() == BeginTerminate(s.(isStopping := true, healthyEpoch := s.healthyEpoch + 1, phase := Stopping),
                                 StopRequest)
    {
      isStopping := true;
      healthyEpoch := healthyEpoch + 1;
      phase := Stopping;
      TerminateAndWait(StopRequest);
    }

    method OnExit(pid: nat)
      requires Enabled(View(), ExitEvent(pid))
      modifies this`events, this`handle, this`healthyEpoch, this`tasks, this`exitWork
      ensures View() == HandleExit(old(View()), pid)
    {
      var wasRunning := phase == Running;
      events := events - {pid};
      handle := None;
      healthyEpoch := healthyEpoch + 1;
      tasks := tasks[pid := ExitTask(Fresh, wasRunning)];
      exitWork := Some(pid);
    }

    method OnError(pid: nat, seemsAlive: bool)
      requires Enabled(View(), ErrorEvent(pid, seemsAlive))
      modifies this`events, this`op, this`readiness, this`phase, this`handle, this`tasks, this`exitWork
      ensures View() == HandleError(old(View()), pid, seemsAlive)
    {
      RefuseReadiness();
      ConsumeEvent(pid);
      if handle.Some? && seemsAlive {
        phase := Failed;
      } else {
        DropHandle(pid);
      }
    }

    method ConsumeEvent(pid: nat)
      modifies this`events
      ensures View() == old(View()).(events := old(events) - {pid})
    {
      events := events - {pid};
    }

    method DropHandle(pid: nat)
      modifies this`handle, this`tasks, this`exitWork
      ensures
        var s := old(View());
        View() == s.(handle := None, tasks := s.tasks[pid := ErrorTask(Fresh)], exitWork := Some(pid))
    {
      handle := None;
      tasks := tasks[pid := ErrorTask(Fresh)];
      exitWork := Some(pid);
    }

    method RefuseReadiness()
      modifies this`op, this`readiness
      ensures
        var s := old(View());
        View() == s.(readiness := false,
                     op := if s.readiness && s.op.AwaitingReady? then AwaitingReady(Refused) else s.op)
    {
      if readiness && op.AwaitingReady? {
        op := AwaitingReady(Refused);
      }
      readiness := false;
    }

    /** `cleanup_config` at the head of a post-exit task. */
    method CleanupConfig(task: nat)
      requires Enabled(View(), TaskStarted(task))
      modifies this`cleanups, this`tasks, this`config
      ensures View() == BeginTaskCleanup(old(View()), task)
    {
      if config.Some? {
        cleanups := cleanups[config.value := cleanups[config.value] + 1];
      }
      tasks := tasks[task := tasks[task].(stage := Cleaning(config))];
      config := None;
    }

    /** The rest of a post-exit task. */
    method EndExitWork(task: nat)
      requires Enabled(View(), TaskFinished(task))
      modifies this`tasks, this`cleaned, this`op, this`exitWait, this`phase, this`isStopping
      modifies this`restartCount, this`restarts, this`log
      ensures View() == FinishTask(options, old(View()), task)
    {
      var done := tasks[task];
      EndCleanup(task);
      SettleTask(done);
    }

    method SettleTask(done: Task)
      modifies this`phase, this`isStopping, this`restartCount, this`restarts, this`log
      ensures
        var s := old(View());
        View() == if done.ErrorTask? then s.(phase := Failed)
                  else if s.isStopping then s.(isStopping := false, phase := Stopped)
                  else if done.wasRunning then ScheduleRestart(options, s.(phase := Failed))
                  else s.(phase := Failed)
    {
      if done.ErrorTask? {
        phase := Failed;
      } else {
        SettleExit(done.wasRunning);
      }
    }

    method EndCleanup(task: nat)
      requires task in tasks && tasks[task].stage.Cleaning?
      modifies this`tasks, this`cleaned, this`op, this`exitWait
      ensures
        var s := old(View());
        var workspace := s.tasks[task].stage.workspace;
        View() == s.(tasks := s.tasks - {task},
                     cleaned := if workspace.Some? then s.cleaned + {workspace.value} else s.cleaned,
                     exitWait := false,
                     op := if s.exitWait && s.op.WaitingExit? then s.op.(exited := true) else s.op)
    {
      var workspace := tasks[task].stage.workspace;
      tasks := tasks - {task};
      if workspace.Some? {
        cleaned := cleaned + {workspace.value};
      }
      ResolveExitWait();
    }

    /** The status after an exit: stopped on request, otherwise failed and perhaps restarted. */
    method SettleExit(wasRunning: bool)
      modifies this`phase, this`isStopping, this`restartCount, this`restarts, this`log
      ensures
        var s := old(View());
        View() == if s.isStopping then s.(isStopping := false, phase := Stopped)
                  else if wasRunning then ScheduleRestart(options, s.(phase := Failed))
                  else s.(phase := Failed)
    {
      if isStopping {
        isStopping := false;
        phase := Stopped;
        return;
      }
      phase := Failed;
      if wasRunning {
        ArmRestart();
      }
    }

    method ResolveExitWait()
      modifies this`op, this`exitWait
      ensures !exitWait
      ensures op == if old(exitWait) && old(op).WaitingExit? then old(op).(exited := true) else old(op)
    {
      if exitWait && op.WaitingExit? {
        op := op.(exited := true);
      }
      exitWait := false;
    }

    method ArmRestart()
      modifies this`restartCount, this`restarts, this`log
      ensures View() == ScheduleRestart(options, old(View()))
    {
      if restartCount >= options.maxRestarts {
        return;
      }
      restartCount := restartCount + 1;
      AppendLog("stdout", "[supervisor] crash detected");
      restarts := restarts[restartEpoch := restarts[restartEpoch] + 1];
    }

    /** A sleeping restart finds the lock free. */
    method WakeRestart(epoch: nat)
      requires Enabled(View(), RestartFired(epoch))
      modifies this`restarts, this`phase, this`op
      ensures View() == FireRestart(old(View()), epoch)
    {
      restarts := restarts[epoch := restarts[epoch] - 1];
      if restartEpoch != epoch {
        return;
      }
      RestartKernel();
    }

    /** The sustained-run timer; its log line is pushed past the caps. */
    method RefillBudget(epoch: nat)
      requires Enabled(View(), BudgetTimer(epoch))
      modifies this`timers, this`restartCount, this`log
      ensures View() == FireBudgetTimer(old(View()), epoch)
      ensures log == if Resets(old(View()), BudgetTimer(epoch))
                     then old(log) + [LogLine("stdout", "[supervisor] sustained run; crash-restart budget reset\n")]
                     else old(log)
    {
      timers := timers - {epoch};
      if healthyEpoch != epoch {
        return;
      }
      if phase == Running && restartCount > 0 {
        restartCount := 0;
        log := log + [LogLine("stdout", "[supervisor] sustained run; crash-restart budget reset\n")];
      }
    }
  }
}
