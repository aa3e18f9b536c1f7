/**
 The Fluent Bit watcher as a transition system: the restart loop, the config watcher and the
 interrupt handler take atomic steps in any order over the shared variables.
 */
module Supervisor {
  import opened Common
  import opened Backoff

  /** The two goroutines that run stop() and resetTimer(). */
  datatype Stopper = ConfigWatcher | Interrupt

  datatype Owner = RestartLoop | ByStopper(t: Stopper)

  /** Where the restart loop is. */
  datatype LoopPc =
    | Top                              // about to test the cancel channel
    | StartLock                        // about to lock the mutex in start
    | StartBody                        // holds the mutex, before the command is created
    | Spawning                         // holds the mutex, command created but not started
    | StartUnlock                      // about to unlock in start
    | CheckCmd                         // wait(): about to lock and look at cmd
    | Waiting(child: nat)              // blocked in cmd.Wait, mutex not held
    | StoreLong(failed: bool)          // the child lived long: about to reset the count
    | ClearCmd(failed: bool)           // about to lock and set cmd to nil
    | Renew                            // about to replace the timer context
    | LoadCount                        // backoff(): about to load the count
    | Selecting(left: int)             // blocked in the select with this much of the timer left
    | AddOne                           // timer fired: about to count the restart
    | StoreZero                        // context cancelled: about to reset the count
    | Returned

  /** Where a goroutine is that stops the child and resets the timer. */
  datatype StopPc =
    | Idle
    | Closing                          // interrupt handler only: about to close cancel
    | StopLock
    | StopBody                         // holds the mutex, about to signal
    | ReadCancel                       // resetTimer: about to read the variable timerCancel
    | CallCancel(ctx: nat)             // about to call the cancel function it read
    | StoreReset                       // about to store 0
    | Finished

  /** exec.Cmd: Process is set once Start succeeded. */
  datatype Command = Command(id: nat, hasProcess: bool)

  datatype State = State(
    loop: LoopPc, watcher: StopPc, handler: StopPc,
    holder: Option<Owner>,
    cmd: Option<Command>, restartTimes: int,
    ctx: nat, cancelled: set<nat>,       // timerCtx/timerCancel and the contexts cancelled so far
    cancelClosed: bool,
    commands: nat,                       // commands created so far; ids are below it
    alive: set<nat>,                     // processes running
    started: nat, reaped: nat,           // successful starts, returned waits
    signalled: set<nat>,                 // processes that got SIGTERM while running
    exitOnFailure: bool, outOfRange: int)

  function Init(exitOnFailure: bool, outOfRange: int): State {
    State(Top, Idle, Idle, None, None, 0, 0, {}, false, 0, {}, 0, 0, {},
          exitOnFailure, outOfRange)
  }

  /** The atomic steps. Parameters are what the environment decides. */
  datatype Action =
    | TestCancel
    | LockStart
    | Prepare(ok: bool)                  // config check, copying, decompression
    | Spawn(ok: bool)
    | UnlockStart
    | LookAtCmd
    | Reap(failed: bool, lived: int)     // the child lived that many nanoseconds
    | ResetAfterLongRun
    | Clear
    | RenewContext
    | Load
    | Pass(d: int)                       // d nanoseconds go by while the select blocks
    | TimerFires
    | ContextDone
    | CountRestart
    | ZeroCount
    | ChildExits(id: nat)
    | ConfigEvent                        // the config watcher accepts an event
    | WatcherError                       // the config watcher ends
    | Terminate                          // the run group starts interrupting
    | CloseCancel
    | LockStop(t: Stopper)
    | SignalAndUnlock(t: Stopper)
    | ReadTimerCancel(t: Stopper)
    | CallTimerCancel(t: Stopper)
    | StoreCount(t: Stopper)

  function Pc(s: State, t: Stopper): StopPc {
    if t == ConfigWatcher then s.watcher else s.handler
  }

  function Move(s: State, t: Stopper, pc: StopPc): State {
    if t == ConfigWatcher then s.(watcher := pc) else s.(handler := pc)
  }

  predicate Enabled(s: State, a: Action) {
    match a
    case TestCancel => s.loop.Top?
    case LockStart => s.loop.StartLock? && s.holder.None?
    case Prepare(_) => s.loop.StartBody?
    case Spawn(_) => s.loop.Spawning?
    case UnlockStart => s.loop.StartUnlock?
    case LookAtCmd => s.loop.CheckCmd? && s.holder.None?
    case Reap(_, _) => s.loop.Waiting? && s.loop.child !in s.alive
    case ResetAfterLongRun => s.loop.StoreLong?
    case Clear => s.loop.ClearCmd? && s.holder.None?
    case RenewContext => s.loop.Renew?
    case Load => s.loop.LoadCount?
    case Pass(d) => s.loop.Selecting? && s.ctx !in s.cancelled && 0 < d <= s.loop.left
    case TimerFires => s.loop.Selecting? && s.loop.left <= 0
    case ContextDone => s.loop.Selecting? && s.ctx in s.cancelled
    case CountRestart => s.loop.AddOne?
    case ZeroCount => s.loop.StoreZero?
    case ChildExits(id) => id in s.alive
    case ConfigEvent => s.watcher.Idle?
    case WatcherError => s.watcher.Idle?
    case Terminate => s.handler.Idle?
    case CloseCancel => s.handler.Closing?
    case LockStop(t) => Pc(s, t).StopLock? && s.holder.None?
    case SignalAndUnlock(t) => Pc(s, t).StopBody?
    case ReadTimerCancel(t) => Pc(s, t).ReadCancel?
    case CallTimerCancel(t) => Pc(s, t).CallCancel?
    case StoreCount(t) => Pc(s, t).StoreReset?
  }

  function Next(s: State, a: Action): State
    requires Enabled(s, a)
  {
    match a
    case TestCancel => s.(loop := if s.cancelClosed then Returned else StartLock)
    case LockStart => s.(loop := StartBody, holder := Some(RestartLoop))
    case Prepare(ok) =>
      if s.cmd.Some? || !ok then s.(loop := StartUnlock)
      else s.(loop := Spawning, cmd := Some(Command(s.commands, false)), commands := s.commands + 1)
    case Spawn(ok) =>
      if ok && s.cmd.Some? then
        s.(loop := StartUnlock, cmd := Some(s.cmd.value.(hasProcess := true)),
           alive := s.alive + {s.cmd.value.id}, started := s.started + 1)
      else s.(loop := StartUnlock, cmd := None)
    case UnlockStart => s.(loop := CheckCmd, holder := None)
    case LookAtCmd => s.(loop := if s.cmd.None? then Renew else Waiting(s.cmd.value.id))
    case Reap(failed, lived) =>
      s.(loop := if lived >= RESET_TIME then StoreLong(failed) else ClearCmd(failed), reaped := s.reaped + 1)
    case ResetAfterLongRun => s.(loop := ClearCmd(s.loop.failed), restartTimes := 0)
    case Clear => s.(loop := if s.exitOnFailure && s.loop.failed then Returned else Renew, cmd := None)
    case RenewContext => s.(loop := LoadCount, ctx := s.ctx + 1)
    case Load => s.(loop := Selecting(Delay(s.restartTimes, s.outOfRange)))
    case Pass(d) => s.(loop := Selecting(s.loop.left - d))
    case TimerFires => s.(loop := AddOne)
    case ContextDone => s.(loop := StoreZero)
    case CountRestart => s.(loop := Top, restartTimes := Wrap32(s.restartTimes + 1))
    case ZeroCount => s.(loop := Top, restartTimes := 0)
    case ChildExits(id) => s.(alive := s.alive - {id})
    case ConfigEvent => Move(s, ConfigWatcher, StopLock)
    case WatcherError => Move(s, ConfigWatcher, Finished)
    case Terminate => Move(s, Interrupt, Closing)
    case CloseCancel => Move(s, Interrupt, StopLock).(cancelClosed := true)
    case LockStop(t) => Move(s, t, StopBody).(holder := Some(ByStopper(t)))
    case SignalAndUnlock(t) =>
      Move(s, t, ReadCancel).(holder := None,
        signalled := s.signalled + if s.cmd.Some? && s.cmd.value.hasProcess then {s.cmd.value.id} * s.alive else {})
    case ReadTimerCancel(t) => Move(s, t, CallCancel(s.ctx))
    case CallTimerCancel(t) => Move(s, t, StoreReset).(cancelled := s.cancelled + {Pc(s, t).ctx})
    case StoreCount(t) =>
      Move(s, t, if t == Interrupt then Finished else Idle).(restartTimes := 0)
  }

  // ---------- runs ----------

  predicate Feasible(s: State, run: seq<Action>)
    decreases |run|
  {
    run == [] || (Enabled(s, run[0]) && Feasible(Next(s, run[0]), run[1..]))
  }

  function After(s: State, run: seq<Action>): State
    requires Feasible(s, run)
    decreases |run|
  {
    if run == [] then s else After(Next(s, run[0]), run[1..])
  }

  ghost predicate Reachable(s: State) {
    exists e, o, run :: Feasible(Init(e, o), run) && After(Init(e, o), run) == s
  }

  // ---------- the invariant ----------

  /** The restart loop holds the mutex exactly in start's critical section, a stopper exactly in stop's. */
  ghost predicate MutexInv(s: State) {
    && (s.holder == Some(RestartLoop) <==> s.loop.StartBody? || s.loop.Spawning? || s.loop.StartUnlock?)
    && (s.holder == Some(ByStopper(ConfigWatcher)) <==> s.watcher.StopBody?)
    && (s.holder == Some(ByStopper(Interrupt)) <==> s.handler.StopBody?)
  }

  /** The command that has been started and not been waited for yet, by place in the restart loop. */
  ghost predicate CmdInv(s: State) {
    && (match s.loop
        case Spawning => s.cmd.Some? && !s.cmd.value.hasProcess
        case StartUnlock | CheckCmd => s.cmd.Some? ==> s.cmd.value.hasProcess
        case Waiting(c) => s.cmd == Some(Command(c, true))
        case StoreLong(_) | ClearCmd(_) => s.cmd.Some? && s.cmd.value.hasProcess
        case _ => s.cmd.None?)
    && (s.cmd.Some? ==> s.cmd.value.id == s.commands - 1)
  }

  ghost predicate Unreaped(s: State) {
    (s.loop.StartUnlock? || s.loop.CheckCmd? || s.loop.Waiting?) && s.cmd.Some?
  }

  ghost predicate CountInv(s: State) {
    s.started == s.reaped + (if Unreaped(s) then 1 else 0)
  }

  ghost predicate ChildInv(s: State) {
    && (forall c :: c in s.alive ==> Unreaped(s) && c == s.cmd.value.id)
    && (forall c :: c in s.signalled ==> c < s.commands)
  }

  ghost predicate CancelInv(s: State) {
    && (s.cancelClosed <==> !s.handler.Idle? && !s.handler.Closing?)
    && !s.watcher.Closing?
    && (forall c :: c in s.cancelled ==> c <= s.ctx)
    && (s.watcher.CallCancel? ==> s.watcher.ctx <= s.ctx)
    && (s.handler.CallCancel? ==> s.handler.ctx <= s.ctx)
  }

  ghost predicate Inv(s: State) {
    MutexInv(s) && CmdInv(s) && CountInv(s) && ChildInv(s) && CancelInv(s)
  }

  /** The steps of the restart loop, as opposed to those of the child, the environment and the stoppers. */
  predicate OfLoop(a: Action) {
    || a.TestCancel? || a.LockStart? || a.Prepare? || a.Spawn? || a.UnlockStart? || a.LookAtCmd? || a.Reap?
    || a.ResetAfterLongRun? || a.Clear? || a.RenewContext? || a.Load? || a.Pass? || a.TimerFires?
    || a.ContextDone? || a.CountRestart? || a.ZeroCount?
  }

  lemma MutexLoopStep(s: State, a: Action)
    requires MutexInv(s) && Enabled(s, a) && OfLoop(a)
    ensures MutexInv(Next(s, a))
  {
  }

  lemma MutexOtherStep(s: State, a: Action)
    requires MutexInv(s) && Enabled(s, a) && !OfLoop(a)
    ensures MutexInv(Next(s, a))
  {
  }

  lemma MutexStep(s: State, a: Action)
    requires MutexInv(s) && Enabled(s, a)
    ensures MutexInv(Next(s, a))
  {
    if OfLoop(a) {
      MutexLoopStep(s, a);
    } else {
      MutexOtherStep(s, a);
    }
  }

  lemma CmdStep(s: State, a: Action)
    requires MutexInv(s) && CmdInv(s) && Enabled(s, a)
    ensures CmdInv(Next(s, a))
  {
  }

  lemma CountLoopStep(s: State, a: Action)
    requires MutexInv(s) && CmdInv(s) && CountInv(s) && Enabled(s, a) && OfLoop(a)
    ensures CountInv(Next(s, a))
  {
  }

  lemma CountOtherStep(s: State, a: Action)
    requires MutexInv(s) && CmdInv(s) && CountInv(s) && Enabled(s, a) && !OfLoop(a)
    ensures CountInv(Next(s, a))
  {
  }

  lemma CountStep(s: State, a: Action)
    requires MutexInv(s) && CmdInv(s) && CountInv(s) && Enabled(s, a)
    ensures CountInv(Next(s, a))
  {
    if OfLoop(a) {
      CountLoopStep(s, a);
    } else {
      CountOtherStep(s, a);
    }
  }

  lemma ChildLoopStep(s: State, a: Action)
    requires MutexInv(s) && CmdInv(s) && ChildInv(s) && Enabled(s, a) && OfLoop(a)
    ensures ChildInv(Next(s, a))
  {
  }

  lemma ChildOtherStep(s: State, a: Action)
    requires MutexInv(s) && CmdInv(s) && ChildInv(s) && Enabled(s, a) && !OfLoop(a)
    ensures ChildInv(Next(s, a))
  {
  }

  lemma ChildStep(s: State, a: Action)
    requires MutexInv(s) && CmdInv(s) && ChildInv(s) && Enabled(s, a)
    ensures ChildInv(Next(s, a))
  {
    if OfLoop(a) {
      ChildLoopStep(s, a);
    } else {
      ChildOtherStep(s, a);
    }
  }

  lemma CancelLoopStep(s: State, a: Action)
    requires CancelInv(s) && Enabled(s, a) && OfLoop(a)
    ensures CancelInv(Next(s, a))
  {
  }

  lemma CancelOtherStep(s: State, a: Action)
    requires CancelInv(s) && Enabled(s, a) && !OfLoop(a)
    ensures CancelInv(Next(s, a))
  {
  }

  lemma CancelStep(s: State, a: Action)
    requires CancelInv(s) && Enabled(s, a)
    ensures CancelInv(Next(s, a))
  {
    if OfLoop(a) {
      CancelLoopStep(s, a);
    } else {
      CancelOtherStep(s, a);
    }
  }

  lemma InvStep(s: State, a: Action)
    requires Inv(s) && Enabled(s, a)
    ensures Inv(Next(s, a))
  {
    MutexStep(s, a);
    CmdStep(s, a);
    CountStep(s, a);
    ChildStep(s, a);
    CancelStep(s, a);
  }

  lemma {:induction false} InvRun(s: State, run: seq<Action>)
    requires Inv(s) && Feasible(s, run)
    ensures Inv(After(s, run))
    decreases |run|
  {
    if run != [] {
      InvStep(s, run[0]);
      InvRun(Next(s, run[0]), run[1..]);
    }
  }

  lemma InitInv(exitOnFailure: bool, outOfRange: int)
    ensures Inv(Init(exitOnFailure, outOfRange))
  {
  }

  lemma FeasibleCons(s: State, a: Action, run: seq<Action>)
    requires Enabled(s, a) && Feasible(Next(s, a), run)
    ensures Feasible(s, [a] + run) && After(s, [a] + run) == After(Next(s, a), run)
  {
    assert ([a] + run)[1..] == run;
  }

  lemma {:induction false} RunConcat(s: State, run: seq<Action>, more: seq<Action>)
    requires Feasible(s, run) && Feasible(After(s, run), more)
    ensures Feasible(s, run + more) && After(s, run + more) == After(After(s, run), more)
    decreases |run|
  {
    if run == [] {
      assert run + more == more;
    } else {
      assert (run + more)[1..] == run[1..] + more;
      RunConcat(Next(s, run[0]), run[1..], more);
    }
  }

  lemma ReachableNext(s: State, a: Action)
    requires Reachable(s) && Enabled(s, a)
    ensures Reachable(Next(s, a))
  {
    var e, o, run :| Feasible(Init(e, o), run) && After(Init(e, o), run) == s;
    RunConcat(Init(e, o), run, [a]);
  }

  lemma ReachableInit(exitOnFailure: bool, outOfRange: int)
    ensures Reachable(Init(exitOnFailure, outOfRange))
  {
    assert Feasible(Init(exitOnFailure, outOfRange), []);
  }

  lemma ReachableInv(s: State)
    requires Reachable(s)
    ensures Inv(s)
  {
    var e, o, run :| Feasible(Init(e, o), run) && After(Init(e, o), run) == s;
    InitInv(e, o);
    InvRun(Init(e, o), run);
  }
}
