/**
 The watcher's code over its shared variables, one goroutine at a time: before every atomic step the
 other goroutines and the operating system take any number of steps of their own. A ghost log holds the
 steps of the transition system taken so far; it always leads to the values of the variables, and each
 method says which steps it adds.
 */
module Watcher {
  import opened Common
  import opened Backoff
  import opened Supervisor

  /** The goroutine that takes a step; None for the operating system. */
  function ActorOf(a: Action): Option<Owner> {
    match a
    case ChildExits(_) => None
    case ConfigEvent | WatcherError => Some(ByStopper(ConfigWatcher))
    case Terminate | CloseCancel => Some(ByStopper(Interrupt))
    case LockStop(t) => Some(ByStopper(t))
    case SignalAndUnlock(t) => Some(ByStopper(t))
    case ReadTimerCancel(t) => Some(ByStopper(t))
    case CallTimerCancel(t) => Some(ByStopper(t))
    case StoreCount(t) => Some(ByStopper(t))
    case _ => Some(RestartLoop)
  }

  lemma LoopUnmoved(s: State, a: Action)
    requires Enabled(s, a) && ActorOf(a) != Some(RestartLoop)
    ensures Next(s, a).loop == s.loop && Next(s, a).cmd == s.cmd && Next(s, a).ctx == s.ctx
  {
  }

  lemma StopperUnmoved(s: State, a: Action, t: Stopper)
    requires Enabled(s, a) && ActorOf(a) != Some(ByStopper(t))
    ensures Pc(Next(s, a), t) == Pc(s, t)
  {
  }

  lemma HolderUnmoved(s: State, a: Action, me: Owner)
    requires MutexInv(s) && Enabled(s, a) && ActorOf(a) != Some(me) && s.holder == Some(me)
    ensures Next(s, a).holder == Some(me)
  {
  }

  /** Steps of others leave a goroutine where it is, and the loop's variable cmd to the loop. */
  lemma OthersStep(s: State, a: Action, me: Owner)
    requires Inv(s) && Enabled(s, a) && ActorOf(a) != Some(me)
    ensures me == RestartLoop ==> Next(s, a).loop == s.loop && Next(s, a).cmd == s.cmd && Next(s, a).ctx == s.ctx
    ensures me.ByStopper? ==> Pc(Next(s, a), me.t) == Pc(s, me.t)
    ensures s.holder == Some(me) ==> Next(s, a).holder == Some(me)
  {
    match me
    case RestartLoop => LoopUnmoved(s, a);
    case ByStopper(t) => StopperUnmoved(s, a, t);
    if s.holder == Some(me) {
      HolderUnmoved(s, a, me);
    }
  }

  lemma NextKeepsSettings(s: State, a: Action)
    requires Enabled(s, a)
    ensures Next(s, a).exitOnFailure == s.exitOnFailure && Next(s, a).outOfRange == s.outOfRange
  {
  }

  /** The steps of a log that a goroutine took itself. */
  ghost function Own(me: Owner, log: seq<Action>): seq<Action> {
    if log == [] then []
    else
      var last := log[|log| - 1];
      Own(me, log[..|log| - 1]) + if ActorOf(last) == Some(me) then [last] else []
  }

  lemma OwnAppend(me: Owner, log: seq<Action>, a: Action)
    ensures Own(me, log + [a]) == Own(me, log) + if ActorOf(a) == Some(me) then [a] else []
  {
    assert (log + [a])[..|log|] == log;
  }

  /** The steps of stop() and resetTimer(), in order. */
  function StopAndReset(t: Stopper): seq<Action> {
    [LockStop(t), SignalAndUnlock(t), ReadTimerCancel(t), CallTimerCancel(t), StoreCount(t)]
  }

  /** How often the restart loop has tested its cancel channel. */
  ghost function Rounds(log: seq<Action>): nat {
    if log == [] then 0 else Rounds(log[..|log| - 1]) + if log[|log| - 1].TestCancel? then 1 else 0
  }

  lemma RoundsAppend(log: seq<Action>, a: Action)
    ensures Rounds(log + [a]) == Rounds(log) + if a.TestCancel? then 1 else 0
  {
    assert (log + [a])[..|log|] == log;
  }

  class Process {
    // where each goroutine is
    var loop: LoopPc
    var watcher: StopPc
    var handler: StopPc
    // shared variables
    var holder: Option<Owner>
    var cmd: Option<Command>
    var restartTimes: int
    var timerCtx: nat
    var cancelled: set<nat>
    var cancelClosed: bool
    // operating system
    var commands: nat
    var alive: set<nat>
    var started: nat
    var reaped: nat
    var signalled: set<nat>
    const exitOnFailure: bool
    const outOfRange: int

    ghost var log: seq<Action>

    function View(): State
      reads this
    {
      State(loop, watcher, handler, holder, cmd, restartTimes, timerCtx, cancelled, cancelClosed, commands,
            alive, started, reaped, signalled, exitOnFailure, outOfRange)
    }

    ghost function First(): State {
      Init(exitOnFailure, outOfRange)
    }

    ghost predicate Valid()
      reads this
    {
      Inv(View()) && Feasible(First(), log) && After(First(), log) == View()
    }

    constructor (exitOnFailure: bool, outOfRange: int)
      ensures Valid() && loop.Top? && watcher.Idle? && handler.Idle? && log == []
      ensures this.exitOnFailure == exitOnFailure
    {
      loop, watcher, handler, holder, cmd, restartTimes, timerCtx := Top, Idle, Idle, None, None, 0, 0;
      cancelled, cancelClosed, commands, alive, started, reaped, signalled := {}, false, 0, {}, 0, 0, {};
      this.exitOnFailure, this.outOfRange := exitOnFailure, outOfRange;
      log := [];
      InitInv(exitOnFailure, outOfRange);
    }

    /** The log grew by steps of others only. */
    twostate predicate Elsewhere(me: Owner)
      reads this
    {
      && Own(me, log) == old(Own(me, log))
      && (me == RestartLoop ==> Rounds(log) == old(Rounds(log)))
    }

    /** The other goroutines and the operating system run for a while. */
    method Others(me: Owner)
      requires Valid()
      modifies this
      ensures Valid()
      ensures me == RestartLoop ==> loop == old(loop) && cmd == old(cmd) && timerCtx == old(timerCtx)
      ensures Elsewhere(me)
      ensures me.ByStopper? ==> Pc(View(), me.t) == old(Pc(View(), me.t))
      ensures old(holder) == Some(me) ==> holder == Some(me)
    {
      var steps: int := *;
      while steps > 0
        invariant Valid()
        invariant me == RestartLoop ==> loop == old(loop) && cmd == old(cmd) && timerCtx == old(timerCtx)
        invariant Elsewhere(me)
        invariant me.ByStopper? ==> Pc(View(), me.t) == old(Pc(View(), me.t))
        invariant old(holder) == Some(me) ==> holder == Some(me)
      {
        var a: Action := *;
        if ActorOf(a) != Some(me) && Enabled(View(), a) {
          OthersStep(View(), a, me);
          OwnAppend(me, log, a);
          RoundsAppend(log, a);
          Take(a);
        }
        steps := steps - 1;
      }
    }

    method Set(s: State)
      requires s.exitOnFailure == exitOnFailure && s.outOfRange == outOfRange
      modifies this
      ensures View() == s && log == old(log)
    {
      SetWatcher(s);
      SetSystem(s);
    }

    method SetWatcher(s: State)
      modifies this`loop, this`watcher, this`handler, this`holder, this`cmd, this`restartTimes, this`timerCtx
      ensures loop == s.loop && watcher == s.watcher && handler == s.handler && holder == s.holder
      ensures cmd == s.cmd && restartTimes == s.restartTimes && timerCtx == s.ctx
    {
      loop, watcher, handler, holder := s.loop, s.watcher, s.handler, s.holder;
      cmd, restartTimes, timerCtx := s.cmd, s.restartTimes, s.ctx;
    }

    method SetSystem(s: State)
      modifies this`cancelled, this`cancelClosed, this`commands, this`alive, this`started, this`reaped, this`signalled
      ensures cancelled == s.cancelled && cancelClosed == s.cancelClosed && commands == s.commands
      ensures alive == s.alive && started == s.started && reaped == s.reaped && signalled == s.signalled
    {
      cancelled, cancelClosed, commands := s.cancelled, s.cancelClosed, s.commands;
      alive, started, reaped, signalled := s.alive, s.started, s.reaped, s.signalled;
    }

    method Take(a: Action)
      requires Valid() && Enabled(View(), a)
      modifies this
      ensures Valid() && View() == old(Next(View(), a)) && log == old(log) + [a]
    {
      ghost var s := View();
      NextKeepsSettings(View(), a);
      Set(Next(View(), a));
      Did(s, a);
    }

    /** How many steps the holder of the mutex is away from releasing it. */
    ghost function StepsToRelease(): nat
      reads this
    {
      if holder.None? then 0 else if holder.value.ByStopper? then 1
      else if loop.StartBody? then 3 else if loop.Spawning? then 2 else 1
    }

    /** Lets the others run until the mutex is free: whoever holds it is about to release it. */
    method AwaitMutex(me: Owner)
      requires Valid() && holder != Some(me)
      modifies this
      ensures Valid() && holder.None?
      ensures me == RestartLoop ==> loop == old(loop) && cmd == old(cmd) && timerCtx == old(timerCtx)
      ensures Elsewhere(me)
      ensures me.ByStopper? ==> Pc(View(), me.t) == old(Pc(View(), me.t))
    {
      Others(me);
      while holder.Some? && holder != Some(me)
        invariant Valid()
        invariant holder != Some(me)
        invariant me == RestartLoop ==> loop == old(loop) && cmd == old(cmd) && timerCtx == old(timerCtx)
        invariant Elsewhere(me)
        invariant me.ByStopper? ==> Pc(View(), me.t) == old(Pc(View(), me.t))
        decreases StepsToRelease()
      {
        HolderSteps(me);
      }
    }

    method HolderSteps(me: Owner)
      requires Valid() && holder.Some? && holder != Some(me)
      modifies this
      ensures Valid() && holder != Some(me) && StepsToRelease() < old(StepsToRelease())
      ensures me == RestartLoop ==> loop == old(loop) && cmd == old(cmd) && timerCtx == old(timerCtx)
      ensures Elsewhere(me)
      ensures me.ByStopper? ==> Pc(View(), me.t) == old(Pc(View(), me.t))
    {
      var ok: bool := *;
      var a := if holder.value.ByStopper? then SignalAndUnlock(holder.value.t)
               else if loop.StartBody? then Prepare(ok)
               else if loop.Spawning? then Spawn(ok)
               else UnlockStart;
      OthersStep(View(), a, me);
      OwnAppend(me, log, a);
      RoundsAppend(log, a);
      Take(a);
    }

    /** Closes an atomic step: what the code just did to the variables is the machine's step a. */
    ghost method Did(before: State, a: Action)
      requires Inv(before) && Feasible(First(), log) && After(First(), log) == before
      requires Enabled(before, a) && View() == Next(before, a)
      modifies this`log
      ensures Valid() && log == old(log) + [a]
      ensures ActorOf(a).Some? ==> Own(ActorOf(a).value, log) == old(Own(ActorOf(a).value, log)) + [a]
      ensures Rounds(log) == old(Rounds(log)) + if a.TestCancel? then 1 else 0
    {
      RoundsAppend(log, a);
      if ActorOf(a).Some? {
        OwnAppend(ActorOf(a).value, log, a);
      }
      InvStep(before, a);
      FeasibleCons(before, a, []);
      assert [a] + [] == [a];
      RunConcat(First(), log, [a]);
      log := log + [a];
    }

    // ---------- the restart loop ----------

    method Start()
      requires Valid() && loop.StartLock?
      modifies this
      ensures Valid() && Rounds(log) == old(Rounds(log)) && loop.CheckCmd?
    {
      AwaitMutex(RestartLoop);
      ghost var s := View();
      holder, loop := Some(RestartLoop), StartBody;
      Did(s, LockStart);
      CreateCommand();
      if loop.Spawning? {
        SpawnCommand();
      }
      Others(RestartLoop);
      s := View();
      holder, loop := None, CheckCmd;
      Did(s, UnlockStart);
    }

    /** Returns early when a command exists or the configuration cannot be prepared. */
    method CreateCommand()
      requires Valid() && loop.StartBody?
      modifies this
      ensures Valid() && Rounds(log) == old(Rounds(log)) && (loop.Spawning? || loop.StartUnlock?)
    {
      Others(RestartLoop);
      ghost var s := View();
      var prepared: bool := *;
      if cmd.Some? || !prepared {
        loop := StartUnlock;
      } else {
        cmd, commands, loop := Some(Command(commands, false)), commands + 1, LoopPc.Spawning;
      }
      Did(s, Prepare(prepared));
    }

    /** cmd.Start(): on failure the command is forgotten again. */
    method SpawnCommand()
      requires Valid() && loop.Spawning?
      modifies this
      ensures Valid() && Rounds(log) == old(Rounds(log)) && loop.StartUnlock?
    {
      Others(RestartLoop);
      ghost var s := View();
      var ok: bool := *;
      if ok {
        cmd := Some(Command(cmd.value.id, true));
        alive, started := alive + {cmd.value.id}, started + 1;
      } else {
        cmd := None;
      }
      loop := StartUnlock;
      Did(s, Spawn(ok));
    }

    method Wait() returns (failed: bool)
      requires Valid() && loop.CheckCmd?
      modifies this
      ensures Valid() && Rounds(log) == old(Rounds(log)) && cmd.None?
      ensures if failed && exitOnFailure then loop.Returned? else loop.Renew?
    {
      var child := LookAtCommand();
      if child.None? {
        return false;
      }
      failed := Reaping(child.value);
      ForgetCommand();
    }

    method ForgetCommand()
      requires Valid() && loop.ClearCmd?
      modifies this
      ensures Valid() && Rounds(log) == old(Rounds(log)) && cmd.None?
      ensures if old(loop.failed) && exitOnFailure then loop.Returned? else loop.Renew?
    {
      AwaitMutex(RestartLoop);
      ghost var s := View();
      cmd := None;
      loop := if exitOnFailure && loop.failed then Returned else Renew;
      Did(s, Clear);
    }

    /** The check of cmd under the mutex. */
    method LookAtCommand() returns (child: Option<nat>)
      requires Valid() && loop.CheckCmd?
      modifies this
      ensures Valid() && Rounds(log) == old(Rounds(log))
      ensures if child.None? then loop.Renew? && cmd.None? else loop == Waiting(child.value)
    {
      AwaitMutex(RestartLoop);
      ghost var s := View();
      if cmd.None? {
        loop, child := Renew, None;
      } else {
        loop, child := Waiting(cmd.value.id), Some(cmd.value.id);
      }
      Did(s, LookAtCmd);
    }

    /** cmd.Wait() without the mutex, and the reset of the count after ten minutes. */
    method Reaping(child: nat) returns (failed: bool)
      requires Valid() && loop == Waiting(child)
      modifies this
      ensures Valid() && Rounds(log) == old(Rounds(log)) && loop == ClearCmd(failed)
    {
      AwaitExit(child);
      ghost var s := View();
      var lived: int := *;
      failed := *;
      reaped := reaped + 1;
      loop := if lived >= RESET_TIME then StoreLong(failed) else ClearCmd(failed);
      Did(s, Reap(failed, lived));
      if lived >= RESET_TIME {
        StoreAfterLongRun();
      }
    }

    /** Blocks until the process of the command is gone. */
    method AwaitExit(child: nat)
      requires Valid() && loop == Waiting(child)
      modifies this
      ensures Valid() && Rounds(log) == old(Rounds(log)) && loop == Waiting(child) && child !in alive
    {
      Others(RestartLoop);
      assert cmd == Some(Command(child, true));
      if cmd.value.id in alive {
        RoundsAppend(log, ChildExits(child));
        Take(ChildExits(cmd.value.id));
      }
    }

    method StoreAfterLongRun()
      requires Valid() && loop.StoreLong?
      modifies this
      ensures Valid() && Rounds(log) == old(Rounds(log)) && loop == ClearCmd(old(loop.failed))
    {
      Others(RestartLoop);
      ghost var s := View();
      restartTimes, loop := 0, ClearCmd(loop.failed);
      Did(s, ResetAfterLongRun);
    }

    method RenewTimer()
      requires Valid() && loop.Renew?
      modifies this
      ensures Valid() && Rounds(log) == old(Rounds(log)) && loop.LoadCount?
    {
      Others(RestartLoop);
      ghost var s := View();
      timerCtx, loop := timerCtx + 1, LoadCount;
      Did(s, RenewContext);
    }

    method Backoff()
      requires Valid() && loop.LoadCount?
      modifies this
      ensures Valid() && loop.Top? && Rounds(log) == old(Rounds(log))
    {
      Others(RestartLoop);
      ghost var s := View();
      loop := Selecting(Delay(restartTimes, outOfRange));
      Did(s, Load);
      Sleep();
      StoreOutcome();
    }

    /** A cancelled context resets the count, a timeout raises it. */
    method StoreOutcome()
      requires Valid() && (loop.StoreZero? || loop.AddOne?)
      modifies this
      ensures Valid() && loop.Top? && Rounds(log) == old(Rounds(log))
    {
      Others(RestartLoop);
      ghost var s := View();
      if loop.StoreZero? {
        restartTimes, loop := 0, Top;
        Did(s, ZeroCount);
      } else {
        restartTimes, loop := Wrap32(restartTimes + 1), Top;
        Did(s, CountRestart);
      }
    }

    /** The select: either channel may win when both are ready. */
    method Sleep()
      requires Valid() && loop.Selecting?
      modifies this
      ensures Valid() && Rounds(log) == old(Rounds(log)) && (loop.StoreZero? || loop.AddOne?)
    {
      Others(RestartLoop);
      while timerCtx !in cancelled && loop.left > 0
        invariant Valid() && loop.Selecting? && Rounds(log) == old(Rounds(log))
        decreases loop.left
      {
        SleepABit();
      }
      ghost var s := View();
      var contextFirst: bool := *;
      if timerCtx in cancelled && (contextFirst || loop.left > 0) {
        loop := StoreZero;
        Did(s, ContextDone);
      } else {
        loop := AddOne;
        Did(s, TimerFires);
      }
    }

    method SleepABit()
      requires Valid() && loop.Selecting? && timerCtx !in cancelled && loop.left > 0
      modifies this
      ensures Valid() && Rounds(log) == old(Rounds(log)) && loop.Selecting? && loop.left < old(loop.left)
    {
      var d: int := *;
      if !(0 < d <= loop.left) {
        d := loop.left;
      }
      ghost var s := View();
      loop := Selecting(loop.left - d);
      Did(s, Pass(d));
      Others(RestartLoop);
    }

    /** select on the cancel channel. */
    method TestCancelled()
      requires Valid() && loop.Top?
      modifies this
      ensures Valid() && (loop.Returned? || loop.StartLock?) && Rounds(log) == old(Rounds(log)) + 1
    {
      Others(RestartLoop);
      ghost var s := View();
      loop := if cancelClosed then Returned else StartLock;
      Did(s, TestCancel);
    }

    /** The restart loop for a bounded number of rounds. */
    method RunLoop(rounds: nat)
      requires Valid() && loop.Top?
      modifies this
      ensures Valid()
      ensures if loop.Returned? then Rounds(log) > old(Rounds(log))
              else loop.Top? && Rounds(log) == old(Rounds(log)) + rounds
    {
      for i := 0 to rounds
        invariant Valid() && loop.Top? && Rounds(log) == old(Rounds(log)) + i
      {
        TestCancelled();
        if loop.Returned? {
          return;
        }
        Start();
        var failed := Wait();
        if exitOnFailure && failed {
          return;
        }
        RenewTimer();
        Backoff();
      }
    }

    // ---------- stop and resetTimer, for either goroutine that calls them ----------

    method MoveTo(t: Stopper, pc: StopPc)
      modifies this`watcher, this`handler
      ensures View() == Move(old(View()), t, pc)
    {
      if t == ConfigWatcher {
        watcher := pc;
      } else {
        handler := pc;
      }
    }

    method Stop(t: Stopper)
      requires Valid() && Pc(View(), t).StopLock?
      modifies this
      ensures Valid() && Pc(View(), t).ReadCancel?
      ensures Own(ByStopper(t), log) == old(Own(ByStopper(t), log)) + [LockStop(t), SignalAndUnlock(t)]
    {
      EnterStop(t);
      SignalChild(t);
    }

    method EnterStop(t: Stopper)
      requires Valid() && Pc(View(), t).StopLock?
      modifies this
      ensures Valid() && Pc(View(), t).StopBody?
      ensures Own(ByStopper(t), log) == old(Own(ByStopper(t), log)) + [LockStop(t)]
    {
      AwaitMutex(ByStopper(t));
      ghost var s := View();
      holder := Some(ByStopper(t));
      MoveTo(t, StopBody);
      Did(s, LockStop(t));
    }

    /** SIGTERM reaches a process that is still running. */
    method SendSignal()
      modifies this`signalled
      ensures signalled == old(signalled) + if cmd.Some? && cmd.value.hasProcess then {cmd.value.id} * alive else {}
    {
      if cmd.Some? && cmd.value.hasProcess && cmd.value.id in alive {
        signalled := signalled + {cmd.value.id};
      }
    }

    method SignalChild(t: Stopper)
      requires Valid() && Pc(View(), t).StopBody?
      modifies this
      ensures Valid() && Pc(View(), t).ReadCancel?
      ensures Own(ByStopper(t), log) == old(Own(ByStopper(t), log)) + [SignalAndUnlock(t)]
    {
      Others(ByStopper(t));
      ghost var s := View();
      SendSignal();
      holder := None;
      MoveTo(t, ReadCancel);
      Did(s, SignalAndUnlock(t));
    }

    method ResetTimer(t: Stopper)
      requires Valid() && Pc(View(), t).ReadCancel?
      modifies this
      ensures Valid() && Pc(View(), t) == (if t == Interrupt then Finished else Idle)
      ensures Own(ByStopper(t), log)
              == old(Own(ByStopper(t), log)) + [ReadTimerCancel(t), CallTimerCancel(t), StoreCount(t)]
    {
      // timerCancel(): the variable is read first, the function called afterwards
      var ctx := ReadCancelVariable(t);
      CallCancelFunction(t, ctx);
      StoreZeroCount(t);
    }

    method ReadCancelVariable(t: Stopper) returns (ctx: nat)
      requires Valid() && Pc(View(), t).ReadCancel?
      modifies this
      ensures Valid() && Pc(View(), t) == CallCancel(ctx)
      ensures Own(ByStopper(t), log) == old(Own(ByStopper(t), log)) + [ReadTimerCancel(t)]
    {
      Others(ByStopper(t));
      ghost var s := View();
      ctx := timerCtx;
      MoveTo(t, CallCancel(ctx));
      Did(s, ReadTimerCancel(t));
    }

    method CallCancelFunction(t: Stopper, ctx: nat)
      requires Valid() && Pc(View(), t) == CallCancel(ctx)
      modifies this
      ensures Valid() && Pc(View(), t).StoreReset?
      ensures Own(ByStopper(t), log) == old(Own(ByStopper(t), log)) + [CallTimerCancel(t)]
    {
      Others(ByStopper(t));
      ghost var s := View();
      cancelled := cancelled + {ctx};
      MoveTo(t, StoreReset);
      Did(s, CallTimerCancel(t));
    }

    method StoreZeroCount(t: Stopper)
      requires Valid() && Pc(View(), t).StoreReset?
      modifies this
      ensures Valid() && Pc(View(), t) == (if t == Interrupt then Finished else Idle)
      ensures Own(ByStopper(t), log) == old(Own(ByStopper(t), log)) + [StoreCount(t)]
    {
      Others(ByStopper(t));
      ghost var s := View();
      restartTimes := 0;
      MoveTo(t, if t == Interrupt then Finished else Idle);
      Did(s, StoreCount(t));
    }

    /** The interrupt function of the restart loop. */
    method InterruptLoop()
      requires Valid() && handler.Closing?
      modifies this
      ensures Valid() && handler.Finished?
      ensures Own(ByStopper(Interrupt), log)
              == old(Own(ByStopper(Interrupt), log)) + [CloseCancel] + StopAndReset(Interrupt)
    {
      Others(ByStopper(Interrupt));
      ghost var s := View();
      cancelClosed, handler := true, StopLock;
      Did(s, CloseCancel);
      Stop(Interrupt);
      ResetTimer(Interrupt);
    }

    /** The config watcher's reaction to an accepted event. */
    method ConfigChanged()
      requires Valid() && watcher.Idle?
      modifies this
      ensures Valid() && watcher.Idle?
      ensures Own(ByStopper(ConfigWatcher), log)
              == old(Own(ByStopper(ConfigWatcher), log)) + [ConfigEvent] + StopAndReset(ConfigWatcher)
    {
      AcceptEvent();
      Stop(ConfigWatcher);
      ResetTimer(ConfigWatcher);
    }

    method AcceptEvent()
      requires Valid() && watcher.Idle?
      modifies this
      ensures Valid() && watcher.StopLock?
      ensures Own(ByStopper(ConfigWatcher), log) == old(Own(ByStopper(ConfigWatcher), log)) + [ConfigEvent]
    {
      Others(ByStopper(ConfigWatcher));
      ghost var s := View();
      watcher := StopLock;
      Did(s, ConfigEvent);
    }
  }

  /** The code never leaves the reachable states of the machine. */
  lemma CodeStaysReachable(p: Process)
    requires p.Valid()
    ensures Reachable(p.View())
  {
    assert Feasible(Init(p.exitOnFailure, p.outOfRange), p.log);
  }
}
