/** Children, signals and shutdown of the supervisor, over all interleavings. */
module SupervisorSafety {
  import opened Common
  import opened Supervisor

  /**
   In every reachable state at most one child runs: successful starts exceed returned waits by 0 or
   1, only the last command can be running, and it is the one the loop waits for.
   */
  lemma AtMostOneChild(s: State)
    requires Reachable(s)
    ensures s.started == s.reaped || s.started == s.reaped + 1
    ensures forall c :: c in s.alive ==>
                          s.started == s.reaped + 1 && s.cmd == Some(Command(c, true)) && c == s.commands - 1
    ensures s.loop.Waiting? ==> s.cmd == Some(Command(s.loop.child, true))
  {
    ReachableInv(s);
  }

  predicate NoReap(run: seq<Action>) {
    forall i :: 0 <= i < |run| ==> !run[i].Reap?
  }

  /**
   wait() reads cmd a second time after giving up the mutex; whatever the other goroutines do until
   the wait returns, it is still the command that was checked under the lock.
   */
  lemma {:induction false} UnlockedWaitIsSafe(s: State, run: seq<Action>)
    requires Inv(s) && s.loop.Waiting?
    requires Feasible(s, run) && NoReap(run)
    ensures After(s, run).loop == s.loop && After(s, run).cmd == Some(Command(s.loop.child, true))
    decreases |run|
  {
    if run != [] {
      InvStep(s, run[0]);
      assert forall i :: 0 <= i < |run[1..]| ==> run[1..][i] == run[i + 1];
      UnlockedWaitIsSafe(Next(s, run[0]), run[1..]);
    }
  }

  // ---------- stop ----------

  /** Every process older than command n that still runs has been told to stop, and none is about to start. */
  ghost predicate OlderAreSignalled(s: State, n: nat) {
    && n <= s.commands
    && (forall c :: c in s.alive && c < n ==> c in s.signalled)
    && (s.loop.Spawning? ==> s.cmd.Some? && s.cmd.value.id >= n)
  }

  lemma OlderAreSignalledLoopStep(s: State, n: nat, a: Action)
    requires CmdInv(s) && OlderAreSignalled(s, n) && Enabled(s, a) && OfLoop(a)
    ensures OlderAreSignalled(Next(s, a), n)
  {
  }

  lemma OlderAreSignalledOtherStep(s: State, n: nat, a: Action)
    requires OlderAreSignalled(s, n) && Enabled(s, a) && !OfLoop(a)
    ensures OlderAreSignalled(Next(s, a), n)
  {
  }

  lemma OlderAreSignalledStep(s: State, n: nat, a: Action)
    requires CmdInv(s) && OlderAreSignalled(s, n) && Enabled(s, a)
    ensures OlderAreSignalled(Next(s, a), n)
  {
    if OfLoop(a) {
      OlderAreSignalledLoopStep(s, n, a);
    } else {
      OlderAreSignalledOtherStep(s, n, a);
    }
  }

  lemma {:induction false} OlderAreSignalledRun(s: State, n: nat, run: seq<Action>)
    requires Inv(s) && OlderAreSignalled(s, n) && Feasible(s, run)
    ensures OlderAreSignalled(After(s, run), n)
    decreases |run|
  {
    if run != [] {
      InvStep(s, run[0]);
      OlderAreSignalledStep(s, n, run[0]);
      OlderAreSignalledRun(Next(s, run[0]), n, run[1..]);
    }
  }

  /** stop() reaches the current child and no other process. */
  lemma StopSignalsCurrentChild(s: State, t: Stopper)
    requires Inv(s) && Enabled(s, SignalAndUnlock(t))
    ensures var s' := Next(s, SignalAndUnlock(t));
            && s'.signalled == s.signalled + s.alive
            && (forall c :: c in s'.signalled - s.signalled ==> s.cmd == Some(Command(c, true)))
  {
  }

  /**
   No stale child survives a configuration change: from the moment stop() has run, in every
   continuation, a running process was either created later (and has seen the new files) or has
   received SIGTERM.
   */
  lemma NoStaleChildSurvives(s: State, t: Stopper, run: seq<Action>)
    requires Reachable(s) && Enabled(s, SignalAndUnlock(t))
    requires Feasible(Next(s, SignalAndUnlock(t)), run)
    ensures var end := After(Next(s, SignalAndUnlock(t)), run);
            forall c :: c in end.alive ==> c >= s.commands || c in end.signalled
  {
    ReachableInv(s);
    InvStep(s, SignalAndUnlock(t));
    OlderAreSignalledRun(Next(s, SignalAndUnlock(t)), s.commands, run);
  }

  // ---------- shutdown ----------

  function Starts(run: seq<Action>): nat {
    if run == [] then 0 else (if run[0].LockStart? then 1 else 0) + Starts(run[1..])
  }

  /**
   Once cancel is closed at most one more start() runs, and only if the loop had already passed its
   test of cancel.
   */
  lemma {:induction false} AtMostOneStartAfterClose(s: State, run: seq<Action>)
    requires s.cancelClosed && Feasible(s, run)
    ensures Starts(run) <= if s.loop.StartLock? then 1 else 0
    decreases |run|
  {
    if run != [] {
      AtMostOneStartAfterClose(Next(s, run[0]), run[1..]);
    }
  }

  /** No further child can be started, and the one running has been told to stop. */
  ghost predicate Quiescing(s: State) {
    && s.cancelClosed
    && !s.loop.StartLock? && !s.loop.StartBody? && !s.loop.Spawning?
    && s.alive <= s.signalled
  }

  lemma {:induction false} QuiescingRun(s: State, run: seq<Action>)
    requires Quiescing(s) && Feasible(s, run)
    ensures Quiescing(After(s, run))
    decreases |run|
  {
    if run != [] {
      QuiescingRun(Next(s, run[0]), run[1..]);
    }
  }

  ghost predicate NeverOrphans(s: State) {
    forall run :: Feasible(s, run) ==> After(s, run).alive <= After(s, run).signalled
  }

  /** The loop runs the start it was about to run, successfully. */
  lemma StartsChild(s: State) returns (run: seq<Action>)
    requires CmdInv(s) && s.loop.StartLock? && s.holder.None?
    ensures Feasible(s, run)
    ensures After(s, run) == s.(loop := Waiting(s.commands), cmd := Some(Command(s.commands, true)),
                                alive := s.alive + {s.commands}, commands := s.commands + 1, started := s.started + 1)
  {
    var s1 := Next(s, LockStart);
    var s2 := Next(s1, Prepare(true));
    var s3 := Next(s2, Spawn(true));
    var s4 := Next(s3, UnlockStart);
    FeasibleCons(s4, LookAtCmd, []);
    FeasibleCons(s3, UnlockStart, [LookAtCmd]);
    FeasibleCons(s2, Spawn(true), [UnlockStart] + [LookAtCmd]);
    FeasibleCons(s1, Prepare(true), [Spawn(true)] + ([UnlockStart] + [LookAtCmd]));
    FeasibleCons(s, LockStart, [Prepare(true)] + ([Spawn(true)] + ([UnlockStart] + [LookAtCmd])));
    run := [LockStart] + ([Prepare(true)] + ([Spawn(true)] + ([UnlockStart] + [LookAtCmd])));
  }

  /** The interrupt handler finishes; then the loop starts a child that nobody has signalled. */
  lemma LateStartOrphans(s: State) returns (run: seq<Action>)
    requires Inv(s) && s.handler.ReadCancel? && s.loop.StartLock? && s.holder.None?
    ensures Feasible(s, run)
    ensures var end := After(s, run);
            && end.handler.Finished? && end.loop == Waiting(s.commands)
            && s.commands in end.alive && s.commands !in end.signalled
  {
    var s1 := Next(s, ReadTimerCancel(Interrupt));
    var s2 := Next(s1, CallTimerCancel(Interrupt));
    var s3 := Next(s2, StoreCount(Interrupt));
    var start := StartsChild(s3);
    FeasibleCons(s2, StoreCount(Interrupt), start);
    FeasibleCons(s1, CallTimerCancel(Interrupt), [StoreCount(Interrupt)] + start);
    FeasibleCons(s, ReadTimerCancel(Interrupt), [CallTimerCancel(Interrupt)] + ([StoreCount(Interrupt)] + start));
    run := [ReadTimerCancel(Interrupt)] + ([CallTimerCancel(Interrupt)] + ([StoreCount(Interrupt)] + start));
  }

  /**
   Shutdown signals every child there will ever be if and only if, when the interrupt handler holds
   the mutex in stop(), the restart loop is not waiting to lock it in start(). In that window the loop
   has tested cancel already, starts a child after stop() looked, and waits for it unsignalled.
   */
  lemma ShutdownReachesChildIff(s: State)
    requires Reachable(s) && Enabled(s, SignalAndUnlock(Interrupt))
    ensures NeverOrphans(Next(s, SignalAndUnlock(Interrupt))) <==> !s.loop.StartLock?
  {
    ReachableInv(s);
    var s' := Next(s, SignalAndUnlock(Interrupt));
    InvStep(s, SignalAndUnlock(Interrupt));
    if s.loop.StartLock? {
      var run := LateStartOrphans(s');
      assert !(After(s', run).alive <= After(s', run).signalled);
    } else {
      forall run | Feasible(s', run) ensures After(s', run).alive <= After(s', run).signalled {
        QuiescingRun(s', run);
      }
    }
  }

  /** The window exists: a termination signal right after the first test of cancel opens it. */
  lemma ShutdownWindowIsReachable(exitOnFailure: bool, outOfRange: int)
    ensures exists s :: Reachable(s) && Enabled(s, SignalAndUnlock(Interrupt)) && s.loop.StartLock?
  {
    var s0 := Init(exitOnFailure, outOfRange);
    ReachableInit(exitOnFailure, outOfRange);
    var s1 := s0.(loop := StartLock);
    ReachableNext(s0, TestCancel);
    var s2 := s1.(handler := Closing);
    ReachableNext(s1, Terminate);
    var s3 := s2.(handler := StopLock, cancelClosed := true);
    ReachableNext(s2, CloseCancel);
    var s4 := s3.(handler := StopBody, holder := Some(ByStopper(Interrupt)));
    ReachableNext(s3, LockStop(Interrupt));
    assert Enabled(s4, SignalAndUnlock(Interrupt)) && s4.loop.StartLock?;
  }
}
