/** What whole runs of the supervisor do with the restart count, a failed child and a configuration event. */
module SupervisorRuns {
  import opened Common
  import opened Backoff
  import opened Supervisor
  import opened SupervisorSafety

  // ---------- the restart count ----------

  predicate NoCount(run: seq<Action>) {
    forall i :: 0 <= i < |run| ==> !run[i].CountRestart?
  }

  /** The count is 0, or the loop is about to store 0. */
  predicate Forgetting(s: State) {
    s.restartTimes == 0 || s.loop.StoreLong? || s.loop.StoreZero?
  }

  lemma {:induction false} ForgettingRun(s: State, run: seq<Action>)
    requires Forgetting(s) && Feasible(s, run) && NoCount(run)
    ensures Forgetting(After(s, run))
    decreases |run|
  {
    if run != [] {
      var a := run[0];
      assert Forgetting(Next(s, a));
      assert forall i :: 0 <= i < |run[1..]| ==> run[1..][i] == run[i + 1];
      ForgettingRun(Next(s, a), run[1..]);
    }
  }

  /** The loop is about to load the count, and what it will load gives the shortest delay. */
  ghost predicate LoadsOneSecond(s: State) {
    s.loop.LoadCount? && s.restartTimes == 0 && Next(s, Load).loop == Selecting(SECOND)
  }

  lemma ForgettingLoads(s: State, run: seq<Action>)
    requires Forgetting(s) && Feasible(s, run) && NoCount(run) && After(s, run).loop.LoadCount?
    ensures LoadsOneSecond(After(s, run))
  {
    ForgettingRun(s, run);
    DelayAsDocumented(0, After(s, run).outOfRange);
  }

  /** After a child that lived ten minutes the next backoff is a second, whatever the count was. */
  lemma LongLivedChildForgets(s: State, failed: bool, lived: int, run: seq<Action>)
    requires Enabled(s, Reap(failed, lived)) && lived >= 600 * SECOND
    requires Feasible(Next(s, Reap(failed, lived)), run) && NoCount(run)
    requires After(Next(s, Reap(failed, lived)), run).loop.LoadCount?
    ensures LoadsOneSecond(After(Next(s, Reap(failed, lived)), run))
  {
    ForgettingLoads(Next(s, Reap(failed, lived)), run);
  }

  /** So it is after a backoff that was cut short by its context. */
  lemma CancelledBackoffForgets(s: State, run: seq<Action>)
    requires Enabled(s, ContextDone)
    requires Feasible(Next(s, ContextDone), run) && NoCount(run)
    requires After(Next(s, ContextDone), run).loop.LoadCount?
    ensures LoadsOneSecond(After(Next(s, ContextDone), run))
  {
    ForgettingLoads(Next(s, ContextDone), run);
  }

  /** Neither a reset by others, nor a long-lived child, nor a cancelled or timed-out backoff. */
  predicate KeepsCount(a: Action) {
    !a.StoreCount? && !a.ResetAfterLongRun? && !a.ZeroCount? && !a.CountRestart?
  }

  /** Nothing else touches the count: a child that lived shorter leaves it to the next backoff. */
  lemma {:induction false} CountIsKept(s: State, run: seq<Action>)
    requires Feasible(s, run) && forall i :: 0 <= i < |run| ==> KeepsCount(run[i])
    ensures After(s, run).restartTimes == s.restartTimes
    decreases |run|
  {
    if run != [] {
      assert KeepsCount(run[0]);
      assert forall i :: 0 <= i < |run[1..]| ==> run[1..][i] == run[i + 1];
      CountIsKept(Next(s, run[0]), run[1..]);
    }
  }

  /** No reset by others, and no child of the run lived for ten minutes. */
  predicate ShortLived(run: seq<Action>) {
    forall i :: 0 <= i < |run| ==>
                  !run[i].StoreCount? && !run[i].Load? && !(run[i].Reap? && run[i].lived >= 600 * SECOND)
  }

  lemma {:induction false} ShortLivedRun(s: State, run: seq<Action>)
    requires !s.loop.StoreLong? && !s.loop.StoreZero? && !s.loop.AddOne? && !s.loop.Selecting?
    requires Feasible(s, run) && ShortLived(run)
    ensures After(s, run).restartTimes == s.restartTimes
    decreases |run|
  {
    if run != [] {
      var a := run[0];
      var s' := Next(s, a);
      assert s'.restartTimes == s.restartTimes;
      assert !s'.loop.StoreLong? && !s'.loop.StoreZero? && !s'.loop.AddOne? && !s'.loop.Selecting?;
      assert forall i :: 0 <= i < |run[1..]| ==> run[1..][i] == run[i + 1];
      ShortLivedRun(s', run[1..]);
    }
  }

  /** A child that lived shorter leaves the count as it was for the next backoff. */
  lemma ShortLivedChildKeepsCount(s: State, failed: bool, lived: int, run: seq<Action>)
    requires Enabled(s, Reap(failed, lived)) && lived < 600 * SECOND
    requires Feasible(Next(s, Reap(failed, lived)), run) && ShortLived(run)
    ensures After(Next(s, Reap(failed, lived)), run).restartTimes == s.restartTimes
  {
    ShortLivedRun(Next(s, Reap(failed, lived)), run);
  }

  // ---------- a child that failed ----------

  /** The loop has reaped the child and is on its way out of wait. */
  predicate Reaped(s: State, failed: bool) {
    s.loop == StoreLong(failed) || s.loop == ClearCmd(failed)
  }

  lemma {:induction false} EndingRun(s: State, failed: bool, run: seq<Action>)
    requires (Reaped(s, failed) || s.loop.Returned?) && s.exitOnFailure && failed && Feasible(s, run)
    ensures Reaped(After(s, run), failed) || After(s, run).loop.Returned?
    ensures Starts(run) == 0
    decreases |run|
  {
    if run != [] {
      var s' := Next(s, run[0]);
      assert Reaped(s', failed) || s'.loop.Returned?;
      EndingRun(s', failed, run[1..]);
    }
  }

  predicate SameRound(run: seq<Action>) {
    forall i :: 0 <= i < |run| ==> !run[i].TestCancel? && !run[i].Reap?
  }

  lemma {:induction false} GoingOnRun(s: State, failed: bool, run: seq<Action>)
    requires s.loop.StoreLong? || s.loop.ClearCmd? ==> s.loop.failed == failed
    requires !s.loop.Returned? && !(s.exitOnFailure && failed) && Feasible(s, run) && SameRound(run)
    ensures !After(s, run).loop.Returned?
    decreases |run|
  {
    if run != [] {
      var s' := Next(s, run[0]);
      assert !s'.loop.Returned? && (s'.loop.StoreLong? || s'.loop.ClearCmd? ==> s'.loop.failed == failed);
      assert s'.exitOnFailure == s.exitOnFailure;
      assert forall i :: 0 <= i < |run[1..]| ==> run[1..][i] == run[i + 1];
      GoingOnRun(s', failed, run[1..]);
    }
  }

  /** No run from here starts the child again. */
  ghost predicate NeverStartsAgain(s: State) {
    forall run :: Feasible(s, run) ==> Starts(run) == 0
  }

  /**
   With exit-on-failure a failed child is the last one: no run starts another, and the loop can only
   return. Otherwise, nothing but the cancel channel makes the loop return.
   */
  lemma FailedChildEndsLoop(s: State, failed: bool, lived: int, run: seq<Action>)
    requires Enabled(s, Reap(failed, lived)) && Feasible(Next(s, Reap(failed, lived)), run)
    ensures s.exitOnFailure && failed ==> NeverStartsAgain(Next(s, Reap(failed, lived)))
    ensures !(s.exitOnFailure && failed) && SameRound(run) ==> !After(Next(s, Reap(failed, lived)), run).loop.Returned?
  {
    var s' := Next(s, Reap(failed, lived));
    if s.exitOnFailure && failed {
      forall r | Feasible(s', r) ensures Starts(r) == 0 {
        EndingRun(s', failed, r);
      }
    } else if SameRound(run) {
      GoingOnRun(s', failed, run);
    }
  }

  // ---------- a configuration event ----------

  /** The steps of stop() and resetTimer() that a goroutine at pc has still to take. */
  function Remaining(t: Stopper, pc: StopPc): seq<Action> {
    match pc
    case StopLock => [LockStop(t), SignalAndUnlock(t), ReadTimerCancel(t), CallTimerCancel(t), StoreCount(t)]
    case StopBody => [SignalAndUnlock(t), ReadTimerCancel(t), CallTimerCancel(t), StoreCount(t)]
    case ReadCancel => [ReadTimerCancel(t), CallTimerCancel(t), StoreCount(t)]
    case CallCancel(_) => [CallTimerCancel(t), StoreCount(t)]
    case StoreReset => [StoreCount(t)]
    case _ => []
  }

  predicate StopperStep(t: Stopper, a: Action) {
    a in [LockStop(t), SignalAndUnlock(t), ReadTimerCancel(t), CallTimerCancel(t), StoreCount(t)]
  }

  function StopperSteps(t: Stopper, run: seq<Action>): seq<Action> {
    if run == [] then [] else (if StopperStep(t, run[0]) then [run[0]] else []) + StopperSteps(t, run[1..])
  }

  /** The goroutine is not sent off again, nor does it end. */
  predicate NoNewEvent(run: seq<Action>) {
    forall i :: 0 <= i < |run| ==>
                  !run[i].ConfigEvent? && !run[i].WatcherError? && !run[i].Terminate? && !run[i].CloseCancel?
  }

  lemma StopperRests(s: State, t: Stopper, a: Action)
    requires Enabled(s, a) && !StopperStep(t, a)
    requires !a.ConfigEvent? && !a.WatcherError? && !a.Terminate? && !a.CloseCancel?
    ensures Remaining(t, Pc(Next(s, a), t)) == Remaining(t, Pc(s, t))
  {
    assert Pc(Next(s, a), t) == Pc(s, t);
  }

  lemma StopperActs(s: State, t: Stopper, a: Action)
    requires Enabled(s, a) && StopperStep(t, a)
    ensures Remaining(t, Pc(s, t)) == [a] + Remaining(t, Pc(Next(s, a), t))
  {
  }

  lemma StopperProgress(s: State, t: Stopper, a: Action)
    requires Enabled(s, a) && !a.ConfigEvent? && !a.WatcherError? && !a.Terminate? && !a.CloseCancel?
    ensures Remaining(t, Pc(s, t)) == (if StopperStep(t, a) then [a] else []) + Remaining(t, Pc(Next(s, a), t))
  {
    if StopperStep(t, a) {
      StopperActs(s, t, a);
    } else {
      StopperRests(s, t, a);
      assert [] + Remaining(t, Pc(s, t)) == Remaining(t, Pc(s, t));
    }
  }

  lemma StopperTail(t: Stopper, a: Action, rest: seq<Action>, last: seq<Action>, from: seq<Action>, all: seq<Action>)
    requires StopperSteps(t, rest) + last == from
    requires all == (if StopperStep(t, a) then [a] else []) + from
    ensures ((if StopperStep(t, a) then [a] else []) + StopperSteps(t, rest)) + last == all
  {
    ConcatAssociative(if StopperStep(t, a) then [a] else [], StopperSteps(t, rest), last);
  }

  lemma {:induction false} StopperRun(s: State, t: Stopper, run: seq<Action>)
    requires Feasible(s, run) && NoNewEvent(run)
    ensures StopperSteps(t, run) + Remaining(t, Pc(After(s, run), t)) == Remaining(t, Pc(s, t))
    decreases |run|
  {
    if run == [] {
      assert [] + Remaining(t, Pc(s, t)) == Remaining(t, Pc(s, t));
    } else {
      var a, rest := run[0], run[1..];
      var s' := Next(s, a);
      assert forall i :: 0 <= i < |rest| ==> rest[i] == run[i + 1];
      StopperProgress(s, t, a);
      StopperRun(s', t, rest);
      StopperTail(t, a, rest, Remaining(t, Pc(After(s', rest), t)), Remaining(t, Pc(s', t)), Remaining(t, Pc(s, t)));
    }
  }

  /** Until stop() has run nothing is known; from then on older processes have been told to stop. */
  ghost predicate Stopping(s: State, t: Stopper, n: nat) {
    n <= s.commands && (Pc(s, t).StopLock? || Pc(s, t).StopBody? || OlderAreSignalled(s, n))
  }

  lemma StoppingStep(s: State, t: Stopper, n: nat, a: Action)
    requires Inv(s) && Enabled(s, a) && Stopping(s, t, n)
    ensures Stopping(Next(s, a), t, n)
  {
    if OlderAreSignalled(s, n) {
      OlderAreSignalledStep(s, n, a);
    } else if a == SignalAndUnlock(t) {
      StopSignalsCurrentChild(s, t);
    }
  }

  lemma {:induction false} StoppingRun(s: State, t: Stopper, n: nat, run: seq<Action>)
    requires Inv(s) && Feasible(s, run) && Stopping(s, t, n)
    ensures Stopping(After(s, run), t, n)
    decreases |run|
  {
    if run != [] {
      InvStep(s, run[0]);
      StoppingStep(s, t, n, run[0]);
      StoppingRun(Next(s, run[0]), t, n, run[1..]);
    }
  }

  /**
   A configuration event is handled in full: when the watcher is ready for the next one, it has taken
   exactly the steps of stop() and resetTimer(), in order, and every process that was there at the event
   and still runs has received SIGTERM.
   */
  lemma ConfigEventIsHandled(s: State, run: seq<Action>)
    requires Reachable(s) && Enabled(s, ConfigEvent)
    requires Feasible(Next(s, ConfigEvent), run) && NoNewEvent(run)
    requires After(Next(s, ConfigEvent), run).watcher.Idle?
    ensures StopperSteps(ConfigWatcher, run)
            == [LockStop(ConfigWatcher), SignalAndUnlock(ConfigWatcher), ReadTimerCancel(ConfigWatcher),
                CallTimerCancel(ConfigWatcher), StoreCount(ConfigWatcher)]
    ensures var end := After(Next(s, ConfigEvent), run);
            forall c :: c in end.alive ==> c >= s.commands || c in end.signalled
  {
    var s' := Next(s, ConfigEvent);
    ReachableInv(s);
    InvStep(s, ConfigEvent);
    StopperRun(s', ConfigWatcher, run);
    StoppingRun(s', ConfigWatcher, s.commands, run);
  }

  /** So is the interrupt: once its handler is done, cancel is closed and it has stopped and reset likewise. */
  lemma InterruptIsHandled(s: State, run: seq<Action>)
    requires Reachable(s) && Enabled(s, CloseCancel)
    requires Feasible(Next(s, CloseCancel), run) && NoNewEvent(run)
    requires After(Next(s, CloseCancel), run).handler.Finished?
    ensures StopperSteps(Interrupt, run)
            == [LockStop(Interrupt), SignalAndUnlock(Interrupt), ReadTimerCancel(Interrupt),
                CallTimerCancel(Interrupt), StoreCount(Interrupt)]
    ensures var end := After(Next(s, CloseCancel), run);
            end.cancelClosed && forall c :: c in end.alive ==> c >= s.commands || c in end.signalled
  {
    var s' := Next(s, CloseCancel);
    ReachableInv(s);
    InvStep(s, CloseCancel);
    StopperRun(s', Interrupt, run);
    StoppingRun(s', Interrupt, s.commands, run);
    InvRun(s', run);
  }
}
