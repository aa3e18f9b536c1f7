/** How long the supervisor waits before the next start, over all interleavings. */
module SupervisorTiming {
  import opened Common
  import opened Backoff
  import opened Supervisor

  /** The time the restart loop spends blocked in its backoff. */
  function Waited(run: seq<Action>): int {
    if run == [] then 0 else (if run[0].Pass? then run[0].d else 0) + Waited(run[1..])
  }

  /** The loop does not get past its test of cancel, so start is not called again. */
  predicate BeforeNextStart(run: seq<Action>) {
    forall i :: 0 <= i < |run| ==> !run[i].TestCancel?
  }

  // ---------- resetting the timer ----------

  /** At most `budget` nanoseconds of backoff are left before the next call of start. */
  ghost predicate Prompt(s: State, budget: int) {
    match s.loop
    case Selecting(left) => s.ctx in s.cancelled || left <= budget
    case AddOne | StoreZero | Top | Returned => true
    case _ => s.restartTimes == 0 && budget >= SECOND
  }

  lemma PromptStep(s: State, a: Action, budget: int)
    requires CancelInv(s) && Enabled(s, a) && Prompt(s, budget) && !a.TestCancel?
    ensures Prompt(Next(s, a), budget - if a.Pass? then a.d else 0)
  {
    if a.Load? {
      DelayAsDocumented(0, s.outOfRange);
    }
  }

  lemma {:induction false} PromptRun(s: State, run: seq<Action>, budget: int)
    requires CancelInv(s) && Prompt(s, budget) && budget >= 0
    requires Feasible(s, run) && BeforeNextStart(run)
    ensures Waited(run) <= budget
    decreases |run|
  {
    if run != [] {
      var a := run[0];
      PromptStep(s, a, budget);
      CancelStep(s, a);
      assert forall i :: 0 <= i < |run[1..]| ==> run[1..][i] == run[i + 1];
      PromptRun(Next(s, a), run[1..], budget - if a.Pass? then a.d else 0);
    }
  }

  /** The loop sleeps under a live context and its timer has more than a second left. */
  predicate SleepsLong(s: State) {
    s.loop.Selecting? && s.ctx !in s.cancelled && s.loop.left > SECOND
  }

  /** No continuation is blocked in its backoff for more than a second before the next start. */
  ghost predicate StartsWithinASecond(s: State) {
    forall run :: Feasible(s, run) && BeforeNextStart(run) ==> Waited(run) <= SECOND
  }

  /**
   The state condition behind it: after the count has been stored as 0, only a loop that already
   sleeps on a longer timer under a live context waits longer.
   */
  lemma PromptIff(s: State)
    requires Reachable(s) && s.restartTimes == 0
    ensures StartsWithinASecond(s) <==> !SleepsLong(s)
  {
    ReachableInv(s);
    if SleepsLong(s) {
      FeasibleCons(s, Pass(s.loop.left), []);
      var run := [Pass(s.loop.left)] + [];
      assert Feasible(s, run) && BeforeNextStart(run) && run[1..] == [] && Waited(run) > SECOND;
    } else {
      assert Prompt(s, SECOND);
      forall run | Feasible(s, run) && BeforeNextStart(run) ensures Waited(run) <= SECOND {
        PromptRun(s, run, SECOND);
      }
    }
  }

  /** resetTimer() run without interruption: the next start is at most a second of backoff away. */
  lemma AtomicResetIsPrompt(s: State, t: Stopper)
    requires Reachable(s) && Enabled(s, ReadTimerCancel(t))
    ensures var s1 := Next(s, ReadTimerCancel(t));
            var s2 := Next(s1, CallTimerCancel(t));
            StartsWithinASecond(Next(s2, StoreCount(t)))
  {
    var s1 := Next(s, ReadTimerCancel(t));
    var s2 := Next(s1, CallTimerCancel(t));
    ReachableNext(s, ReadTimerCancel(t));
    ReachableNext(s1, CallTimerCancel(t));
    ReachableNext(s2, StoreCount(t));
    PromptIff(Next(s2, StoreCount(t)));
  }

  /** The context is replaced and, later on, the count is loaded. */
  predicate RenewedThenLoaded(run: seq<Action>) {
    run != [] && ((run[0].RenewContext? && !NoLoad(run[1..])) || RenewedThenLoaded(run[1..]))
  }

  predicate NoLoad(run: seq<Action>) {
    run == [] || (!run[0].Load? && NoLoad(run[1..]))
  }

  predicate NoStoreBy(t: Stopper, run: seq<Action>) {
    forall i :: 0 <= i < |run| ==> run[i] != StoreCount(t)
  }

  lemma {:induction false} LoadCountStays(s: State, run: seq<Action>)
    requires s.loop.LoadCount? && Feasible(s, run) && NoLoad(run)
    ensures After(s, run).loop.LoadCount?
    decreases |run|
  {
    if run != [] {
      LoadCountStays(Next(s, run[0]), run[1..]);
    }
  }

  /** `t` has read the cancel function of context c, and if it is past the call, c is cancelled. */
  ghost predicate Resetting(s: State, t: Stopper, c: nat) {
    Pc(s, t) == CallCancel(c) || (Pc(s, t).StoreReset? && c in s.cancelled)
  }

  lemma ResettingStep(s: State, t: Stopper, c: nat, a: Action)
    requires Resetting(s, t, c) && Enabled(s, a) && a != StoreCount(t)
    ensures Resetting(Next(s, a), t, c)
  {
  }

  lemma {:induction false} ResettingRun(s: State, t: Stopper, c: nat, mid: seq<Action>)
    requires Resetting(s, t, c) && Feasible(s, mid) && NoStoreBy(t, mid)
    ensures Resetting(After(s, mid), t, c)
    decreases |mid|
  {
    if mid != [] {
      assert forall i :: 0 <= i < |mid[1..]| ==> mid[1..][i] == mid[i + 1];
      ResettingStep(s, t, c, mid[0]);
      ResettingRun(Next(s, mid[0]), t, c, mid[1..]);
    }
  }

  /** Unless the loop replaced the context and then loaded the count, it still uses context c or has yet to load. */
  lemma {:induction false} SameContextOrUnloaded(s: State, c: nat, mid: seq<Action>)
    requires s.ctx == c && Feasible(s, mid) && !RenewedThenLoaded(mid)
    ensures After(s, mid).ctx == c || After(s, mid).loop.LoadCount?
    decreases |mid|
  {
    if mid != [] {
      if mid[0].RenewContext? {
        LoadCountStays(Next(s, mid[0]), mid[1..]);
      } else {
        SameContextOrUnloaded(Next(s, mid[0]), c, mid[1..]);
      }
    }
  }

  /**
   resetTimer() with any steps of the others between reading timerCancel, calling it and storing 0:
   the next start is still prompt unless the loop both replaced the context and loaded the count in
   between.
   */
  lemma InterruptedResetIsPrompt(s: State, t: Stopper, mid: seq<Action>)
    requires Reachable(s) && Enabled(s, ReadTimerCancel(t))
    requires Feasible(Next(s, ReadTimerCancel(t)), mid) && NoStoreBy(t, mid)
    requires Pc(After(Next(s, ReadTimerCancel(t)), mid), t).StoreReset?
    requires !RenewedThenLoaded(mid)
    ensures StartsWithinASecond(Next(After(Next(s, ReadTimerCancel(t)), mid), StoreCount(t)))
  {
    var s1 := Next(s, ReadTimerCancel(t));
    var s2 := After(s1, mid);
    ReachableNext(s, ReadTimerCancel(t));
    ReachableAfter(s1, mid);
    ReachableNext(s2, StoreCount(t));
    ResettingRun(s1, t, s.ctx, mid);
    SameContextOrUnloaded(s1, s.ctx, mid);
    PromptIff(Next(s2, StoreCount(t)));
  }

  /**
   Exactly which interruptions cost more than a second: the loop replaced the context and then loaded
   the count between the read and the store, and when 0 is stored it still sleeps on a longer timer.
   */
  lemma ResetIsPromptIff(s: State, t: Stopper, mid: seq<Action>)
    requires Reachable(s) && Enabled(s, ReadTimerCancel(t))
    requires Feasible(Next(s, ReadTimerCancel(t)), mid) && NoStoreBy(t, mid)
    requires Pc(After(Next(s, ReadTimerCancel(t)), mid), t).StoreReset?
    ensures var s2 := After(Next(s, ReadTimerCancel(t)), mid);
            StartsWithinASecond(Next(s2, StoreCount(t)))
            <==> !(RenewedThenLoaded(mid) && SleepsLong(s2))
  {
    var s2 := After(Next(s, ReadTimerCancel(t)), mid);
    ReachableNext(s, ReadTimerCancel(t));
    ReachableAfter(Next(s, ReadTimerCancel(t)), mid);
    ReachableNext(s2, StoreCount(t));
    PromptIff(Next(s2, StoreCount(t)));
    if !RenewedThenLoaded(mid) {
      InterruptedResetIsPrompt(s, t, mid);
    }
  }

  lemma {:induction false} ReachableAfter(s: State, run: seq<Action>)
    requires Reachable(s) && Feasible(s, run)
    ensures Reachable(After(s, run))
    decreases |run|
  {
    if run != [] {
      ReachableNext(s, run[0]);
      ReachableAfter(Next(s, run[0]), run[1..]);
    }
  }

  /**
   The exception is real: if the loop replaces the context and loads a count of n between the two
   halves of resetTimer(), it sleeps through the whole old delay.
   */
  lemma RacingResetSleeps(s: State, t: Stopper) returns (mid: seq<Action>)
    requires Reachable(s) && Enabled(s, ReadTimerCancel(t))
    requires s.loop.Renew? && 1 <= s.restartTimes <= 33
    ensures RenewedThenLoaded(mid) && NoStoreBy(t, mid)
    ensures Feasible(Next(s, ReadTimerCancel(t)), mid)
    ensures var s2 := After(Next(s, ReadTimerCancel(t)), mid);
            && Enabled(s2, StoreCount(t))
            && Next(s2, StoreCount(t)).loop == Selecting(DocumentedDelay(s.restartTimes))
            && !StartsWithinASecond(Next(s2, StoreCount(t)))
  {
    ReachableNext(s, ReadTimerCancel(t));
    var s1 := Next(s, ReadTimerCancel(t));
    ReachableInv(s1);
    mid := RaceRun(s1, t);
    ReachableAfter(s1, mid);
    DelayAfterRestart(s1.restartTimes, s1.outOfRange);
    SleepsAfterStore(After(s1, mid), t, DocumentedDelay(s.restartTimes));
  }

  lemma SleepsAfterStore(s: State, t: Stopper, left: int)
    requires Reachable(s) && Pc(s, t).StoreReset?
    requires s.loop == Selecting(left) && s.ctx !in s.cancelled && left > SECOND
    ensures Next(s, StoreCount(t)).loop == Selecting(left) && !StartsWithinASecond(Next(s, StoreCount(t)))
  {
    ReachableNext(s, StoreCount(t));
    PromptIff(Next(s, StoreCount(t)));
  }

  lemma RaceRun(s: State, t: Stopper) returns (mid: seq<Action>)
    requires s.loop.Renew? && Pc(s, t) == CallCancel(s.ctx) && CancelInv(s)
    ensures RenewedThenLoaded(mid) && NoStoreBy(t, mid)
    ensures Feasible(s, mid)
    ensures var s' := After(s, mid);
            && Pc(s', t).StoreReset? && s'.loop == Selecting(Delay(s.restartTimes, s.outOfRange))
            && s'.ctx !in s'.cancelled
  {
    var m1 := Next(s, RenewContext);
    var m2 := Next(m1, Load);
    FeasibleCons(m2, CallTimerCancel(t), []);
    FeasibleCons(m1, Load, [CallTimerCancel(t)] + []);
    FeasibleCons(s, RenewContext, [Load] + ([CallTimerCancel(t)] + []));
    mid := [RenewContext] + ([Load] + ([CallTimerCancel(t)] + []));
    assert mid[1..][0] == Load;
  }

  /** Such a state is reachable: two failed starts, and a configuration event during the second. */
  lemma RaceIsReachable(exitOnFailure: bool, outOfRange: int)
    ensures exists s :: Reachable(s) && Enabled(s, ReadTimerCancel(ConfigWatcher))
                        && s.loop.Renew? && s.restartTimes == 1
  {
    var s5 := FirstBackoff(exitOnFailure, outOfRange);
    var s6 := FailedStart(s5);
    ReachableNext(s6, ConfigEvent);
    var s7 := s6.(watcher := StopLock);
    ReachableNext(s7, LockStop(ConfigWatcher));
    var s8 := s7.(watcher := StopBody, holder := Some(ByStopper(ConfigWatcher)));
    ReachableNext(s8, SignalAndUnlock(ConfigWatcher));
    assert Enabled(Next(s8, SignalAndUnlock(ConfigWatcher)), ReadTimerCancel(ConfigWatcher));
  }

  /** The first start fails and its backoff of one second times out. */
  lemma FirstBackoff(exitOnFailure: bool, outOfRange: int) returns (s: State)
    ensures Reachable(s) && s == Init(exitOnFailure, outOfRange).(ctx := 1, restartTimes := 1)
  {
    var s0 := Init(exitOnFailure, outOfRange);
    ReachableInit(exitOnFailure, outOfRange);
    var s1 := FailedStart(s0);
    ReachableNext(s1, RenewContext);
    var s2 := s1.(loop := LoadCount, ctx := 1);
    ReachableNext(s2, Load);
    DelayAsDocumented(0, outOfRange);
    var s3 := s2.(loop := Selecting(SECOND));
    ReachableNext(s3, Pass(SECOND));
    var s4 := s2.(loop := Selecting(0));
    ReachableNext(s4, TimerFires);
    var s5 := s2.(loop := AddOne);
    ReachableNext(s5, CountRestart);
    s := s5.(loop := Top, restartTimes := 1);
  }

  /** From the top of the loop, a start whose preparation fails leads straight to the backoff. */
  lemma FailedStart(s: State) returns (s': State)
    requires Reachable(s) && s.loop.Top? && !s.cancelClosed && s.holder.None? && s.cmd.None?
    ensures Reachable(s') && s' == s.(loop := Renew)
  {
    ReachableNext(s, TestCancel);
    var s1 := s.(loop := StartLock);
    ReachableNext(s1, LockStart);
    var s2 := s.(loop := StartBody, holder := Some(RestartLoop));
    ReachableNext(s2, Prepare(false));
    var s3 := s2.(loop := StartUnlock);
    ReachableNext(s3, UnlockStart);
    var s4 := s.(loop := CheckCmd);
    ReachableNext(s4, LookAtCmd);
    s' := s.(loop := Renew);
  }

  // ---------- accumulated backoff ----------

  /** No reset and no child that lived ten minutes. */
  predicate Undisturbed(run: seq<Action>) {
    forall i :: 0 <= i < |run| ==>
                  !run[i].CallTimerCancel? && !run[i].StoreCount? && !(run[i].Reap? && run[i].lived >= 600 * SECOND)
  }

  function TimedOut(run: seq<Action>): nat {
    if run == [] then 0 else (if run[0].CountRestart? then 1 else 0) + TimedOut(run[1..])
  }

  /** k backoffs have timed out and `waited` was spent in them and in the one under way. */
  ghost predicate OnSchedule(s: State, waited: int, k: nat) {
    && s.restartTimes == k
    && !s.loop.StoreZero? && !s.loop.StoreLong?
    && s.cancelled == {}
    && waited == match s.loop
                 case Selecting(left) => TotalWait(k + 1, s.outOfRange) - (if left > 0 then left else 0)
                 case AddOne => TotalWait(k + 1, s.outOfRange)
                 case _ => TotalWait(k, s.outOfRange)
  }

  predicate OnTimer(a: Action) {
    a.Load? || a.Pass? || a.TimerFires? || a.CountRestart?
  }

  lemma OnScheduleTimer(s: State, a: Action, waited: int, k: nat)
    requires OnSchedule(s, waited, k) && Enabled(s, a) && OnTimer(a) && k + 1 < TWO_31
    ensures OnSchedule(Next(s, a), waited + (if a.Pass? then a.d else 0), k + (if a.CountRestart? then 1 else 0))
  {
  }

  lemma OnScheduleLoop(s: State, a: Action, waited: int, k: nat)
    requires OnSchedule(s, waited, k) && Enabled(s, a) && OfLoop(a) && !OnTimer(a)
    requires !(a.Reap? && a.lived >= RESET_TIME)
    ensures OnSchedule(Next(s, a), waited, k)
  {
  }

  /** The steps of others leave the loop where it is. */
  lemma OnScheduleOther(s: State, a: Action, waited: int, k: nat)
    requires OnSchedule(s, waited, k) && Enabled(s, a) && !OfLoop(a)
    requires !a.CallTimerCancel? && !a.StoreCount?
    ensures OnSchedule(Next(s, a), waited, k)
  {
    var s' := Next(s, a);
    assert s'.loop == s.loop && s'.restartTimes == s.restartTimes;
    assert s'.cancelled == s.cancelled && s'.outOfRange == s.outOfRange;
  }

  lemma OnScheduleStep(s: State, a: Action, waited: int, k: nat)
    requires OnSchedule(s, waited, k) && Enabled(s, a) && Undisturbed([a]) && k + 1 < TWO_31
    ensures OnSchedule(Next(s, a), waited + (if a.Pass? then a.d else 0), k + (if a.CountRestart? then 1 else 0))
  {
    assert [a][0] == a;
    if OnTimer(a) {
      OnScheduleTimer(s, a, waited, k);
    } else if OfLoop(a) {
      OnScheduleLoop(s, a, waited, k);
    } else {
      OnScheduleOther(s, a, waited, k);
    }
  }

  lemma UndisturbedParts(run: seq<Action>)
    requires run != [] && Undisturbed(run)
    ensures Undisturbed([run[0]]) && Undisturbed(run[1..])
  {
    assert forall i :: 0 <= i < |run[1..]| ==> run[1..][i] == run[i + 1];
  }

  lemma {:induction false} OnScheduleRun(s: State, run: seq<Action>, waited: int, k: nat)
    requires OnSchedule(s, waited, k) && Feasible(s, run) && Undisturbed(run) && k + TimedOut(run) + 1 < TWO_31
    ensures OnSchedule(After(s, run), waited + Waited(run), k + TimedOut(run))
    decreases |run|
  {
    if run != [] {
      var a, rest := run[0], run[1..];
      UndisturbedParts(run);
      OnScheduleStep(s, a, waited, k);
      OnScheduleRun(Next(s, a), rest, waited + (if a.Pass? then a.d else 0), k + (if a.CountRestart? then 1 else 0));
    }
  }

  /**
   In every undisturbed run the backoffs add up as documented: 2^k - 1 seconds after k of them while
   below the cap, five minutes for each one after the ninth, up to the 34th.
   */
  lemma BackoffsAddUp(exitOnFailure: bool, outOfRange: int, run: seq<Action>)
    requires Feasible(Init(exitOnFailure, outOfRange), run) && Undisturbed(run)
    requires After(Init(exitOnFailure, outOfRange), run).loop.Top?
    requires TimedOut(run) <= 34
    ensures var k := TimedOut(run);
            Waited(run) == SECOND * if k <= 9 then Pow2(k) - 1 else 511 + 300 * (k - 9)
  {
    var s := Init(exitOnFailure, outOfRange);
    OnScheduleRun(s, run, 0, 0);
    OutOfRangeConstant(s, run);
    TotalWaitClosedForm(TimedOut(run), outOfRange);
  }

  lemma {:induction false} OutOfRangeConstant(s: State, run: seq<Action>)
    requires Feasible(s, run)
    ensures After(s, run).outOfRange == s.outOfRange
    decreases |run|
  {
    if run != [] {
      OutOfRangeConstant(Next(s, run[0]), run[1..]);
    }
  }

  /** The 35th backoff of an undisturbed run does not wait at all: its delay wrapped to a negative number. */
  lemma ThirtyFifthBackoffIsImmediate(exitOnFailure: bool, outOfRange: int, run: seq<Action>)
    requires Feasible(Init(exitOnFailure, outOfRange), run) && Undisturbed(run)
    requires After(Init(exitOnFailure, outOfRange), run).loop.Top?
    requires TimedOut(run) == 35
    ensures Waited(run) == 8011 * SECOND
  {
    var s := Init(exitOnFailure, outOfRange);
    OnScheduleRun(s, run, 0, 0);
    OutOfRangeConstant(s, run);
    TotalWaitStalls(outOfRange);
  }

  // ---------- such runs exist ----------

  /** An undisturbed run from s to s' in which n backoffs time out. */
  ghost predicate Leads(s: State, run: seq<Action>, s': State, n: nat) {
    Feasible(s, run) && After(s, run) == s' && Undisturbed(run) && TimedOut(run) == n
  }

  lemma LeadsCons(s: State, a: Action, run: seq<Action>, s': State, n: nat)
    requires Enabled(s, a) && Undisturbed([a]) && Leads(Next(s, a), run, s', n)
    ensures Leads(s, [a] + run, s', n + if a.CountRestart? then 1 else 0)
  {
    FeasibleCons(s, a, run);
    assert ([a] + run)[1..] == run && [a][0] == a;
  }

  lemma {:induction false} LeadsConcat(s: State, run: seq<Action>, mid: State, n: nat,
                                       more: seq<Action>, s': State, m: nat)
    requires Leads(s, run, mid, n) && Leads(mid, more, s', m)
    ensures Leads(s, run + more, s', n + m)
    decreases |run|
  {
    if run == [] {
      assert run + more == more;
    } else {
      var a, rest := run[0], run[1..];
      UndisturbedParts(run);
      LeadsConcat(Next(s, a), rest, mid, TimedOut(rest), more, s', m);
      LeadsCons(s, a, rest + more, s', TimedOut(rest) + m);
      assert [a] + (rest + more) == run + more;
    }
  }

  /** A start whose preparation fails. */
  lemma StartFails(s: State) returns (run: seq<Action>)
    requires s.loop.Top? && !s.cancelClosed && s.holder.None? && s.cmd.None?
    ensures Leads(s, run, s.(loop := Renew), 0)
  {
    var end := s.(loop := Renew);
    run := [];
    LeadsCons(s.(loop := CheckCmd), LookAtCmd, run, end, 0);
    run := [LookAtCmd] + run;
    LeadsCons(s.(loop := StartUnlock, holder := Some(RestartLoop)), UnlockStart, run, end, 0);
    run := [UnlockStart] + run;
    LeadsCons(s.(loop := StartBody, holder := Some(RestartLoop)), Prepare(false), run, end, 0);
    run := [Prepare(false)] + run;
    LeadsCons(s.(loop := StartLock), LockStart, run, end, 0);
    run := [LockStart] + run;
    LeadsCons(s, TestCancel, run, end, 0);
    run := [TestCancel] + run;
  }

  /** A backoff that times out, from the moment it blocks. */
  lemma SleepTimesOut(s: State) returns (run: seq<Action>)
    requires s.loop.Selecting? && s.cancelled == {} && 0 <= s.restartTimes < TWO_31 - 1
    ensures Leads(s, run, s.(loop := Top, restartTimes := s.restartTimes + 1), 1)
  {
    var end := s.(loop := Top, restartTimes := s.restartTimes + 1);
    var d := s.loop.left;
    run := [];
    LeadsCons(s.(loop := AddOne), CountRestart, run, end, 0);
    run := [CountRestart] + run;
    LeadsCons(s.(loop := Selecting(if d > 0 then 0 else d)), TimerFires, run, end, 1);
    run := [TimerFires] + run;
    if d > 0 {
      LeadsCons(s, Pass(d), run, end, 1);
      run := [Pass(d)] + run;
    }
  }

  lemma BackoffTimesOut(s: State) returns (run: seq<Action>)
    requires s.loop.Renew? && s.cancelled == {} && 0 <= s.restartTimes < TWO_31 - 1
    ensures Leads(s, run, s.(loop := Top, ctx := s.ctx + 1, restartTimes := s.restartTimes + 1), 1)
  {
    var s1 := s.(loop := LoadCount, ctx := s.ctx + 1);
    run := SleepTimesOut(Next(s1, Load));
    var end := s.(loop := Top, ctx := s.ctx + 1, restartTimes := s.restartTimes + 1);
    LeadsCons(s1, Load, run, end, 1);
    LeadsCons(s, RenewContext, [Load] + run, end, 1);
    run := [RenewContext] + ([Load] + run);
  }

  /** For every k there is an undisturbed run with k timed-out backoffs: every start fails. */
  lemma {:induction false} EveryCountIsReached(exitOnFailure: bool, outOfRange: int, k: nat) returns (run: seq<Action>)
    requires k < TWO_31
    ensures var s := Init(exitOnFailure, outOfRange);
            && Feasible(s, run) && Undisturbed(run) && TimedOut(run) == k
            && After(s, run) == s.(ctx := k, restartTimes := k)
  {
    run := [];
    if k > 0 {
      var s := Init(exitOnFailure, outOfRange);
      var before := EveryCountIsReached(exitOnFailure, outOfRange, k - 1);
      var s1 := s.(ctx := k - 1, restartTimes := k - 1);
      var failing := StartFails(s1);
      var waiting := BackoffTimesOut(s1.(loop := Renew));
      LeadsConcat(s1, failing, s1.(loop := Renew), 0, waiting, s.(ctx := k, restartTimes := k), 1);
      LeadsConcat(s, before, s1, k - 1, failing + waiting, s.(ctx := k, restartTimes := k), 1);
      run := before + (failing + waiting);
    }
  }
}
