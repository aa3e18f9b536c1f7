# Verified model of the Fluent Bit operator

A Dafny model of the parts of the Fluent Bit operator that carry state, concurrency or text formats,
with proofs about them. `dafny verify dfyconfig.toml` checks the whole project.

## What is modelled

**Polling file watcher** (`Snapshots.dfy`, `WatchSet.dfy`, `FilePoller.dfy`). The watcher keeps two recordings of a path,
clears and refills one, compares them by walking only the larger directory listing, and swaps them.
Recordings and their entry tables are heap objects, so the proofs have to show that refilling one never
disturbs the other. The file system is any sequence of answers, errors included. The comparison is not a
complete diff; what it reports, what it misses and why it still never overlooks that *something* changed
is proved. The watch loop runs while other goroutines call Add, Remove and Close and while other watches send
on the same channels. Ranging over a Go map is modelled as picking keys in any order.

**Fluent Bit supervisor** (`Backoff.dfy`, `Supervisor.dfy`, `SupervisorSafety.dfy`, `SupervisorTiming.dfy`,
`SupervisorRuns.dfy`, `Watcher.dfy`). The restart loop, the config watcher and the interrupt handler are a
transition system with one step per lock operation, shared access or blocking call; all theorems are about every
interleaving. `Watcher.dfy` holds the code itself, over the shared variables, with arbitrary steps of the other
goroutines before each of its own; a log of the steps taken ties it to the transition system. The delay is
computed in wrapping 64-bit arithmetic.

**FluentBit reconciler** (`Finalizers.dfy`, `Cluster.dfy`, `ApiServer.dfy`, `FluentBitReconciler.dfy`,
`Deployment.dfy`). The reconciler's calls run against an API server on which users act before every call and on
which every call may fail, before or after it took effect. A log records every step, a user's or a write of the
reconciler's; the invariant is proved by induction over such logs, so it holds in every state in between, not
only between reconciles.

**FluentBitConfig reconciler and rendering** (`Sorting.dfy`, `Params.dfy`, `Sections.dfy`,
`ConfigRender.dfy`, `PluginLists.dfy`, `SectionLaws.dfy`, `MainConfig.dfy`, `Scripts.dfy`, `SecretStore.dfy`,
`ConfigReconciler.dfy`). Key-value lists, the four `Load` methods, the main configuration, the Lua scripts and
the loop that stores one Secret per config. What others edit before and between the calls is an arbitrary part of
each config's answers, so it determines the store a reconcile leaves. `sort.Sort` is any unstable sort: only its
contract is used. A plugin's `Params` is an arbitrary result.

## Where the code does not do what it says

- `pkg/filenotify/poller.go:77` says that `Remove` stops the watch. It does not: a watch ends only once the
  poller is closed (`WatchSet.WatchesSurviveUntilClosed`, `FilePoller.WatchAfterRemove`), and an open poller
  has as many watches of a name as it should if and only if the name was never removed
  (`WatchSet.OneWatchPerNameIff`). Adding, removing and adding a name leaves two.
- `pkg/filenotify/poller.go:110` says that `Close` removes the watches. It leaves the set as it was, because it
  marks the poller closed first and `remove` then refuses (`FilePoller.Poller.Close`).
- `cmd/fluent-bit-watcher/main.go:100-101` promises an exponential delay capped at five minutes. That holds
  for exactly the restart counts 0 to 33 and eight later ones; the 35th consecutive backoff does not wait at
  all (`Backoff.DelayDocumentedIff`, `SupervisorTiming.ThirtyFifthBackoffIsImmediate`), and every count is
  reached (`SupervisorTiming.EveryCountIsReached`).
- The interrupt handler is there to stop the child. If the restart loop has passed its test of `cancel` and
  has not locked the mutex yet, it starts a child afterwards and waits for it although nobody has signalled
  it (`SupervisorSafety.ShutdownReachesChildIff`).
- Resetting the timer is several steps; a restart loop that renews the context and loads the count in between
  sleeps through the whole old delay (`SupervisorTiming.RacingResetSleeps`). `SupervisorTiming.ResetIsPromptIff`
  says exactly which interleavings cost more than a second.
- A successful CreateOrPatch of the Secret need not leave it as rendered: the patch is computed against what was
  read, so an edit between the read and the patch survives in the keys that were right when read
  (`SecretStore.RightAfterVisitIff`, `SecretStore.SuccessfulWriteCanLeaveSecretWrong`).
- Two selected scripts under one key make the Secret depend on how the sort breaks ties
  (`Scripts.DataDeterminedIff`).

## Model

| member | source | states |
|---|---|---|
| Snapshots.PollFailsIff | pkg/filenotify/poller.go:194-234 | a poll fails with exactly the error of a call it makes that fails otherwise than with "does not exist" |
| Snapshots.RecordedHolds | pkg/filenotify/poller.go:194-234 | the path's information unless it could not be had; the entries of a directory read to the end, the last one of a name counting, and none otherwise |
| Snapshots.SilentIffUnchanged | pkg/filenotify/poller.go:283-303 | a poll of a directory is silent if and only if both listings have the same names and each common name is a directory on one side or has equal information, although only the larger side is walked |
| Snapshots.EntryEventIff | pkg/filenotify/poller.go:283-330 | for each of Create, Remove, Chmod and Write, the exact condition on the two listings for an entry to be reported so |
| Snapshots.RootEventIff | pkg/filenotify/poller.go:272-281 | the same for the watched path itself; when it is reported, nothing else is |
| Snapshots.WakesSupervisorIff | cmd/fluent-bit-watcher/main.go:185-187 | a poll wakes the supervisor if and only if the directory has strictly more entries or a common regular file was rewritten with equal mode |
| Snapshots.ReportsAllButMissed | pkg/filenotify/poller.go:283-330 | a change of a name is reported, oriented old to new, unless only the smaller side has the name; those names are never reported |
| Snapshots.ReplayOnePoll | pkg/filenotify/poller.go:283-305 | applying one poll's Create and Remove events in any order gives the union of the names if the directory grew and the intersection otherwise |
| Snapshots.ReplayExactIffNested | pkg/filenotify/poller.go:283-305 | that replay gives the new names if and only if one snapshot's names contain the other's |
| Snapshots.ReplayRun | pkg/filenotify/poller.go:147-175 | over a whole run of nested listings the replay of all batches gives the current names |
| Snapshots.RecoveryCreates | pkg/filenotify/poller.go:159-166 | the first successful poll after a failed one that lists a non-empty directory sends a Create; if the failed poll had still seen the directory, one for every entry and no other |
| WatchSet.WatchesSurviveUntilClosed | pkg/filenotify/poller.go:77-95 | through any sequence of calls, Remove included, no watch ends while the poller is open |
| WatchSet.OneWatchPerNameIff | pkg/filenotify/poller.go:49-95 | an open poller has one live watch of each name it lists, and one more for every removal of the name; so the count is right if and only if the name was never removed |
| WatchSet.AddedTwiceIsWatchedTwice | pkg/filenotify/poller.go:49-95 | adding, removing and adding a name leaves two live watches of it |
| WatchSet.ClosedIsFrozen | pkg/filenotify/poller.go:111-125 | after Close no call changes the set of watches or starts a watch |
| FilePoller.Recording.Clear | pkg/filenotify/poller.go:185-192 | both parts are empty afterwards, and the table object is the same |
| FilePoller.Recording.Record | pkg/filenotify/poller.go:194-234 | every outcome, errors included, leaves exactly the snapshot and error that the file system's answers determine |
| FilePoller.ItemToWatch.CheckForChanges | pkg/filenotify/poller.go:259-281 | the left recording keeps identity and contents while the right one is refilled; the events list, each once, what changed between the two |
| FilePoller.ItemToWatch.CompareEntries | pkg/filenotify/poller.go:283-305 | whatever the map order, the events list each reported change exactly once |
| FilePoller.Poller.Add | pkg/filenotify/poller.go:49-75 | succeeds exactly for an open poller, an existing readable path and a name not watched yet, and then starts one more watch; otherwise nothing changes |
| FilePoller.Poller.Remove | pkg/filenotify/poller.go:78-95 | the two errors and the only effect, on the set of watches: no watch is stopped |
| FilePoller.Poller.Close | pkg/filenotify/poller.go:111-125 | closes the poller and leaves the set of watches unchanged |
| FilePoller.Poller.SendEvent | pkg/filenotify/poller.go:128-135 | the event is delivered once, or refused, which happens only once the poller is closed; the sender itself closes nothing |
| FilePoller.Poller.SendErr | pkg/filenotify/poller.go:138-145 | the error is delivered once, or refused, which happens only once the poller is closed; the sender itself closes nothing |
| FilePoller.PollErrorsAre | pkg/filenotify/poller.go:159-164 | the errors to send are those of the failed polls, one each, in order |
| FilePoller.Poller.Tick | pkg/filenotify/poller.go:159-172 | one tick compares with the previous snapshot, leaves the new one to compare with, and is cut short only if others have closed the poller |
| FilePoller.Poller.Watch | pkg/filenotify/poller.go:148-175 | over any number of ticks and whatever others call meanwhile, batch k is exactly the difference of snapshots k-1 and k and the receiver gets a prefix of the batches; if nobody else closes the poller the watch never ends and everything is delivered, and by itself it changes nothing but its own return |
| FilePoller.WatchAfterRemove | pkg/filenotify/poller.go:77-95 | everything that changes after Remove is still reported as long as nobody closes the poller |
| Backoff.DelayAsDocumented | cmd/fluent-bit-watcher/main.go:291-294 | the delay is min(2^n, 300) seconds for n up to 33 |
| Backoff.DelayMonotone | cmd/fluent-bit-watcher/main.go:291-294 | for those counts it never shrinks and stays between one second and the cap |
| Backoff.DelayDocumentedIff | cmd/fluent-bit-watcher/main.go:291-294 | among all counts below 63 exactly 0 to 33 and eight later ones get the documented delay; the others do not wait |
| Backoff.DelayOutsideRange | cmd/fluent-bit-watcher/main.go:291-294 | a wrapped-around count does not wait; from 63 on the platform's conversion decides |
| Backoff.TotalWaitClosedForm | cmd/fluent-bit-watcher/main.go:100-101 | k backoffs add up to 2^k - 1 seconds up to the ninth and five minutes for each later one up to the 34th |
| Supervisor.InvStep | cmd/fluent-bit-watcher/main.go:189-339 | every step of every goroutine keeps mutual exclusion, the state of cmd and the child accounting |
| SupervisorSafety.AtMostOneChild | cmd/fluent-bit-watcher/main.go:189-287 | in every reachable state starts exceed reaps by at most one and the only running process is the command the loop waits for |
| SupervisorSafety.UnlockedWaitIsSafe | cmd/fluent-bit-watcher/main.go:266-275 | while the wait without the mutex blocks, cmd stays the command that was checked under the mutex, whatever others do |
| SupervisorSafety.StopSignalsCurrentChild | cmd/fluent-bit-watcher/main.go:319-334 | stop signals the running child and no other process |
| SupervisorSafety.NoStaleChildSurvives | cmd/fluent-bit-watcher/main.go:140-145 | in every continuation after stop a running process was created later or has been signalled |
| SupervisorSafety.AtMostOneStartAfterClose | cmd/fluent-bit-watcher/main.go:82-109 | after cancel is closed at most one start runs, and only if the loop had passed its test |
| SupervisorSafety.ShutdownReachesChildIff | cmd/fluent-bit-watcher/main.go:105-109 | shutdown signals every child there will ever be if and only if the loop is not waiting to lock the mutex in start |
| SupervisorSafety.ShutdownWindowIsReachable | cmd/fluent-bit-watcher/main.go:82-109 | the state in which shutdown misses a child is reachable |
| SupervisorTiming.PromptRun | cmd/fluent-bit-watcher/main.go:289-317 | the bound on the time still to be spent blocked in the backoff is kept by every step and bounds it in every continuation |
| SupervisorTiming.PromptIff | cmd/fluent-bit-watcher/main.go:289-317 | with the count at 0, in every continuation the time blocked in the backoff before the next start is at most a second, if and only if the loop does not sleep on a longer timer under a live context |
| SupervisorTiming.AtomicResetIsPrompt | cmd/fluent-bit-watcher/main.go:336-339 | after an uninterrupted resetTimer every continuation is blocked at most a second before the next start |
| SupervisorTiming.InterruptedResetIsPrompt | cmd/fluent-bit-watcher/main.go:336-339 | the same with any steps in between, unless the loop renewed the context and then loaded the count |
| SupervisorTiming.ResetIsPromptIff | cmd/fluent-bit-watcher/main.go:336-339 | for any steps in between, exactly when the reset keeps that promise: unless the loop renewed the context, then loaded, and still sleeps on a longer live timer |
| SupervisorTiming.RacingResetSleeps | cmd/fluent-bit-watcher/main.go:98-102 | in that exception the loop sleeps through the delay of the old count |
| SupervisorTiming.RaceIsReachable | cmd/fluent-bit-watcher/main.go:82-102 | a state from which that happens is reachable |
| SupervisorTiming.BackoffsAddUp | cmd/fluent-bit-watcher/main.go:279-316 | in every run without reset and without a long-lived child the time blocked in k backoffs is the closed form, k up to 34 |
| SupervisorTiming.EveryCountIsReached | cmd/fluent-bit-watcher/main.go:80-104 | for every k there is such a run with k timed-out backoffs, so the counts with a wrong delay are reached |
| SupervisorTiming.ThirtyFifthBackoffIsImmediate | cmd/fluent-bit-watcher/main.go:291-294 | the 35th backoff of such a run adds nothing |
| Watcher.Process.Start | cmd/fluent-bit-watcher/main.go:189-264 | the code of start takes only machine steps, under any interference, and gives the mutex back |
| Watcher.Process.Wait | cmd/fluent-bit-watcher/main.go:266-287 | the same for wait; the command is forgotten and a failure ends the loop exactly when configured |
| Watcher.Process.Backoff | cmd/fluent-bit-watcher/main.go:289-317 | the same for backoff, whichever of timer and context wins |
| Watcher.Process.RunLoop | cmd/fluent-bit-watcher/main.go:80-104 | the same for the given number of rounds of the restart loop, unless it returns |
| Watcher.Process.Stop | cmd/fluent-bit-watcher/main.go:319-334 | the code of stop takes exactly the steps that lock, signal and unlock, under any interference, for both goroutines that call it |
| Watcher.Process.ResetTimer | cmd/fluent-bit-watcher/main.go:336-339 | resetTimer takes exactly three steps: read the variable, call the function, store 0 |
| Watcher.Process.InterruptLoop | cmd/fluent-bit-watcher/main.go:105-109 | the interrupt function closes cancel, then takes exactly the steps of stop and resetTimer |
| Watcher.Process.ConfigChanged | cmd/fluent-bit-watcher/main.go:131-146 | the reaction to a configuration event takes exactly the steps of stop and resetTimer |
| Watcher.CodeStaysReachable | cmd/fluent-bit-watcher/main.go:80-157 | the variables always hold a reachable state of the machine |
| SupervisorRuns.LongLivedChildForgets | cmd/fluent-bit-watcher/main.go:279-281 | after a child that lived ten minutes the next backoff is one second, whatever the count was, in every run |
| SupervisorRuns.ShortLivedChildKeepsCount | cmd/fluent-bit-watcher/main.go:279-281 | one that lived shorter leaves the count as it was for the next backoff |
| SupervisorRuns.CancelledBackoffForgets | cmd/fluent-bit-watcher/main.go:304-309 | so it is after a backoff cut short by its context |
| SupervisorRuns.CountIsKept | cmd/fluent-bit-watcher/main.go:266-317 | nothing but a reset, a long-lived child and the end of a backoff changes the count |
| SupervisorRuns.FailedChildEndsLoop | cmd/fluent-bit-watcher/main.go:91-96 | with exit-on-failure no run starts a child after a failed one; otherwise only the cancel channel ends the loop |
| SupervisorRuns.ConfigEventIsHandled | cmd/fluent-bit-watcher/main.go:131-146 | in every run, when the watcher is ready again it has taken exactly the steps of stop and resetTimer in order, and every process that was there at the event has been signalled or is gone |
| SupervisorRuns.InterruptIsHandled | cmd/fluent-bit-watcher/main.go:105-109 | the same for the interrupt handler, with cancel closed |
| Finalizers.ContainString | pkg/utils/utils.go:5-12 | true exactly for members |
| Finalizers.RemoveString | pkg/utils/utils.go:14-22 | drops every copy of the string |
| Finalizers.WithoutCounts | pkg/utils/utils.go:14-22 | no copy of the string is left, every other string occurs as often as before |
| Finalizers.WithoutConcat | pkg/utils/utils.go:14-22 | what stays keeps its order |
| Finalizers.AddThenRemove | api/fluentbitoperator/v1alpha2/fluentbit_types.go:91-99 | adding and removing the finalizer restores the list |
| Cluster.UserStepKeeps | controllers/fluentbit_controller.go:146-168 | no user step breaks the invariant or what a running reconcile relies on |
| ApiServer.StoreKeepsInv | controllers/fluentbit_controller_finalizer.go:9-23 | storing a FluentBit with the finalizer added, or removed once no created child is left, keeps the invariant; a stale copy is refused |
| ApiServer.StoreGuarantee | controllers/fluentbit_controller_finalizer.go:9-23 | such a store changes only the finalizer and the version, and foreign finalizers keep order and count |
| ApiServer.OtherKeepsInv | controllers/fluentbit_controller.go:97-116 | creating children of an anchored FluentBit and removing children keeps the invariant |
| ApiServer.HistoryKeepsInv | controllers/fluentbit_controller.go:52-119 | a history of user steps and allowed writes that starts in the invariant never leaves it, and every write stays within its guarantee |
| ApiServer.Server.Users | controllers/fluentbit_controller.go:52-119 | any number of user steps is logged and leaves an anchored FluentBit anchored |
| ApiServer.Server.Write | controllers/fluentbit_controller.go:97-116 | a write that may be lost or lose its answer is logged, and issued only where it is allowed; on a calm server it has exactly its effect and its error |
| FluentBitReconciler.Instance.HasFinalizer | api/fluentbitoperator/v1alpha2/fluentbit_types.go:87-89 | true exactly when the name is among the finalizers |
| FluentBitReconciler.Instance.AddFinalizer | api/fluentbitoperator/v1alpha2/fluentbit_types.go:92-94 | appends the name and changes nothing else |
| FluentBitReconciler.Instance.RemoveFinalizer | api/fluentbitoperator/v1alpha2/fluentbit_types.go:97-99 | removes every copy of the name and changes nothing else |
| FluentBitReconciler.Reconciler.Reconcile | controllers/fluentbit_controller.go:52-119 | under any interference and failures every step logged is a user's or a write of this worker where it is allowed, and success is not reported if a call failed; on a calm server the result is the reconciled state, requeued exactly when only the Secret is missing |
| FluentBitReconciler.Reconciler.AddFinalizer | controllers/fluentbit_controller_finalizer.go:9-12 | a legal write of the copy read; on a calm server the finalizer is appended |
| FluentBitReconciler.Reconciler.HandleFinalizer | controllers/fluentbit_controller_finalizer.go:14-23 | the finalizer goes only after both children are known to be gone |
| FluentBitReconciler.Reconciler.Delete | controllers/fluentbit_controller.go:146-168 | success means no created child is left, even with users acting in between |
| FluentBitReconciler.Reconciler.CreateOrPatch | controllers/fluentbit_controller.go:107-116 | on a calm server the DaemonSet has labels, specification and owner of the FluentBit, other metadata kept |
| FluentBitReconciler.OnePass | controllers/fluentbit_controller.go:70-118 | one pass anchors a live FluentBit and, if it was anchored, deploys it |
| FluentBitReconciler.SettledIffConverged | controllers/fluentbit_controller.go:70-118 | a pass changes nothing if and only if everything the FluentBit asks for is in place |
| FluentBitReconciler.TwoPassesConverge | controllers/fluentbit_controller.go:70-118 | from any state the invariant allows two failure-free passes converge and later ones change nothing |
| FluentBitReconciler.DeletionCompletes | controllers/fluentbit_controller.go:63-68 | a failure-free pass over a FluentBit being deleted leaves neither children nor the finalizer; foreign finalizers alone keep the object |
| Deployment.DeployedLogPath | controllers/fluentbit_controller.go:121-129 | the DaemonSet's log path is the FluentBit's own, else the operator's, else Docker's |
| Deployment.OwnLogPathDecides | controllers/fluentbit_controller.go:121-129 | the operator's setting does not matter to a FluentBit with a path of its own |
| Deployment.DeployedDaemonSet | controllers/fluentbit_controller.go:131-144 | the DaemonSet has the FluentBit's name, labels and specification and is owned by it; annotations stay |
| Deployment.DeployedRbac | controllers/fluentbit_controller.go:79-104 | a new ServiceAccount is owned by the FluentBit, an old one stays; role and binding of the operator's scope are there and no others are added |
| Deployment.OtherwiseUndeployed | controllers/fluentbit_controller.go:53-77 | without the finalizer a pass only appends it; without the Secret, and without anything to do, it changes nothing |
| Deployment.OthersUntouched | controllers/fluentbit_controller.go:52-119 | a pass leaves Secrets and the objects of other FluentBits alone |
| FluentBitReconciler.Operate | controllers/fluentbit_controller.go:52-119 | from an empty cluster any sequence of reconciles, users and failures is logged as a history of such steps |
| FluentBitReconciler.ChildrenNeverOutliveFluentBit | controllers/fluentbit_controller.go:146-168 | in every state of every history of user steps and allowed writes, a created child exists only while its FluentBit exists with the finalizer exactly once |
| FluentBitReconciler.ForeignFinalizersUntouched | controllers/fluentbit_controller_finalizer.go:9-23 | between user steps foreign finalizers keep order and count, and uid and spec stay, however often the controller writes |
| Sorting.Sort | api/fluentbitoperator/v1alpha2/filter_types.go:85-96 | some permutation in alphabetical order of the names, ties broken arbitrarily |
| Sorting.LessEqIffAlphabetical | api/fluentbitoperator/v1alpha2/filter_types.go:85-91 | the order of strings: a prefix, or the smaller character where the two first differ |
| Sorting.SortsAgree | api/fluentbitoperator/v1alpha2/filter_types.go:85-96 | with distinct names any two sorts of any two orders agree |
| Params.KVs.Insert | api/fluentbitoperator/v1alpha2/plugins/params/kvs.go:23-26 | one pair is appended |
| Params.KVs.InsertStringMap | api/fluentbitoperator/v1alpha2/plugins/params/kvs.go:28-45 | the pairs of the map are appended in the only sorted key order, transformed if asked, whatever the map order |
| Params.SortedKeysUnique | api/fluentbitoperator/v1alpha2/plugins/params/kvs.go:35-37 | a set of keys has one sorted order |
| Params.SortedKeysAlphabetical | api/fluentbitoperator/v1alpha2/plugins/params/kvs.go:35 | that order is alphabetical |
| Params.MapPairsAre | api/fluentbitoperator/v1alpha2/plugins/params/kvs.go:37-43 | each key contributes itself with its value, or what the transformation makes of them |
| Params.KVs.Merge | api/fluentbitoperator/v1alpha2/plugins/params/kvs.go:47-50 | the pairs of the tail follow, also when a list is merged with itself |
| Params.KVs.String | api/fluentbitoperator/v1alpha2/plugins/params/kvs.go:52-62 | one line per pair |
| SectionLaws.LineIs | api/fluentbitoperator/v1alpha2/plugins/params/kvs.go:59 | a line is four spaces, the key, four spaces, the value |
| Params.RenderConcat | api/fluentbitoperator/v1alpha2/plugins/params/kvs.go:47-62 | the text of a merge is the concatenation of the texts |
| Params.RoundTripIff | api/fluentbitoperator/v1alpha2/plugins/params/kvs.go:52-62 | reading the text gives the same pairs in order if and only if no key holds a space or newline and no value a newline |
| Params.ParseIff | api/fluentbitoperator/v1alpha2/plugins/params/kvs.go:52-62 | reading and writing are inverse to each other |
| ConfigRender.MergeInput | api/fluentbitoperator/v1alpha2/input_types.go:79-95 | a plugin that is set adds its section, an unset one nothing, a failing one its error |
| ConfigRender.MergeFilter | api/fluentbitoperator/v1alpha2/filter_types.go:99-118 | the same with match lines |
| ConfigRender.MergeOutput | api/fluentbitoperator/v1alpha2/output_types.go:104-129 | the same with match, alias and retry lines |
| ConfigRender.MergeParser | api/fluentbitoperator/v1alpha2/parser_types.go:93-117 | the same with the item's name, the format and the decoders |
| PluginLists.InputList.Load | api/fluentbitoperator/v1alpha2/input_types.go:73-106 | the list is left in alphabetical order of the names and the text is that of its plugins in list and field order, or the first error |
| PluginLists.FilterList.Load | api/fluentbitoperator/v1alpha2/filter_types.go:93-131 | the same through the nested filter items |
| PluginLists.OutputList.Load | api/fluentbitoperator/v1alpha2/output_types.go:98-140 | the same; starting at the third field loses no plugin |
| PluginLists.ParserList.Load | api/fluentbitoperator/v1alpha2/parser_types.go:87-128 | the same; leaving out the last field loses no plugin |
| SectionLaws.InputSectionReads | api/fluentbitoperator/v1alpha2/input_types.go:84-94 | an input's section reads as Name with the plugin's name, Alias exactly if set, then the parameters |
| SectionLaws.FilterSectionReads | api/fluentbitoperator/v1alpha2/filter_types.go:104-117 | a filter's section reads as Name, then Match and Match_Regex exactly if set, in this order, then the parameters |
| SectionLaws.OutputSectionReads | api/fluentbitoperator/v1alpha2/output_types.go:109-128 | an output's section reads as Name, then Match, Match_Regex, Alias and Retry_Limit exactly if set, in this order, then the parameters |
| SectionLaws.ParserSectionReads | api/fluentbitoperator/v1alpha2/parser_types.go:98-116 | a parser's section reads as Name with the item's name, Format with the plugin's, the parameters, the decoder lines |
| SectionLaws.DecoderLines | api/fluentbitoperator/v1alpha2/parser_types.go:108-115 | a decoder gives Decode_Field and Decode_Field_As exactly if set, in this order |
| SectionLaws.DecodersInOrder | api/fluentbitoperator/v1alpha2/parser_types.go:108-115 | decoders keep their order |
| SectionLaws.InputItemSections | api/fluentbitoperator/v1alpha2/input_types.go:97-102 | an input has one section for each plugin set: dummy, tail, systemd |
| SectionLaws.FilterElementSections | api/fluentbitoperator/v1alpha2/filter_types.go:120-127 | a filter element has one section for each plugin set, in field order |
| SectionLaws.FilterSections | api/fluentbitoperator/v1alpha2/filter_types.go:120-127 | a filter's sections are those of its elements in order, under its match |
| SectionLaws.OutputItemSections | api/fluentbitoperator/v1alpha2/output_types.go:131-136 | an output has one section for each plugin set, in field order |
| SectionLaws.ParserItemSections | api/fluentbitoperator/v1alpha2/parser_types.go:119-124 | a parser has one section for each format set: json, regex, ltsv, logfmt |
| SectionLaws.FiltersInOrder | api/fluentbitoperator/v1alpha2/filter_types.go:98 | the sections of a list of filters are those of its filters in order |
| SectionLaws.FirstErrorWins | api/fluentbitoperator/v1alpha2/output_types.go:124-128 | rendering fails exactly with the error of the first plugin whose parameters fail |
| MainConfig.ServiceParams | api/fluentbitoperator/v1alpha2/fluentbitconfig_types.go:95-125 | the settings that are set, in order |
| MainConfig.ServiceSettings | api/fluentbitoperator/v1alpha2/fluentbitconfig_types.go:95-125 | each of the nine settings is there, under its key, exactly if it is set, in the order of the settings |
| MainConfig.RenderMainConfig | api/fluentbitoperator/v1alpha2/fluentbitconfig_types.go:127-161 | the text or error is the one of every sorted order of the lists, so neither list order nor tie-breaking shows |
| MainConfig.OrderDoesNotMatter | api/fluentbitoperator/v1alpha2/fluentbitconfig_types.go:127-161 | permuted lists with distinct names give the same main configuration |
| MainConfig.MainTextReadsBack | api/fluentbitoperator/v1alpha2/fluentbitconfig_types.go:127-161 | the main configuration reads back as service, one section per plugin in order, and the null output exactly when there are inputs and no outputs |
| MainConfig.MainSectionsInGroups | api/fluentbitoperator/v1alpha2/fluentbitconfig_types.go:127-161 | read back, service comes before inputs, filters and outputs, and there is an output exactly if an input or an output plugin is set |
| MainConfig.MainFailsIff | api/fluentbitoperator/v1alpha2/fluentbitconfig_types.go:136-149 | the inputs' error comes first, then the filters', then the outputs' |
| MainConfig.ParserTextReadsBack | api/fluentbitoperator/v1alpha2/fluentbitconfig_types.go:163-174 | the parsers file reads back as one section per parser format |
| Scripts.RenderLuaScript | api/fluentbitoperator/v1alpha2/fluentbitconfig_types.go:190-208 | a sorted permutation of the selected scripts, or the first load error |
| Scripts.ScriptsAreTheSelected | api/fluentbitoperator/v1alpha2/fluentbitconfig_types.go:193-203 | the scripts collected are exactly those that some element of some filter selects |
| Scripts.ElemScript | api/fluentbitoperator/v1alpha2/fluentbitconfig_types.go:195-201 | an element gives nothing, its script under its key, or its load error |
| Scripts.FilterScriptsInOrder | api/fluentbitoperator/v1alpha2/fluentbitconfig_types.go:193-203 | scripts are collected in order and the first error wins |
| Scripts.SecretDataKeys | controllers/fluentbitconfig_controller.go:141-147 | the Secret's keys are the two files and the script keys; a file survives unless a script claims its key |
| Scripts.DataDeterminedIff | controllers/fluentbitconfig_controller.go:141-147 | the data is independent of tie-breaking if and only if no two scripts put different contents under one key |
| ConfigReconciler.StoredData | controllers/fluentbitconfig_controller.go:112-147 | the main configuration is stored compressed exactly if compression is on, the parsers file as it is, a script under its key |
| ConfigReconciler.RenderingDetermined | controllers/fluentbitconfig_controller.go:102-126 | for lists with distinct names and no conflicting scripts the data is fully determined |
| ConfigReconciler.Reconciler.RenderConfig | controllers/fluentbitconfig_controller.go:62-138 | fails exactly when no rendering exists, with the error of the first listing or stage that fails |
| ConfigReconciler.Reconciler.CreateOrPatch | controllers/fluentbitconfig_controller.go:140-155 | reads, then creates or merge-patches, with any edits by others before each of the two calls: store and error are exactly those of the visit |
| SecretStore.RightAfterVisitIff | controllers/fluentbitconfig_controller.go:140-155 | a successful CreateOrPatch leaves data and owner as rendered if and only if nobody spoilt, between read and write, what was right when read; other metadata is kept |
| SecretStore.SuccessfulWriteCanLeaveSecretWrong | controllers/fluentbitconfig_controller.go:140-155 | a successful write after which the Secret is not as rendered |
| SecretStore.UncontestedVisit | controllers/fluentbitconfig_controller.go:140-155 | if nobody touches the Secret between read and write, only failing calls can stop it, and the Secret is right |
| SecretStore.OtherSecretsUnaffected | controllers/fluentbitconfig_controller.go:61-158 | a Secret to which no write took effect is exactly what the others' edits alone would have left |
| SecretStore.RightAtEndIff | controllers/fluentbitconfig_controller.go:61-158 | a Secret stored and not touched later is as rendered at the end if and only if nobody spoilt it between its own read and write |
| ConfigReconciler.FreshBeforeStop | controllers/fluentbitconfig_controller.go:61-158 | with nobody else around, every config before the one the loop stopped at has a fresh Secret at the end |
| ConfigReconciler.UntouchedFromStop | controllers/fluentbitconfig_controller.go:61-158 | every other Secret is as before, that config's own included unless its write took effect and only the answer was lost |
| ConfigReconciler.Reconciler.ReconcileAll | controllers/fluentbitconfig_controller.go:61-158 | stops at the first config that cannot be rendered or stored; the store is exactly what visits to the configs so far, in order and each with its own rendering, leave of it, whatever others do in between |
| ConfigReconciler.Reconciler.Reconcile | controllers/fluentbitconfig_controller.go:50-158 | the same after listing; a namespace without configs is no error, a failed listing changes nothing |

## Left out

- Real file, process and network access, gzip and file copying: replaced by arbitrary results.
- The fsnotify watcher: only the polling watcher is modelled.
- Liveness of goroutines and fairness of the scheduler: all results are about safety or bounded steps. The
  watch loop and the restart loop are modelled for any finite number of rounds.
- Data races: the two variables of line 98 of the supervisor are assigned in one step, and loads and stores
  are atomic and seen at once by everyone.
- Path joining: an entry's event carries the watched path and the entry's name as a pair.
- Time: a snapshot's modification time is a number, how long a child lived is an arbitrary number reported when
  it is reaped, and time in the backoff passes only while the loop is blocked in its select.
- The interrupt of the config watcher and the signal handler: the interrupt handler may start at any moment,
  which covers every reason for it.
- Cache staleness, garbage collection and defaulting: reads are fresh, each FluentBit has one worker, nobody
  but the controller touches its finalizer, and an object without finalizers disappears when deleted.
- The contents of roles and bindings: only their existence under their fixed names is modelled, and no claim
  is made that every ServiceAccount is bound or, if it existed before, owned by the FluentBit.
- The fields of the DaemonSet: its specification is an injective function of name, labels, spec and log path.
- ApiServer.Patched: a merge patch replaces a changed pod specification as a whole where the original merges it
  field by field.
- Validation by the API server. A DaemonSet's selector is the FluentBit's labels, so a server that treats the
  selector as immutable rejects every patch after the labels of the FluentBit were edited; then no pass is
  failure-free and `FluentBitReconciler.TwoPassesConverge` says nothing.
- Owner references that cannot be set: in the FluentBit reconciler they always can, because the objects are
  fresh or have had their references cleared.
- Parameter tables of single plugins: each plugin's parameters are an arbitrary list or error. Keys may
  repeat, since some plugins insert a key twice. A parameter that prints a pointer (the size limit of the
  syslog output) is outside the model.
- Formatting of numbers and booleans in the service settings: they come as text.
