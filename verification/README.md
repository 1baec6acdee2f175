# Model of the control plane

A Dafny model of the hand-written protocols and data algorithms of a personal control plane:
Goals, Works and Runs, the external executions behind Runs, the devices and executors that
carry Work out, and the console's own stores. Each module follows one component.

| module | component |
|---|---|
| `Lifecycle` | the Goal/Work/Run transition tables |
| `WorkGraph` | the dependency graph, its cycle guard and readiness |
| `Bridge` | linking a Run to one external execution: starters, reconcilers, crashes |
| `Delivery` | the delivery reconciler against an adversarial port |
| `Journal` | the step-journaling adapter under kills and outages |
| `DeviceLeases` | device registration, leases, renewal, revocation, sweep |
| `Executor` | Work and Runs under executor cycles, device completions and answer resumes |
| `ExecutorFaults` | the same when store calls raise and processes die |
| `Submission` | exactly one Goal per idempotency scope |
| `Decided` | the rewrite that keeps decided lines of a synthesis |
| `Synthesis` | incremental synthesis against a full rebuild |
| `DmStore` | last-writer-wins access events and deduplicated turns |
| `Auth` | account lockout and session lifetime |
| `Memory` | process-tree memory accounting |
| `ContextPack` | greedy packing under a byte budget |

Concurrent protocols are state machines in which every await is one step; a run is any
sequence of steps, and theorems quantify over all runs. Objects whose methods update fields
are classes, and their methods are proved against the same functions the theorems are about:
the bridge's and the executor's methods are proved to be runs of the step machine. Text is
modelled by what the patterns read in it (classified lines, flags on a process).

Times are integers, durations too. Digests, password hashes and tokens are taken as injective
or fresh. Clocks, randomness, worker answers, port behaviour and fresh ids are parameters.

## What the proofs found

Where a property does not hold of the code, the model keeps the code and states exactly when
it does.

- A bridge that crashes after the attach and before RUNNING leaves a STARTING Run with a ref;
  reconcile passes list only Runs without one, so it is stranded (`CrashStrandsARun`,
  `StrandedForever`) until somebody starts it again (`UndisturbedStartLinks`). A Run can be marked
  FAILED while its execution is live if and only if fewer than two attempts are configured
  (`FailsARunIff`).
- A delivery's connection error counts as not ambiguous, so a start that took effect is started
  again without a probe; at most one execution then rests on the port's idempotence
  (`LostConnectionStartsTwice`, `SecondExecutionIff`).
- The adapter's run keys and signal keys collide when one begins another, and an upgrade drops
  queued signals (`JournalsMeetIff`, `QueuesMeetIff`, `UpgradeLosesIff`).
- The documentation of device revocation says that the Work becomes reassignable; the transition
  table never returns to PENDING, so it does not (`LeasedWorkStaysTaken`). A claim in flight gives
  a revoked device an ACTIVE lease that nobody can complete (`RevokedHoldsAgainIff`). A claim that dies
  between its Work and the lease leaves taken Work that is never leased (`CrashedClaimStrandsWork`).
- A submit that stops between the Goal and its Work leaves a Goal that no resubmit repairs
  (`FirstWorkIff`, `WorkComesOnlyFromElsewhere`).
- A resumed Work is RUNNING with a STARTING Run that no executor cycle picks up
  (`NobodyRunsItAgain`), and a store fault that is swallowed on the way to a failure leaves FAILED
  Work with an active Run (`FaultEndsBadlyIff`, `FailedWithActiveRunIff`). A resume that stops
  between its cancel request and the revival leaves Work that stays WAITING for ever: the Run table
  admits no second cancel request and none from STARTING, so every later answer is turned down
  (`WaitingOutOfStepIff`, `AnswerRevivesIff`). An artifact that cannot be stored leaves RUNNING Work
  with a SUCCEEDED Run for ever (`ArtifactFault`).
- The decided-lines rewrite can lose a line in three ways, each with its exact condition
  (`HeadingKeepsIff`, `NoHeadingKeepsIff`, `SaveKeepsIff`).
- Synthesis signatures have the clock's resolution of one second, so a summary rewritten within a
  second is never handed over (`RebuiltIff`, `SameSecondGoesUnnoticed`).
- Access events at one time are decided by arrival (`TiesDiverge`).
- The headless line of the memory view overwrites a program of the same name (`ConservedIff`).
- Two different context items under one ref that both still fit make the pack depend on the input
  order (`OrderMattersIff`).

## Model

| member | source | states |
|---|---|---|
| `WorkGraph.WorkGraph.WouldCycle` | src/all_tomorrow/work_graph.py:59-73 | True exactly when `src` is reachable from `dst`; the stack loop ends although a node may be pushed many times |
| `WorkGraph.WorkGraph.AddRelation` | src/all_tomorrow/work_graph.py:51-57 | Refuses exactly the dependency edges that would close a cycle and records every other relation; the dependency relation stays acyclic |
| `WorkGraph.EdgeKeepsAcyclicIff` | src/all_tomorrow/work_graph.py:51-73 | On an acyclic graph the new edge keeps it acyclic if and only if `src` is not reachable from `dst` |
| `WorkGraph.EveryBuiltGraphIsAcyclic` | src/all_tomorrow/work_graph.py:51-57 | After every sequence of `add_relation` calls the dependency relation is acyclic and is that of the accepted relations |
| `WorkGraph.NeverDeadlocks` | src/all_tomorrow/work_graph.py:78-92 | In a built graph, a finite dependency-closed set that holds Work neither done nor behind a failure holds one such Work that is READY |
| `WorkGraph.NoFailureNoDeadlock` | src/all_tomorrow/work_graph.py:78-92 | With no FAILED outcome, a finite dependency-closed set that holds any Work not yet done holds one that is READY |
| `WorkGraph.EveryOpenWorkIsSchedulable` | src/all_tomorrow/work_graph.py:78-92 | There is an order that runs every Work not behind a failure exactly once, each READY at its turn |
| `WorkGraph.FailureNeverFakesSuccess` | src/all_tomorrow/work_graph.py:78-92 | However many READY Works are finished, none of them lies behind a FAILED one |
| `WorkGraph.AddedMeans` | src/all_tomorrow/work_graph.py:51-57 | A relation is recorded, and a dependency indexed, exactly unless it is a dependency that closes a cycle |
| `WorkGraph.ResolveMeans` | src/all_tomorrow/work_graph.py:78-92 | READY exactly when every direct dependency succeeded, BLOCKED_BY_FAILURE exactly when one FAILED, WAITING_DEPENDENCY exactly when none failed and one is pending |
| `WorkGraph.BlockedStaysBlocked` | src/all_tomorrow/work_graph.py:78-92 | Blocked Work stays blocked, and unscheduled, along every schedule that finishes no FAILED Work |
| `WorkGraph.WaitingBecomesReady` | src/all_tomorrow/work_graph.py:78-92 | Waiting Work with no failure behind it is READY at the end of some schedule |
| `Lifecycle.WorkHistoryShape` | src/all_tomorrow/domain/state.py:101-124 | In every legal Work history PENDING comes only first, a terminal status only last, and only the cancellation follows a cancel request |
| `Lifecycle.RunHistoryShape` | src/all_tomorrow/domain/state.py:126-150 | The same for Runs, STARTING being the first status |
| `Lifecycle.GoalHistoryShape` | src/all_tomorrow/domain/state.py:78-99 | A terminal Goal status comes only last; only the cancellation follows a cancel request |
| `Lifecycle.WorkEntries` | src/all_tomorrow/domain/state.py:101-124 | From which statuses each Work status is entered; terminal exactly if nothing follows |
| `Lifecycle.RunEntries` | src/all_tomorrow/domain/state.py:126-150 | The same for Runs; a Run is active exactly if it is not terminal |
| `Lifecycle.GoalEntries` | src/all_tomorrow/domain/state.py:78-99 | The same for Goals |
| `Lifecycle.TransitionsMean` | src/all_tomorrow/domain/state.py:258-351 | A transition is allowed exactly along the table and, into success, with evidence; which refusal is given when |
| `Bridge.AtMostOneExecution` | src/all_tomorrow/bridge/durable_bridge.py:86-211 | For every interleaving of starters, reconcile passes, crashes and other writers, a run gets at most one external execution |
| `Bridge.AttachedRefIsThePorts` | src/all_tomorrow/bridge/durable_bridge.py:104-109 | An attached ref is the port's own ref for that run |
| `Bridge.AttachedRefNeverChanges` | src/all_tomorrow/bridge/durable_bridge.py:155-170 | Nothing that happens later changes or removes an attached ref |
| `Bridge.RunningOnlyWithRef` | src/all_tomorrow/bridge/durable_bridge.py:110-116 | A Run the bridge moves to RUNNING already carries the port's ref |
| `Bridge.AttachCallsAreBounded` | src/all_tomorrow/bridge/durable_bridge.py:132-184 | A reconcile makes at most `max_reconcile_attempts` attach calls (none when that is not positive), a starter at most one |
| `Bridge.AttachesAreCounted` | src/all_tomorrow/bridge/durable_bridge.py:132-184 | That count is of the attach calls: each step adds one exactly if it makes the call |
| `Bridge.EveryCallEnds` | src/all_tomorrow/bridge/durable_bridge.py:86-211 | Whatever the others do, a starter is over after five steps of its own, a pass after nine and five for each attempt allowed, for each run it listed |
| `Bridge.RefsNeverDiverge` | src/all_tomorrow/bridge/durable_bridge.py:164-170 | The fail-closed branch for a different ref is never taken: refs cannot diverge |
| `Bridge.DivergentRefStops` | src/all_tomorrow/bridge/durable_bridge.py:164-170 | Were a different ref attached, a reconciler would stop with nothing written |
| `Bridge.SameRefIsAdopted` | src/all_tomorrow/bridge/durable_bridge.py:164-169 | Had it become the same one by then, the reconciler would finish with it |
| `Bridge.ReconcilerStartsAgainIff` | src/all_tomorrow/bridge/durable_bridge.py:143-154 | What the port's idempotence absorbs: a reconciler that found nothing calls start for a run that already has an execution if and only if somebody else called start between its find and its start |
| `Bridge.StarterRacesTheFind` | src/all_tomorrow/bridge/durable_bridge.py:103-154 | That race is reachable |
| `Bridge.TwoAttemptsNeverFailARun` | src/all_tomorrow/bridge/durable_bridge.py:179-184 | With two attempts or more no interleaving makes the bridge mark a Run FAILED |
| `Bridge.OneAttemptFailsALiveRun` | src/all_tomorrow/bridge/durable_bridge.py:160-163 | With one attempt, a lost revision race marks FAILED a Run whose execution is live and attached |
| `Bridge.FailsARunIff` | src/all_tomorrow/bridge/durable_bridge.py:132-211 | The bridge can mark a Run FAILED if and only if fewer than two attempts are configured |
| `Bridge.UndisturbedPassRecovers` | src/all_tomorrow/bridge/durable_bridge.py:119-130 | From any reachable state one undisturbed pass leaves every Run it listed RUNNING and attached to its one execution, and touches no other |
| `Bridge.UndisturbedStartLinks` | src/all_tomorrow/bridge/durable_bridge.py:86-116 | From any reachable state an undisturbed start of a STARTING Run, with its own revision, leaves it RUNNING, attached to its one execution, and returns the ref; so it repairs a stranded Run |
| `Bridge.RefusedStart` | src/all_tomorrow/bridge/durable_bridge.py:86-109 | A start of a record that is not STARTING does nothing; one with a stale revision reaches the port, writes nothing and returns nothing |
| `Bridge.LinkedIsReturned` | src/all_tomorrow/bridge/durable_bridge.py:136-141 | A reconciler that reads a linked Run returns its ref and writes nothing |
| `Bridge.AttachedIsFinished` | src/all_tomorrow/bridge/durable_bridge.py:136-194 | A reconciler that reads a STARTING Run with a ref makes it RUNNING and returns that ref |
| `Bridge.CrashStrandsARun` | src/all_tomorrow/bridge/durable_bridge.py:105-116 | A crash between attach and RUNNING leaves a STARTING Run with a ref |
| `Bridge.StrandedForever` | src/all_tomorrow/storage/semantic_store.py:416-422 | Such a Run is never listed again: it stays STARTING however many passes run, unless somebody restarts or writes it |
| `Bridge.DurableRunBridge.StartRun` | src/all_tomorrow/bridge/durable_bridge.py:86-116 | The call, with others acting at every await, is a run of the step machine that ends in its reply, one attach at most; with nobody else acting, the new row and the reply outright |
| `Bridge.DurableRunBridge.ReconcileOne` | src/all_tomorrow/bridge/durable_bridge.py:132-184 | The retry loop, with others acting at every await, is a run of the step machine that ends in its reply, within the attach bound |
| `Bridge.DurableRunBridge.ToRunning` | src/all_tomorrow/bridge/durable_bridge.py:186-194 | The tail after an attach is a run of the machine; it returns the attached ref or nothing |
| `Bridge.DurableRunBridge.MarkFailed` | src/all_tomorrow/bridge/durable_bridge.py:196-211 | The exhaustion path is a run of the machine that stops |
| `Bridge.CallsReturnTheAttachedRef` | src/all_tomorrow/bridge/durable_bridge.py:86-184 | A ref returned by a call begun in any reachable state is the port's own and is attached |
| `Delivery.AmbiguousProbesBeforeStart` | src/all_tomorrow/delivery.py:413-547 | In AMBIGUOUS, start is called only after the same call's probe found nothing |
| `Delivery.UnprobedKindsMakeNoCall` | src/all_tomorrow/delivery.py:413-547 | Kinds without a probe make no external call from AMBIGUOUS and end in repair |
| `Delivery.NormalizeMeans` | src/all_tomorrow/error_normalization.py:18-245 | Which exceptions leave the effect in doubt, say that something is missing, or that the other side is not there |
| `Delivery.CallsMade` | src/all_tomorrow/delivery.py:180-320 | Which external calls a reconcile makes: one dispatch by kind, the probe of a run start in doubt, or none |
| `Delivery.DeliveredIff` | src/all_tomorrow/delivery.py:322-547 | DELIVERED if and only if a start returned, a probe found the execution alive, the signal was delivered or the handler succeeded; it carries the time, and nothing else does |
| `Delivery.FailedIff` | src/all_tomorrow/delivery.py:180-547 | FAILED if and only if a dispatch was refused, had no handler or ended in an error without doubt while attempts are left, or a probe found the execution dead |
| `Delivery.AmbiguousIff` | src/all_tomorrow/delivery.py:180-547 | AMBIGUOUS if and only if attempts are left and a dispatch ended in an error in doubt, or a probe or the start after it in any error |
| `Delivery.RepairIff` | src/all_tomorrow/delivery.py:180-547 | REPAIR_REQUIRED if and only if the attempts ran out, or a doubt stands that cannot be probed |
| `Delivery.CallRecords` | src/all_tomorrow/delivery.py:180-547 | An exception that ended the call is recorded as normalised, every call but an exhausted one spends an attempt, and the outside changes exactly when a start takes effect |
| `Delivery.AnswerRecords` | src/all_tomorrow/delivery.py:180-547 | An answer that ended the call leaves its own error, a doubt that cannot be probed an ambiguous effect, an exhausted record what it had |
| `Delivery.ExpiredCall` | src/all_tomorrow/delivery.py:184-211 | Past its time an open delivery fails as timed out, without a call and without an attempt |
| `Delivery.RunKeepsBudget` | src/all_tomorrow/delivery.py:180-320 | Under any port behaviour attempts never fall nor exceed the maximum over a run, AMBIGUOUS leaves an attempt, and k unexpired calls on an open record have used k attempts |
| `Delivery.SettlesInTime` | src/all_tomorrow/delivery.py:180-320 | A never-expired delivery is terminal after max_attempts + 1 calls |
| `Delivery.TerminalForever` | src/all_tomorrow/delivery.py:181-182 | Terminal records are fixed points and cause no call |
| `Delivery.ExpiredForever` | src/all_tomorrow/delivery.py:184-211 | Once expired, no call touches the port or spends an attempt |
| `Delivery.AtMostOneExecution` | src/all_tomorrow/delivery.py:322-355 | On an idempotent port, whatever replies are lost, at most one execution exists, and DELIVERED implies one |
| `Delivery.SecondExecutionIff` | src/all_tomorrow/delivery.py:322-355 | Without idempotence, the exact call that makes a second execution |
| `Delivery.SecondExecutionInARunIff` | src/all_tomorrow/delivery.py:180-355 | Over any run on a truthful port without idempotence, a second execution exists if and only if some call started unprobed while there was one |
| `Delivery.CandidPortNeedsNoIdempotence` | src/all_tomorrow/delivery.py:413-547 | If every lost reply is reported as ambiguous and the clock never goes back, at most one execution even on a port that is not idempotent, whether or not the key expires |
| `Delivery.LostConnectionStartsTwice` | src/all_tomorrow/error_normalization.py:111-134 | A connection error is normalised as not ambiguous; when it hides a start that took effect, the next call starts again without a probe |
| `Journal.BaselineMemoryAdapter.StartOrResume` | src/all_tomorrow/harness/adapter.py:116-231 | One call is the five stages on the run's own journal; refused while the backend is away or the run is cancelled; nothing else changes |
| `Journal.SideEffectStore.RecordMutation` | src/all_tomorrow/harness/fixtures.py:44-83 | Applies once per key; under strict keys a second value is refused |
| `Journal.ResumeRefinesUninterrupted` | src/all_tomorrow/harness/adapter.py:116-231 | After any schedule of kills, outages, signals, upgrades and foreign writes, a completing call reports what the uninterrupted run reports |
| `Journal.CleanCallCompletes` | src/all_tomorrow/harness/adapter.py:116-231 | One undisturbed call on a new run completes with that report |
| `Journal.ResumeCompletes` | src/all_tomorrow/harness/adapter.py:116-231 | From any point of any schedule one clean call with a signal at hand completes |
| `Journal.CorrelationNeverChanges` | src/all_tomorrow/harness/adapter.py:133-153 | The correlation id of an open journal never changes |
| `Journal.CorrelationIsTheOpeners` | src/all_tomorrow/harness/adapter.py:136-151 | The correlation id of a run is that in the trace of the call that opened its journal |
| `Journal.AppliedAtMostOnce` | src/all_tomorrow/harness/adapter.py:180-191 | The mutation is applied at most once however often the tool is called |
| `Journal.MutationIsRecorded` | src/all_tomorrow/harness/adapter.py:180-191 | Every run of the mutation tool, whether it succeeds, is refused or is killed, reaches the store exactly once, under its key alone |
| `Journal.CallRecords` | src/all_tomorrow/harness/adapter.py:116-231 | One call reaches the store exactly as often as it ran the mutation tool, and touches no other key |
| `Journal.EffectsAccountForTheRun` | src/all_tomorrow/harness/adapter.py:180-191 | Over every schedule the store holds the key exactly if it did before or the tool ran, and its calls grew by exactly the number of runs of the tool |
| `Journal.CompletedMeansApplied` | src/all_tomorrow/harness/adapter.py:180-231 | A completed run has its mutation in the store, applied exactly once and with its value if the key was new |
| `Journal.StopsExactly` | src/all_tomorrow/harness/adapter.py:155-210 | A call stops at the first obstacle on its way and nowhere else, and has then journaled exactly the steps before it |
| `Journal.OutageRefusesExactly` | src/all_tomorrow/harness/adapter.py:104-127 | An outage of n refuses exactly the next n calls and changes nothing else |
| `Journal.CancelTurnsDown` | src/all_tomorrow/harness/adapter.py:129-131 | Once cancelled, a run is turned down by every call until an upgrade, and neither its journal nor its steps change |
| `Journal.JournaledStepNeverRunsAgain` | src/all_tomorrow/harness/adapter.py:155-210 | A journaled step never runs again |
| `Journal.ExecutedExactlyOnce` | src/all_tomorrow/harness/adapter.py:155-210 | Over every schedule each step but the mutation has been executed exactly once if it is journaled and not at all otherwise |
| `Journal.FirstSentIsReceived` | src/all_tomorrow/harness/adapter.py:201-210 | Without an upgrade a run that has its signal received the first payload ever sent and all later ones are queued; one that has not has everything queued |
| `Journal.UpgradeLosesIff` | src/all_tomorrow/harness/adapter.py:107-111 | An upgrade changes what a run can ever receive if and only if a payload is queued, the run has not taken one and is not barred from it |
| `Journal.JournalsMeetIff` | src/all_tomorrow/harness/adapter.py:113-114 | Runs of two Works can share a journal if and only if one work id with a colon begins the other |
| `Journal.QueuesMeetIff` | src/all_tomorrow/harness/adapter.py:239-242 | Two runs can share a signal queue if and only if one journal key with a colon begins the other |
| `Journal.QueuesAreSeparate` | src/all_tomorrow/harness/adapter.py:206-207 | With colon-free work and run ids no two runs share a queue |
| `Journal.RunsAreSeparate` | src/all_tomorrow/harness/adapter.py:113-114 | With colon-free work ids different runs never share a journal |
| `DeviceLeases.DeviceAgentService.RevokeDevice` | src/all_tomorrow/device_agent.py:145-169 | Revokes the token and closes exactly the device's ACTIVE leases, in the table and in the index |
| `DeviceLeases.DeviceAgentService.SweepExpiredLeases` | src/all_tomorrow/device_agent.py:307-329 | Flags exactly the ACTIVE leases past their time as expired and ambiguous and drops them from the index |
| `DeviceLeases.DeviceAgentService.RenewLease` | src/all_tomorrow/device_agent.py:201-217 | Renews exactly the ACTIVE leases of the authenticated device, whether or not they are past their time; nothing else changes |
| `DeviceLeases.DeviceAgentService.CompleteLease` | src/all_tomorrow/device_agent.py:228-241 | Completes exactly the ACTIVE leases of the authenticated device and drops the index entry |
| `DeviceLeases.DeviceAgentService.LeaseForWork` | src/all_tomorrow/device_agent.py:331-333 | The ACTIVE lease of a Work, through the index |
| `DeviceLeases.OneLeasePerWork` | src/all_tomorrow/device_agent.py:172-199 | Over every interleaving a Work gets at most one lease in its whole life |
| `DeviceLeases.IndexIsExact` | src/all_tomorrow/device_agent.py:145-241 | The index always equals the work-to-lease map of ACTIVE leases |
| `DeviceLeases.LeasedWorkStaysTaken` | src/all_tomorrow/domain/state.py:101-124 | A leased Work never becomes claimable again, also after its lease was released |
| `DeviceLeases.AmbiguousIffExpired` | src/all_tomorrow/device_agent.py:307-329 | A lease is flagged ambiguous if and only if it expired |
| `DeviceLeases.SweepMeans` | src/all_tomorrow/device_agent.py:307-329 | A sweep expires exactly the ACTIVE leases past their time, flags them, and touches no other lease, device or Work |
| `DeviceLeases.TermStep` | src/all_tomorrow/device_agent.py:192-217 | A lease appears only by a grant, ACTIVE for the ttl; only the renewal of a usable lease gives it its time anew |
| `DeviceLeases.LeaseLivesItsTerm` | src/all_tomorrow/domain/device.py:140-142 | A lease granted or last renewed at t is expired by no sweep up to t + ttl, and by the first one after that if it is still ACTIVE |
| `DeviceLeases.AuthenticateMeans` | src/all_tomorrow/device_agent.py:118-123 | A token is accepted exactly from a registered device that is not revoked and whose token it is |
| `DeviceLeases.UndisturbedClaim` | src/all_tomorrow/device_agent.py:172-199 | An accepted device that claims undisturbed gets an ACTIVE lease on the pending Work, which is then RUNNING and indexed |
| `DeviceLeases.RefusedClaim` | src/all_tomorrow/device_agent.py:182-191 | Without acceptance no claim begins, and without pending Work none takes any |
| `DeviceLeases.RegisterMeans` | src/all_tomorrow/device_agent.py:98-116 | A code that can be redeemed makes a device of its owner whose token is accepted, and is used up; any other does nothing |
| `DeviceLeases.CodeWorksOnce` | src/all_tomorrow/device_agent.py:87-116 | A code makes a device exactly within its time, and whatever happens later never another |
| `DeviceLeases.BeatMeans` | src/all_tomorrow/device_agent.py:126-137 | A heartbeat marks an accepted device ONLINE with the time and changes nothing else |
| `DeviceLeases.RevokeMeans` | src/all_tomorrow/device_agent.py:145-169 | A revocation by the owner closes the device and releases exactly its ACTIVE leases; by anybody else it does nothing |
| `DeviceLeases.ClosedLeaseIsFinal` | src/all_tomorrow/device_agent.py:201-241 | A lease leaves ACTIVE at most once and is completed at most once |
| `DeviceLeases.RevokedDeviceIsPowerless` | src/all_tomorrow/domain/device.py:98-104 | After a revocation none of the device's leases is renewed or completed, including one granted by a claim in flight |
| `DeviceLeases.RevokeIsComplete` | src/all_tomorrow/device_agent.py:145-169 | A device revoked with no claim in flight never holds an ACTIVE lease again |
| `DeviceLeases.RevokedHoldsAgainIff` | src/all_tomorrow/device_agent.py:145-199 | A revoked device can come to hold an ACTIVE lease again if and only if a claim of it was in flight at the revocation, whether or not it had its Work yet |
| `DeviceLeases.CrashedClaimStrandsWork` | src/all_tomorrow/device_agent.py:188-199 | A claim that dies between taking its Work and the lease leaves Work that stays taken and is never leased, whatever follows |
| `DeviceLeases.EarlyCrashLeavesNothing` | src/all_tomorrow/device_agent.py:182-188 | One that dies before it took any Work leaves everything as it was |
| `DeviceLeases.CompletedIffTimed` | src/all_tomorrow/device_agent.py:233-241 | Over every interleaving exactly the completed leases have a completion time |
| `DeviceLeases.ChangeRaisesTheRevision` | src/all_tomorrow/device_agent.py:126-241 | Whatever changes a lease or a device raises its revision by exactly one |
| `Submission.WebControl.FindGoalByRequest` | src/all_tomorrow/web_control.py:59-69 | The loops over Goals and events return the first Goal whose log names the request |
| `Submission.WebControl.Ingest` | src/all_tomorrow/requests.py:68-107 | One Request per scope, one more Delivery per arrival |
| `Submission.WebControl.Submit` | src/all_tomorrow/web_control.py:71-100 | The new state of every table, for every point at which the call may stop |
| `Submission.LookupIsExact` | src/all_tomorrow/web_control.py:59-69 | In every consistent state the lookup finds a request's Goal exactly when there is one |
| `Submission.OneGoalPerScope` | src/all_tomorrow/web_control.py:71-100 | For any mix of web and Discord submits, failures and restarts a scope owns at most one Goal |
| `Submission.CompletedSubmitOwnsItsGoal` | src/all_tomorrow/web_control.py:71-100 | A completed submit answers with the Goal its scope owns |
| `Submission.EveryCompletedSubmitAgrees` | src/all_tomorrow/web_control.py:297-325 | Any two completed submits of one scope answer with the same Goal |
| `Submission.CacheAgreesWithLog` | src/all_tomorrow/web_control.py:83-87 | The cache always agrees with the event-log lookup |
| `Submission.FirstWorkIff` | src/all_tomorrow/web_control.py:88-99 | The creating submit gives its Goal a Work if and only if it does not stop right after the Goal |
| `Submission.WorkComesOnlyFromElsewhere` | src/all_tomorrow/web_control.py:83-99 | Over any later run, an owned Goal has Work if and only if it had before or another part of the system added one: no submit, restart or new Goal gives it any |
| `Submission.VolatileRequestsMakeASecondGoal` | src/all_tomorrow/requests.py:62-66 | With a request table that dies with the server the same key makes a second Goal beside the first |
| `Submission.EveryArrivalIsRecorded` | src/all_tomorrow/requests.py:109-110 | A scope has one Delivery for each of its submits that had a text |
| `Submission.AnsweredIff` | src/all_tomorrow/web_control.py:71-100 | In every run a submit is answered if and only if it has a text and does not stop, past the ingest where the scope owns a Goal and past the cache entry where not; it says new exactly for a scope never seen |
| `Submission.FirstSubmitCreates` | src/all_tomorrow/web_control.py:78-100 | The first submit of a scope makes one Request, Delivery, Goal and Work with the cut text, their events and the cache entry, and nothing else |
| `Submission.ResubmitLeaves` | src/all_tomorrow/web_control.py:78-100 | A submit for a scope that owns a Goal answers with it and leaves only a Delivery and the cache entry |
| `Submission.StoppedLeaves` | src/all_tomorrow/web_control.py:88-99 | What a creating submit that stops leaves of Goal, Work and cache, by its stopping point |
| `Submission.AnswerIsCached` | src/all_tomorrow/web_control.py:83-99 | After every answered submit the cache holds the answer, until a restart empties it |
| `Submission.LookupMeans` | src/all_tomorrow/web_control.py:59-69 | The lookup finds the first of the user's Goals that the log ties to the request, and none only if there is none |
| `Submission.EveryIdIsItsOwn` | src/all_tomorrow/web_control.py:88-99 | In every run each Goal and each Work has an id of its own |
| `Executor.ExecutorLoop.RunOneCycle` | src/all_tomorrow/executor.py:101-112 | Claims only PENDING Work and leaves it FAILED, WAITING or SUCCEEDED and coupled with its Run; no store call is refused; no other Work changes |
| `Executor.ExecutorLoop.ExecuteClaimedWork` | src/all_tomorrow/executor.py:127-151 | Work and Run end as the worker's verdict says, by a run of the step machine, with no refused call |
| `Executor.ExecutorLoop.CreateRunFor` | src/all_tomorrow/executor.py:153-164 | One new Run, RUNNING, and nothing else |
| `Executor.ExecutorLoop.Succeed` | src/all_tomorrow/executor.py:166-194 | Run and Work both SUCCEEDED, the Work with evidence |
| `Executor.ExecutorLoop.Fail` | src/all_tomorrow/executor.py:196-216 | Run and Work both FAILED |
| `Executor.ExecutorLoop.ToWaiting` | src/all_tomorrow/executor.py:218-240 | Work WAITING with exactly one active Run, WAITING |
| `Executor.ExecutorLoop.ResumeAnsweredWork` | src/all_tomorrow/executor.py:243-279 | A no-op unless WAITING; else the loop closes the waiting Run, one STARTING Run is active and the Work RUNNING |
| `Executor.ExecutorLoop.CloseRun` | src/all_tomorrow/executor.py:261-271 | One prior Run goes to CANCELLED in two legal transitions |
| `Executor.ExecutorLoop.CompleteWork` | src/all_tomorrow/device_agent.py:245-304 | A leased Work is terminalised through a Run created for the purpose; the Work ends SUCCEEDED or FAILED and coupled |
| `Executor.CoupledInEveryRun` | src/all_tomorrow/executor.py:127-279 | Whatever interleaves without faults: never two active Runs, PENDING Work has no Run, ended Work no active Run, SUCCEEDED Work evidence; WAITING Work has exactly one active Run and it is WAITING whenever no operation on it is in progress |
| `Executor.OwnerIsNeverRefused` | src/all_tomorrow/executor.py:127-240 | Every write of a cycle or device completion is legal and current, except parking a Run whose question was already answered |
| `Executor.UndisturbedCycle` | src/all_tomorrow/executor.py:101-240 | A cycle with nobody else acting gives PENDING Work one Run, and both end as the verdict says: the whole row |
| `Executor.UndisturbedDevice` | src/all_tomorrow/device_agent.py:219-304 | The same for a device that claims and later completes, which cannot ask |
| `Executor.DeviceAdoptsAnActiveRun` | src/all_tomorrow/device_agent.py:247-259 | A device completion that finds an active Run reports on that one |
| `Executor.RefusalIsADomainError` | src/all_tomorrow/executor.py:196-240 | A refused write leads its owner where a raised DomainError does, and changes nothing |
| `Executor.RefusalEndsAResume` | src/all_tomorrow/executor.py:261-278 | A refused write ends a resume as a fault does |
| `Executor.NobodyRunsItAgain` | src/all_tomorrow/executor.py:101-112 | RUNNING Work that nobody holds, such as a resumed one, is touched by no cycle, device completion or answer |
| `Executor.ExecutorLoop.ClaimForDevice` | src/all_tomorrow/device_agent.py:188-191 | A device claim takes exactly PENDING Work, leaves it RUNNING under a lease without a Run, and touches no other |
| `Executor.CreateRunMeans` | src/all_tomorrow/storage/semantic_store.py:345-357 | A Run is created exactly where its id is new and no Run is active, STARTING and beside the others |
| `Executor.MoveRunMeans` | src/all_tomorrow/storage/semantic_store.py:396-414 | A Run moves exactly where the revision is current and the table allows it; nothing else moves |
| `Executor.MoveWorkMeans` | src/all_tomorrow/storage/semantic_store.py:318-342 | Work moves exactly where the revision is current, the table allows it and success has its evidence |
| `ExecutorFaults.SurvivesFaults` | src/all_tomorrow/executor.py:127-279 | Through any store faults and process deaths: never two active Runs, no Run before the claim, SUCCEEDED Work has evidence and no active Run |
| `ExecutorFaults.AtMostTwoRuns` | src/all_tomorrow/executor.py:243-279 | However many duplicate or concurrent answers arrive, and whatever fails, at most one of them opens a Run |
| `ExecutorFaults.FailedWithActiveRunIff` | src/all_tomorrow/executor.py:142-216 | In every run FAILED Work has an active Run if and only if a fault was swallowed on the way: at an executor's start of its Run, or while failing a Run with a DomainError or for a device |
| `ExecutorFaults.FaultEndsBadlyIff` | src/all_tomorrow/device_agent.py:284-303 | A single fault can end in FAILED Work with an active Run if and only if it is one of those |
| `ExecutorFaults.FaultMeans` | src/all_tomorrow/executor.py:127-240 | A fault changes nothing stored; the failure of the Work goes on exactly where the exception is caught, and elsewhere the operation is over |
| `ExecutorFaults.FaultBeforeTheRun` | src/all_tomorrow/executor.py:127-143 | A fault before any Run exists ends an executor's cycle in FAILED Work without an active Run |
| `ExecutorFaults.ArtifactFault` | src/all_tomorrow/executor.py:172-194 | An artifact that cannot be stored leaves RUNNING Work with a SUCCEEDED Run, which nothing ever changes |
| `ExecutorFaults.DeathLeavesWaitingOutOfStep` | src/all_tomorrow/executor.py:218-240 | A run in which a death between the two parking calls leaves WAITING Work whose one active Run is RUNNING |
| `ExecutorFaults.InStepUnlessDerailed` | src/all_tomorrow/executor.py:218-279 | Through any faults but derailing ones, WAITING Work at rest has exactly one active Run and it is WAITING |
| `ExecutorFaults.WaitingOutOfStepIff` | src/all_tomorrow/executor.py:218-279 | A single fault can leave WAITING Work at rest out of step if and only if it takes away the last one who would set it right: the owner at the parking of its Run, a resume between cancel request and revival, or the last that would open a Run |
| `ExecutorFaults.StuckForever` | src/all_tomorrow/executor.py:258-271 | WAITING Work that nobody holds and whose active Run is CANCEL_REQUESTED or STARTING is changed by no action, answer or fault |
| `ExecutorFaults.AnswerRevivesIff` | src/all_tomorrow/executor.py:243-279 | After any run with any faults, one undisturbed answer brings WAITING Work at rest back to RUNNING if and only if its active Run, if any, is neither CANCEL_REQUESTED nor STARTING; otherwise nothing ever changes it |
| `ExecutorFaults.ResumeFaultStrandsWork` | src/all_tomorrow/executor.py:261-271 | A run in which one fault of a resume, after its cancel request, leaves Work that stays WAITING for ever |
| `Decided.Bullets` | src/all_tomorrow/console/ideas_rounds.py:77-85 | The loop returns the real items of the folded lines |
| `Decided.HeadingKeepsIff` | src/all_tomorrow/console/ideas_rounds.py:146-162 | With the heading there, a line is listed afterwards if and only if the new text lists it, or the previous one does, it is not "없음" and the section does not end in a bare row of hashes |
| `Decided.NoHeadingLists` | src/all_tomorrow/console/ideas_rounds.py:155-157 | Without the heading, exactly which lines are listed: all the old ones, the last with the text's indented opening glued to it |
| `Decided.NoHeadingKeepsIff` | src/all_tomorrow/console/ideas_rounds.py:155-157 | Without the heading nothing is lost if and only if nothing indented precedes the first bullet, or the last line stands elsewhere as well |
| `Decided.UnchangedIff` | src/all_tomorrow/console/ideas_rounds.py:148-153 | The text is returned as it is if and only if it drops nothing |
| `Decided.IdempotentIff` | src/all_tomorrow/console/ideas_rounds.py:146-162 | Rewriting twice is rewriting once, exactly when no dropped line is "없음" or falls behind a bare row of hashes |
| `Decided.NoHeadingIdempotentIff` | src/all_tomorrow/console/ideas_rounds.py:146-157 | Without the heading, rewriting twice is rewriting once exactly when nothing is lost to the opening and every listed "없음" is among the text's own bullets |
| `Decided.FitIsIdempotent` | src/all_tomorrow/console/ideas_rounds.py:146-162 | On a fit text, with the heading or opening cleanly without it, rewriting is idempotent |
| `Decided.OpensWithHeadingIsFit` | src/all_tomorrow/console/ideas_rounds.py:155-157 | A text that opens with a heading is one that loses nothing |
| `Decided.SaveKeepsIff` | src/all_tomorrow/console/ideas.py:726-737 | A save loses nothing but "없음" if and only if the stripped text is empty, has the heading without a bare tail or with nothing dropped, or has a harmless opening |
| `Decided.DecidedStays` | src/all_tomorrow/console/ideas.py:726-737 | A line once decided, other than "없음", stays listed through any number of saves of texts that are fit once stripped |
| `Decided.DecidedIsTheUnion` | src/all_tomorrow/console/ideas.py:726-737 | Over texts with the heading the section lists exactly what any of them, stripped, ever listed |
| `Decided.OpeningSwallowsALine` | src/all_tomorrow/console/ideas_rounds.py:155-157 | A text whose indented opening swallows a decided line |
| `Decided.HashesSwallowALine` | src/all_tomorrow/console/ideas_rounds.py:158-162 | A text whose bare row of hashes cuts a restored line off |
| `Decided.StrippedHashesSwallowALine` | src/all_tomorrow/console/ideas.py:728-731 | The same through a save of a text that ends in a newline, which is stripped first |
| `Decided.NoneIsNeverKept` | src/all_tomorrow/console/ideas_rounds.py:85-85 | "없음" below an empty bullet is listed once and never restored |
| `Decided.EndsMeans` | src/all_tomorrow/console/ideas_rounds.py:158-158 | A line ends the section exactly if it is unindented and begins with a row of one to six hashes; it needs a following line exactly if it is the row alone |
| `Decided.BulletMeans` | src/all_tomorrow/console/ideas_rounds.py:81-84 | A bullet is an unindented dash or star with a blank behind it, a continuation an indented line that says something |
| `Decided.BulletReads` | src/all_tomorrow/console/ideas_rounds.py:77-85 | A bullet reads as its text and that of the indented lines up to the next bullet |
| `Decided.BodyMeans` | src/all_tomorrow/console/ideas_rounds.py:160-161 | The kept body is the section's lines as they are up to the last that is not blank, unless it is a lone "없음" |
| `Decided.OnlyTheSectionChanges` | src/all_tomorrow/console/ideas_rounds.py:154-162 | A rewrite adds the lost lines in their order at the end of the section, or in a new one on top, and changes nothing outside it |
| `Synthesis.IdeaStore.SynthJob` | src/all_tomorrow/console/ideas.py:697-718 | The job, or none, and the clearing of a synthesis whose inputs are gone |
| `Synthesis.IdeaStore.SetSynthesis` | src/all_tomorrow/console/ideas.py:726-737 | Refuses a text that is empty once stripped; otherwise stores the stripped text, rewritten, and the signatures |
| `Synthesis.ChainIsTheKeys` | src/all_tomorrow/console/ideas.py:697-737 | For any interleaving of edits, jobs and saves, the inputs handed over along the chain of the stored text are exactly the input signatures in its keys, and only the keys' idea text and direction went in |
| `Synthesis.CurrentMeansRebuilt` | src/all_tomorrow/console/ideas.py:697-718 | When no job is due the chain was handed exactly what a full rebuild would be, if a signature never stands for two contents |
| `Synthesis.RebuiltIff` | src/all_tomorrow/console/ideas.py:651-718 | Being current means being rebuilt, in every run over a set of inputs, if and only if no signature has two contents there |
| `Synthesis.RewordedIsNotRebuilt` | src/all_tomorrow/console/ideas.py:651-718 | An input synthesised and then reworded under its signature: the idea counts as current and the chain still rests on the old wording |
| `Synthesis.SaveSettles` | src/all_tomorrow/console/ideas.py:697-737 | A save with a job's signatures and no later change makes the next job none |
| `Synthesis.JobMeans` | src/all_tomorrow/console/ideas.py:697-718 | A job is due exactly if the signatures differ from the keys and there are inputs; when it is incremental, and then it hands over exactly the inputs not yet in the keys |
| `Synthesis.PiecesMean` | src/all_tomorrow/console/ideas.py:651-664 | The inputs are the compressed entries that count, newest first, under the signature of their wording's time |
| `Synthesis.SigsAre` | src/all_tomorrow/console/ideas.py:691-695 | The signatures are those of the inputs, results before materials, then of the idea's text and the direction |
| `Synthesis.NewInputAloneIsHanded` | src/all_tomorrow/console/ideas.py:714-718 | A new input to a settled idea is handed over alone, on top of the stored text |
| `Synthesis.ChangeRebuilds` | src/all_tomorrow/console/ideas.py:714-718 | A changed text or direction, or an input that is gone, rebuilds from everything |
| `Synthesis.DecidedStaysInRuns` | src/all_tomorrow/console/ideas.py:697-737 | A decided line stays listed through any run of edits, jobs and saves of fit texts |
| `Synthesis.SameSecondGoesUnnoticed` | src/all_tomorrow/console/ideas.py:651-664 | A summary rewritten within one second keeps its signature: the idea counts as current exactly as before |
| `DmStore.DmStore.Receive` | src/all_tomorrow/console/eve_dm.py:74-95 | The loops leave the specified tables; added counts the new rows, added and duplicates the turns |
| `DmStore.StateIsTheNewest` | src/all_tomorrow/console/eve_dm.py:88-94 | For any batches, order and repeats a user shows the state and time of the newest event received, the last to arrive among equals |
| `DmStore.NewestMeans` | src/all_tomorrow/console/eve_dm.py:88-94 | The newest event is the latest one, last in arrival among equals |
| `DmStore.Converges` | src/all_tomorrow/console/eve_dm.py:88-94 | Histories with the same events agree on a user's state unless its latest events contradict each other |
| `DmStore.DistinctTimesAreUntied` | src/all_tomorrow/console/eve_dm.py:88-94 | Distinct times never contradict |
| `DmStore.TiesDiverge` | src/all_tomorrow/console/eve_dm.py:88-94 | Where latest events do contradict, two histories with the same events disagree |
| `DmStore.TurnsAreTheUnion` | src/all_tomorrow/console/eve_dm.py:78-87 | The stored turns are exactly the union of the message ids, each as it first arrived |
| `DmStore.TurnMeans` | src/all_tomorrow/console/eve_dm.py:78-87 | A turn creates an unknown user as unlocked, names its user if it carries a name, touches no other, and is stored once with the batch and time it came with |
| `DmStore.AccessMeans` | src/all_tomorrow/console/eve_dm.py:88-94 | An access event touches its user alone, and not at all if it is older than what is shown |
| `DmStore.TurnsName` | src/all_tomorrow/console/eve_dm.py:81-82 | Of the turns of a batch the last that carries a name names the user |
| `DmStore.InOrderSorts` | src/all_tomorrow/console/eve_dm.py:88-88 | The sort by time is a sorted permutation |
| `DmStore.InOrderIsStable` | src/all_tomorrow/console/eve_dm.py:88-88 | Events of one time keep their order |
| `Auth.AuthEngine.Login` | src/all_tomorrow/auth.py:104-128 | The new accounts, sessions and the reply on every path |
| `Auth.AuthEngine.Authenticate` | src/all_tomorrow/auth.py:130-142 | The touched session, or the reason for refusal with nothing changed |
| `Auth.AuthEngine.Revoke` | src/all_tomorrow/auth.py:144-147 | Marks an existing session revoked |
| `Auth.AuthEngine.Register` | src/all_tomorrow/auth.py:101-102 | A fresh account, unless the password is empty |
| `Auth.LockoutBound` | src/all_tomorrow/auth.py:110-118 | Any span without a success checks at most max_failed + floor(span / lockout) wrong passwords |
| `Auth.LockoutBoundsGuessing` | src/all_tomorrow/auth.py:110-118 | The same after any past of the engine |
| `Auth.LockoutBoundIsMet` | src/all_tomorrow/auth.py:110-118 | For every number of lockout periods a span in time order and without success reaches the bound exactly |
| `Auth.DeadForever` | src/all_tomorrow/auth.py:66-73 | A session that is expired, revoked or rotated away never authenticates again |
| `Auth.RefusedOnceRefusedForever` | src/all_tomorrow/auth.py:130-142 | An issued session id refused once as invalid is refused for ever |
| `Auth.GrantedIff` | src/all_tomorrow/auth.py:104-128 | In any run a login is let in if and only if the account is not locked and the password is that of the last registration |
| `Auth.LoginMeans` | src/all_tomorrow/auth.py:104-128 | A granted login holds a new session with the user's role, drops the prior one and clears counter and lock; a wrong password counts and locks at the limit; every other login changes nothing |
| `Auth.AccountIsTheRegistration` | src/all_tomorrow/auth.py:101-102 | Whatever happened, an account has the password and role of its last registration |
| `Auth.SessionsAreIssued` | src/all_tomorrow/auth.py:119-128 | In any run every session the engine holds is under an id that it issued |
| `Auth.SessionIsTracked` | src/all_tomorrow/auth.py:119-147 | After any run the engine holds a session as issued with its last use, unless it was revoked or rotated away |
| `Auth.AuthenticatedIff` | src/all_tomorrow/auth.py:130-142 | After any run a request is let through if and only if its session was neither revoked nor rotated away, is within idle of its last use and absolute of its creation, and the token is its own where one is needed |
| `Auth.RequestMeans` | src/all_tomorrow/auth.py:130-142 | A request that is let through only marks the use; any other changes nothing, and the token is blamed exactly on a valid session |
| `Memory.Chain` | src/all_tomorrow/console/memory.py:131-140 | The ancestor walk ends, also on cyclic parents, and returns the specified path |
| `Memory.WalkClimbs` | src/all_tomorrow/console/memory.py:131-140 | No process comes twice, each is followed by its listed parent, and the walk stops only at a missing parent, the system or a repeat |
| `Memory.GroupMeans` | src/all_tomorrow/console/memory.py:154-184 | Which group a process is charged to, by what stands on its way up |
| `Memory.ByPidIsTheLast` | src/all_tomorrow/console/memory.py:129-129 | Of several processes listed with one pid the last counts |
| `Memory.ChargeAll` | src/all_tomorrow/console/memory.py:154-184 | Every entry of every accumulator is the memory of exactly the processes of its group |
| `Memory.NameHelpers` | src/all_tomorrow/console/memory.py:190-196 | Naming the helpers moves their memory to session lines and conserves it |
| `Memory.Classify` | src/all_tomorrow/console/memory.py:127-196 | Every line of the view is the memory of exactly its groups; the lines add up to the total less what the headless line overwrites |
| `Memory.ConservedIff` | src/all_tomorrow/console/memory.py:185-186 | The total is conserved if and only if there is no headless memory or nothing else under that label |
| `Memory.MemoryCanBeLost` | src/all_tomorrow/console/memory.py:185-186 | A process list on which the headless line overwrites another program's memory |
| `ContextPack.BuildContextPack` | src/all_tomorrow/context_pack.py:51-88 | Refuses at the first item of another owner, otherwise the specified pack |
| `ContextPack.OrderDoesNotMatter` | src/all_tomorrow/context_pack.py:70-71 | The pack is the same for every permutation of the items, unless two differ under one authority and ref |
| `ContextPack.AtMostMeans` | src/all_tomorrow/context_pack.py:71-71 | Refs are compared as strings: a prefix, or the smaller at the first difference |
| `ContextPack.PackIsExact` | src/all_tomorrow/context_pack.py:71-88 | Selected and omitted items partition the input, the total is exact and within budget, and no omitted item still fits |
| `ContextPack.EarlierItemsWin` | src/all_tomorrow/context_pack.py:75-80 | Against any other choice within the budget the first difference is an item taken here and passed over there |
| `ContextPack.DataNeverTouchesControl` | src/all_tomorrow/context_pack.py:71-83 | The control part is that of the control items alone |
| `ContextPack.AuthorityOf` | src/all_tomorrow/context_pack.py:44-48 | CONTROL if and only if a control item has the ref; none if and only if no item has |
| `ContextPack.PackKeepsAuthoritiesApart` | src/all_tomorrow/context_pack.py:82-83 | Control items and data items of a built pack carry those authorities |
| `ContextPack.OrderMattersIff` | src/all_tomorrow/context_pack.py:70-88 | For non-negative sizes the order of the input matters if and only if two different items under one authority and ref still fit when its turn comes |

## Left out

- The Postgres and DBOS variants of the stores and the durable adapter: SQL and SDK semantics; the in-memory ones are modelled.
- HTTP routers, console pages, the MCP server, device client, process spawning and shell hooks: plumbing.
- Policy tables, owners, priority, feedback, milestones and evaluation: each rule is one branch that can be read off the code.
- Cancellation and the clean-up of broken Work: best effort by design, so not part of the Work/Run coupling; Bridge has it only as a write by others.
- Goal completion and what its evidence holds: the model has only the transition table and that evidence is there.
- Deliveries without a run id, whose dispatch and probe fallbacks differ, and the handlers of other kinds beyond whether they have a probe.
- Delivery.CandidPortNeedsNoIdempotence: assumes that a probe does not find a dead execution, after which the record is FAILED and the next call starts again.
- Delivery.RunKeepsBudget: one clock reading stands for the two that a call makes.
- Journal: the read tool and the agent are fixed functions of the input, as the deterministic fixtures are; timers end at once; a call that finds no signal ends as blocked, where the adapter awaits one, and is made again.
- Submission.WebControl.Submit: the text is taken already stripped; the audit trail of requests beyond their deliveries is not modelled.
- DeviceLeases: online and offline status derived from the last heartbeat is not modelled.
- Executor: questions are not stored, only the answer's arrival; priorities and the claim limit, since which PENDING Work is claimed is left open.
- Executor.CoupledInEveryRun: holds of runs without store faults and deaths, since with them its FAILED and WAITING clauses fail; exactly when they do, and what still holds, is stated in ExecutorFaults. One Work is modelled, because no operation touches two.
- Executor.NobodyRunsItAgain: a bridge pass, which would list the resumed STARTING Run, is not among the steps of this machine.
- ExecutorFaults.StuckForever: the same holds of it where the active Run is STARTING.
- Decided: a heading pattern that spans lines, runs of blanks inside the heading, and control characters that only one of the two line splitters breaks at.
- Synthesis: who writes the text and what it says; only what was handed over is followed, without the labels of the inputs and without decided lines that a save carries over from a stored text outside the chain. Deletion of the idea itself is not modelled.
- DmStore.StateIsTheNewest: the shown user name depends on arrival and is not claimed to converge.
- Auth: roles and role checks; constant-time comparison.
- Memory: the reading of names and command lines, counts, rounding and the listing; floating point sums are integers here.
- Memory.Classify: the per-label totals over sessions are left out.
- ContextPack: objective and summary are carried along only.
