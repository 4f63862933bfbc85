# Verified model of the Tomiris orchestrator and its technical analysis

This project models, in Dafny, the parts of the Tomiris hub whose correctness depends on several pieces of
code at once, and proves what they guarantee:

* **The orchestration protocol.** Planner, dispatch worker, signal ingestion, restart recovery and
  completeness evaluator share the tables of runs, tasks, agent states, signals and nonces. `Protocol.dfy`
  is the interleaving of their transactions, for any number of workers, with crashes and a clock. The
  invariants are proved step by step (`Agreement`, `Leases`, `Attempts`, `Circuits`, `Verdicts`, `Coverage`)
  and the results about whole runs of the protocol are in `Theorems`, `Finality`, `Reopening`, `AttemptLimits`,
  `HalfOpen`, `Convergence` and `Admission`. `Effects` says, from the rows before and after it, what every
  transaction writes and when. `Scenarios` builds runs of the protocol step by step, for the results that need
  one, and `Completion` is the run that goes well.
* **The services themselves.** `DispatchWorker`, `Evaluator`, `RecoveryService`, `IngestionService`,
  `PlannerService` and `OrchestratorService` are classes over a mutable `Database` with the loops and
  branches of the original. Each transaction is proved equal to the step that the protocol takes, and
  `CycleSchedule` turns a whole cycle into a sequence of such steps.
* **The technical analysis engine.** `Indicators` and `Technical` define what is computed, and
  `TechnicalEngine` computes it with loops and reassigned locals. `Timeframes` and `Judgements` say what the state
  of a timeframe and a verdict mean. `Reflection`, `Scaling`, `Unanimity` and
  `Trends` prove laws that hold from the price bars to the verdict, and `ReflectionLimits` shows on bars where
  one of them ends.
* **Two smaller state machines.** `RuntimeStore` (bounded replay and idempotency store against its
  unbounded log) and `Outbox` (notification leases without an owner check).

Check everything with `dafny verify dfyconfig.toml`.

## Assumptions

* Each database transaction is one atomic step. The code does not fully enforce it: recovery and the
  evaluator read tasks without row locks (`src/tomiris_orchestrator/recovery.py:53-61`,
  `src/tomiris_orchestrator/quorum.py:45-53`), and services read the clock just before their transaction.
* There is one clock, it never runs backwards, and a time is a whole number of ticks.
* Workers have distinct ids, share one configuration, and finish or abandon a batch before they claim again
  (`src/tomiris_orchestrator/dispatch.py:62-67`).
* What a service cannot control is a parameter that may take any value: the registry tables at every planning
  and ingestion, the rows that other transactions lock, the transport's answers, the time that passes between
  two readings of the clock, the delay drawn by the backoff, the order of rows with equal sort keys.
* Names and UUIDs are natural numbers; freshly generated UUIDs are fresh.
* The fields of `History`, and the attempt number and lease end carried by a `Command`, are read by
  specifications only.
* Floats are exact reals. `spread` stands for `pstdev` of the logarithms of the price ratios: any function of
  the sequence of ratios.

## Where the code differs from its documentation, or from what one might expect

* A finished run is not final when several workers run: a late acknowledgement sets it back to COLLECTING
  (`src/tomiris_orchestrator/dispatch.py:216`). `Finality.ReopenedIffAcknowledged` names the exact step,
  `Reopening.FinalIff` exactly the states from which a finished run is final,
  `Finality.LateAcknowledgementReopens` builds such a run of the protocol for every configuration, and
  `Theorems.VerdictsNeverImprove` is the law that survives.
* `docs/adr/PHASE_02_DECISIONS.md:38` promises one half-open recovery after the cooldown. The code counts
  nothing (`src/tomiris_orchestrator/dispatch.py:125-133`): `HalfOpen.OneProbeIff` says exactly when a claim
  keeps to one probe, and `HalfOpen.TwoProbes` builds, for every configuration, a run of the protocol with two
  probes in flight to one agent.
* `attempt_count` may exceed `max_attempts`, because a claim does not look at it.
  `AttemptLimits.ExceededIffClaimed` gives the exact step and `AttemptLimits.MaximumExceededIff` exactly the
  configurations, backoffs and dispatch windows for which some run does it. With the default settings it takes
  a dispatch timeout above 117.5 seconds (`AttemptLimits.DefaultSettingsLimit`).
  `AttemptLimits.ShortWindowKeepsMaximum` is a simple rule that prevents it (no dispatch window longer than the
  lease; exact when one attempt is allowed), and `AttemptLimits.SecondAttemptExample` a run.
* Claims treat a lease that ends now as held, recovery treats it as expired. Both keep
  `Theorems.OneLiveCommand`.
* Of the clamps in the analysis, those on the score, on the RSI and around the confidences never change a
  value. Two inner ones do: `Unanimity.NeutralClamps` and `Unanimity.DirectionalClamps` say exactly when, and
  `Trends.ConflictClampsToZero` and `Trends.ClimbIsCapped` show it on bars.
* The reflection law needs RSI thresholds that are symmetric around 50: `ReflectionLimits.ReflectionHoldsIff`.
  It leaves out the volatility states, and with them HIGH_VOLATILITY, because they are relative to the price
  level: `ReflectionLimits.VolatilityMirroredIff` says exactly when HIGH_VOLATILITY is mirrored, and
  `ReflectionLimits.VolatilityIsNotMirrored` is a case where it is not.

## Model

| member | source | states |
|---|---|---|
| `Theorems.EveryStateIsGood` | src/tomiris_orchestrator/service.py:93-97 | The protocol invariant (tables agree, leases are held, attempts are counted, circuits follow results, verdicts are locked, capabilities are covered) holds in every state of every interleaving. |
| `Theorems.VerdictsNeverImprove` | src/tomiris_orchestrator/quorum.py:79-105 | Whatever outcomes a run shows at two times, FULL stays FULL, CRITICAL stays CRITICAL and DEGRADED only becomes CRITICAL, reopenings included. |
| `Theorems.VerdictsAreAppended` | src/tomiris_orchestrator/quorum.py:103-105 | The history of verdicts of a run only grows at its end. |
| `Theorems.OutcomesStay` | src/tomiris_orchestrator/quorum.py:103-105 | A run that has an outcome always has one. |
| `Theorems.QuorumIsSound` | src/tomiris_orchestrator/quorum.py:61-92 | A run with outcome FULL or DEGRADED holds, for every required capability, stored signals of at least the minimum number of distinct agents; a FULL run does so for every capability. |
| `Theorems.ReceivedIffOneSignal` | src/tomiris_hub/services/signal_ingestion.py:91-150 | A task is SIGNAL_RECEIVED if and only if exactly one stored signal carries its id, and that signal has the task's agent, run, snapshot and asset and came before its deadline. |
| `Theorems.NoncesMatchSignals` | src/tomiris_hub/database/models.py:66-73 | Stored nonces and stored signals are in bijection, agent by agent. |
| `Theorems.EndedTasksStay` | src/tomiris_orchestrator/quorum.py:15 | A task in a terminal state keeps its whole row for ever. |
| `Theorems.OneLiveCommand` | src/tomiris_orchestrator/dispatch.py:76-88 | At most one in-flight command of a task has an unexpired lease, and no two come from one attempt, across recovery and crashes. |
| `Theorems.ResultsAreFenced` | src/tomiris_orchestrator/dispatch.py:171-182 | A recorded result changes the database if and only if its task is still on the very attempt and lease that sent the command, although no token is compared; it ends that attempt and touches no other task. |
| `Theorems.AttemptsAreBounded` | src/tomiris_orchestrator/dispatch.py:256-268 | Results schedule at most max_attempts - 1 retries of a task, and attempts beyond max_attempts satisfy (attempts - max_attempts) * lease < dispatch_deadline - created_at. |
| `Theorems.CircuitsFollowResults` | src/tomiris_orchestrator/dispatch.py:235-240 | In every state the failure count is the number of failed results since the agent's last acknowledgement, CLOSED means below the threshold, and a claim that sends to an agent at the threshold comes circuit_open_seconds after its latest failure. |
| `Finality.ReopenedIffAcknowledged` | src/tomiris_orchestrator/dispatch.py:205-216 | A step changes the status of a finished run if and only if it records an acknowledgement of one of its tasks. |
| `Reopening.FinalIff` | src/tomiris_orchestrator/dispatch.py:171-216 | In every reachable state, a finished run keeps its status whatever any number of workers do from then on, if and only if no command of it is in flight whose result would still be recorded. |
| `Reopening.CanReopen` | src/tomiris_orchestrator/dispatch.py:205-216 | From any reachable state with such a command, the steps that reopen the run. |
| `Finality.FinishedStaysFinished` | src/tomiris_orchestrator/dispatch.py:108-118 | When runs are evaluated only while nothing is in flight, a finished run keeps its terminal status. |
| `Finality.OneWorkerIsFinal` | src/tomiris_orchestrator/service.py:93-97 | One worker following its cycle, with signals and crashes interleaved, never reopens a finished run. |
| `Finality.LateAcknowledgementReopens` | src/tomiris_orchestrator/dispatch.py:205-216 | For every valid configuration, a run of the protocol whose last step returns a DEGRADED run to COLLECTING. |
| `CycleSchedules.CycleIsASegment` | src/tomiris_orchestrator/service.py:93-97 | The tables that a cycle leaves are those of a sequence of protocol steps on the schedule of one worker, and nothing of the worker is in flight afterwards. |
| `CycleSchedules.FinishedRunsSurviveCycles` | src/tomiris_orchestrator/service.py:93-97 | A run that is finished after some cycles of the only worker keeps its status through all further ones. |
| `AttemptLimits.ExceededIffClaimed` | src/tomiris_orchestrator/dispatch.py:76-88 | A step takes a task above max_attempts if and only if it is a claim that starts a task which already used up the maximum. |
| `AttemptLimits.AttemptsPossible` | src/tomiris_orchestrator/dispatch.py:134-137 | For any least delay after each attempt: attempt n of a task is reached in some run of the protocol if and only if its earliest possible start, from backoff, cooldown and lease, lies within the dispatch window. |
| `AttemptLimits.MaximumExceededIff` | src/tomiris_orchestrator/dispatch.py:256-268 | max_attempts is exceeded in some run if and only if the earliest start of the last allowed attempt, plus one lease, is less than the dispatch window. |
| `AttemptLimits.MaximumExceededConstant` | src/tomiris_orchestrator/dispatch.py:256-268 | With a backoff that does not grow: (max_attempts - 1) times the shortest gap, plus one lease. |
| `AttemptLimits.DoublingIsTheLeastDelay` | src/tomiris_orchestrator/backoff.py:19-21 | The least delays used for the service are those of its backoff: no random number gives a shorter one, and zero gives this one. |
| `AttemptLimits.DefaultSettingsLimit` | src/tomiris_hub/core/config.py:47-55 | With the default settings and the doubling backoff a sixth attempt is possible if and only if the dispatch timeout exceeds 117.5 seconds. |
| `AttemptLimits.ShortWindowKeepsMaximum` | src/tomiris_orchestrator/dispatch.py:134-138 | A dispatch window within one lease keeps the task at or below max_attempts in every state of every run. |
| `AttemptLimits.AttemptIsReached` | src/tomiris_orchestrator/recovery.py:81-91 | Builds a run that starts attempt n as early as possible, through failures, acknowledgements of other tasks, crashes and recoveries. |
| `AttemptLimits.SecondAttemptExample` | src/tomiris_orchestrator/dispatch.py:134-137 | With one allowed attempt, a lease of 1 and a window of 3, a run makes a second attempt. |
| `HalfOpen.OneProbeIff` | src/tomiris_orchestrator/dispatch.py:125-133 | A claim to a half-open or cooled-down agent sends at most one command if and only if at most one selected row asks for it; over all workers exactly when, besides, no other command to it is in flight. |
| `HalfOpen.ProbesAreTheRowsThatAsk` | src/tomiris_orchestrator/dispatch.py:94-169 | The probes of a claim are exactly the commands of the rows with an unfinished run and an endpoint. |
| `HalfOpen.TwoProbes` | src/tomiris_orchestrator/dispatch.py:125-138 | For every valid configuration, a run of the protocol ends with two live probes of different tasks, from two workers, to one agent whose circuit is HALF_OPEN. |
| `Convergence.RepairConverges` | src/tomiris_orchestrator/recovery.py:73-103 | A repair leaves a task with nothing to repair, changes it if and only if there was something to repair, and respects live leases, attempts and identity. |
| `Convergence.ReconcileConverges` | src/tomiris_orchestrator/recovery.py:51-119 | From any tables: every task of a selected run ends repaired, no other row changes, no selected run stays TIMED_OUT, and a second pass at the same time changes nothing. |
| `Admission.PlanIsAdmissible` | src/tomiris_orchestrator/planner.py:96-172 | A new run is CRITICAL with every task CANCELLED if and only if some required capability found too few agents; otherwise all tasks are PENDING and each required capability has at least its minimum. Deadlines are ordered, assignments are unique, older tasks are unchanged. |
| `Agreement.StepEvolves` | src/tomiris_orchestrator/dispatch.py:69-345 | Every step of every service keeps the plan of every run and the row of every ended task, and completes a task only before its signal deadline. |
| `Agreement.StepKeepsTables` | src/tomiris_hub/database/models.py:317-342 | The table constraints (ordered deadlines, unique assignments) and the agreement of signals, tasks and nonces survive every step. |
| `Agreement.RepairKeepsSignals` | src/tomiris_orchestrator/recovery.py:62-74 | In reachable states the signals of a run name exactly its received tasks, so a repair never has to complete one. |
| `Agreement.PlanKeepsUniqueness` | src/tomiris_hub/database/models.py:332-342 | Planning keeps one task per run, agent and capability. |
| `Effects.ClaimWrites` | src/tomiris_orchestrator/dispatch.py:94-138 | A claimed task is CANCELLED, FAILED, set to RETRY at the end of the cooldown, or leased and counted, exactly according to its run, endpoint and circuit; no other row changes. |
| `Effects.ClaimWritesAgents` | src/tomiris_orchestrator/dispatch.py:97-133 | A circuit becomes HALF_OPEN if and only if it was OPEN and an attempt at its agent starts; agents without a row get a closed circuit. |
| `Effects.ClaimableWhen` | src/tomiris_orchestrator/dispatch.py:76-88 | PENDING and RETRY tasks may be claimed between dispatch_after and the dispatch deadline, DISPATCHING ones from the instant after their lease, others never. |
| `Effects.ClaimsByPriority` | src/tomiris_orchestrator/dispatch.py:89-90 | A claimable task that is left waiting comes after every claimed one: lower priority, or the same and not older, and the batch is full. |
| `Effects.WaitingTaskIsSent` | src/tomiris_orchestrator/dispatch.py:69-169 | A claimable task with fewer rivals than the batch size, an open run, an endpoint and no cooldown gets a command for its next attempt. |
| `Effects.ResultWrites` | src/tomiris_orchestrator/dispatch.py:197-289 | After a result that applies: WAITING_SIGNAL if and only if it is an acknowledgement; RETRY, at the later of now + delay and the end of the cooldown, if and only if it is retryable, attempts are left and the deadline has not passed; FAILED otherwise. The lease ends, attempts and identity stay. |
| `Effects.ResultWritesAgent` | src/tomiris_orchestrator/dispatch.py:209-240 | An acknowledgement resets the circuit and sets the run to COLLECTING; a failure adds one and opens the circuit from the threshold on. |
| `Effects.ExpiryWrites` | src/tomiris_orchestrator/dispatch.py:308-327 | Exactly the unlocked, unacknowledged tasks at or past their dispatch deadline become TIMED_OUT without a lease. |
| `Completion.AnsweredRunIsFull` | src/tomiris_orchestrator/service.py:93-97 | For every valid configuration, a run of the protocol in which the task is sent, acknowledged and answered, and the run is FULL before its deadline. |
| `Effects.SignalWrites` | src/tomiris_hub/services/signal_ingestion.py:119-172 | An accepted signal is stored, its nonce used up, and its task alone completed. |
| `Effects.RepairWrites` | src/tomiris_orchestrator/recovery.py:73-103 | A repair completes an answered task, retries or ends an interrupted dispatch by its deadline, ends an overdue one, and touches no other. |
| `Effects.RecoveredIffChanged` | src/tomiris_orchestrator/recovery.py:104-117 | A run is reported recovered if and only if its repair changes something; a TIMED_OUT run is COLLECTING again. |
| `Effects.RepairsOldestFirst` | src/tomiris_orchestrator/recovery.py:36-48 | No unlocked, unfinished run that is left out is older than a repaired one, and the batch is then full. |
| `Effects.EvaluationWrites` | src/tomiris_orchestrator/quorum.py:61-105 | At any time, an evaluation of an unsettled run writes a verdict if and only if the deadline has passed, all tasks have ended, a required capability is out of reach, a critical one lost a task, or everything planned was received with no optional gap; CRITICAL, FULL and DEGRADED each exactly when the counts of tasks say so. |
| `Effects.MissingAreShort` | src/tomiris_orchestrator/quorum.py:69-70 | A capability is reported missing if and only if a required minimum for it exceeds its number of received tasks. |
| `Evaluator.ReportAgreesWithRow` | src/tomiris_orchestrator/quorum.py:94-153 | Status, outcome and completion of the answer are those of the run row left behind, and expected and received count its tasks. |
| `Effects.RouteWrites` | src/tomiris_orchestrator/routing.py:31-50 | Routed agents are enabled, have an endpoint, the capability and the asset, in order of their ids; one is passed over only when the limit is reached by smaller ids. |
| `Effects.GapsName` | src/tomiris_orchestrator/planner.py:106-108 | The gap lists name exactly the capabilities of their kind with too few routed agents. |
| `Effects.PlanWritesTask` | src/tomiris_orchestrator/planner.py:145-171 | Every new task serves a requirement with an agent routed to it, goes first if that is critical, has the deadlines of the policy and no attempt, and is PENDING unless a required gap cancels it. |
| `Effects.PlanWritesRun` | src/tomiris_orchestrator/planner.py:111-132 | The new run has the deadline of the policy and the gaps found, and is CRITICAL and completed at once if and only if a required one exists; all other rows stay. |
| `Leases.ClaimSends` | src/tomiris_orchestrator/dispatch.py:134-168 | A claim sends commands only for claimable tasks whose dispatch it starts, each for the attempt that follows. |
| `Leases.ClaimableHasNoLiveCommand` | src/tomiris_orchestrator/dispatch.py:76-88 | A task that may be claimed has no command with an unexpired lease. |
| `Leases.StepKeepsLeasing` | src/tomiris_orchestrator/dispatch.py:134-138 | Leases, commands in flight and attempts stay consistent under every step. |
| `Attempts.StartCounts` | src/tomiris_orchestrator/dispatch.py:134-137 | An attempt starts no earlier than the gap after the one before allows: the backoff or cooldown below the maximum, a full lease from then on. |
| `Attempts.EarliestStartAbove` | src/tomiris_orchestrator/dispatch.py:256-268 | Above the maximum every further attempt takes one full lease. |
| `Attempts.EarliestStartConstant` | src/tomiris_orchestrator/dispatch.py:256-268 | With the same backoff after every attempt, the earliest start below the maximum in closed form. |
| `Attempts.StepKeepsCounts` | src/tomiris_orchestrator/dispatch.py:256-268 | The attempt and retry accounting survives every step. |
| `Circuits.StepKeepsCircuits` | src/tomiris_orchestrator/dispatch.py:209-240 | The circuit of every agent stays the one that its recorded results call for. |
| `Circuits.DispatchRespectsCooldown` | src/tomiris_orchestrator/dispatch.py:125-133 | A dispatch to an agent whose failures reached the threshold starts only after the cooldown. |
| `Circuits.TrailingFailuresMeaning` | src/tomiris_orchestrator/dispatch.py:209-240 | The count is that of the failures after the latest acknowledgement. |
| `Verdicts.CountsEvolve` | src/tomiris_orchestrator/quorum.py:62-68 | Per capability, received tasks never shrink and received plus unfinished tasks never grow. |
| `Verdicts.ReceivedFrozen` | src/tomiris_orchestrator/planner.py:162-166 | No signal completes a task at or after the collection deadline of its run. |
| `Verdicts.DecisionLocks` | src/tomiris_orchestrator/quorum.py:85-92 | Every verdict is written for a reason that rules out a better one. |
| `Verdicts.LockForces` | src/tomiris_orchestrator/quorum.py:85-92 | While that reason stands, any later evaluation decides the same or worse. |
| `Verdicts.LockStays` | src/tomiris_orchestrator/quorum.py:61-92 | The reason survives every step of every service. |
| `Coverage.PlannedCapTasks` | src/tomiris_orchestrator/planner.py:106-109 | Planning adds at least one task of a capability for each agent routed to it. |
| `Coverage.ReceivedMeansSignals` | src/tomiris_hub/services/signal_ingestion.py:91-119 | Received tasks of a run and capability are witnessed by as many stored signals of distinct agents. |
| `Dispatch.CommandsAreStarts` | src/tomiris_orchestrator/dispatch.py:94-169 | A claim sends exactly one command for each task that it starts, and none for another. |
| `DispatchWorkers.ClaimOneMore` | src/tomiris_orchestrator/dispatch.py:94-138 | Visiting one more row of a claim, after circuits were half-opened by earlier rows, has the effect that the tables before the claim determine: the order of the rows does not matter. |
| `DispatchWorkers.DispatchWorker.Claim` | src/tomiris_orchestrator/dispatch.py:69-169 | The batch is the first claimable, unlocked rows by descending priority and creation time; the tables become those of the protocol's claim step, and the commands those of the started tasks in row order. |
| `DispatchWorkers.DispatchWorker.ClaimRow` | src/tomiris_orchestrator/dispatch.py:94-168 | One turn of the claim loop: missing state row, finished run, missing endpoint, open circuit, start. |
| `DispatchWorkers.DispatchWorker.RecordResult` | src/tomiris_orchestrator/dispatch.py:171-306 | Recording a result is the protocol's record step on every table, whose effect `Effects.ResultWrites` and `Effects.ResultWritesAgent` state. |
| `DispatchWorkers.DispatchWorker.DispatchOnce` | src/tomiris_orchestrator/dispatch.py:62-67 | A claim followed by one recorded result for each of its commands, in order. |
| `DispatchWorkers.DispatchWorker.ExpireDispatchDeadlines` | src/tomiris_orchestrator/dispatch.py:308-345 | Exactly the unlocked PENDING, RETRY and DISPATCHING tasks past their dispatch deadline time out and lose their lease; their number is returned. |
| `Evaluator.CountCapability` | src/tomiris_orchestrator/quorum.py:62-77 | Counts the received and unfinished tasks of a capability and finds a lost one. |
| `Evaluator.CompletenessEvaluator.Judge` | src/tomiris_orchestrator/quorum.py:69-77 | Short, hopeless and critically failed requirements are recognised exactly. |
| `Evaluator.CompletenessEvaluator.Survey` | src/tomiris_orchestrator/quorum.py:58-77 | The loop lists exactly the missing capabilities in policy order and sets both flags exactly when some requirement calls for them. |
| `Evaluator.CompletenessEvaluator.Decision` | src/tomiris_orchestrator/quorum.py:79-101 | The branches choose the verdict of the completeness rule, which `Effects.EvaluationWrites` states in counts of tasks. |
| `Evaluator.CompletenessEvaluator.Evaluate` | src/tomiris_orchestrator/quorum.py:39-153 | An evaluation is the protocol's evaluate step (`Effects.EvaluationWrites` says what it writes and when); unknown runs are an error, settled runs are answered from the stored row. |
| `Quorum.ShortCapabilitiesNonEmpty` | src/tomiris_orchestrator/quorum.py:69-70 | Something is reported missing if and only if a required capability is short. |
| `RecoveryServices.RecoveryService.RepairTask` | src/tomiris_orchestrator/recovery.py:73-103 | One turn of the inner loop, and whether it changed the task. |
| `RecoveryServices.RecoveryService.RepairRun` | src/tomiris_orchestrator/recovery.py:51-117 | Repairing one run is the protocol's repair of that run; it counts as recovered if and only if a task changed or the run was TIMED_OUT. |
| `RecoveryServices.RepairOneMore` | src/tomiris_orchestrator/recovery.py:51-117 | The repairs of different runs do not interfere. |
| `RecoveryServices.RecoveryService.Reconcile` | src/tomiris_orchestrator/recovery.py:31-120 | The oldest unfinished, unlocked runs are repaired in one transaction and then all evaluated; the recovered ones are returned in order. |
| `RecoveryServices.RecoveryService.EvaluateRuns` | src/tomiris_orchestrator/recovery.py:118-119 | Every selected run is evaluated, one after the other. |
| `Ingestion.AcceptedIff` | src/tomiris_hub/services/signal_ingestion.py:47-117 | A signal is accepted if and only if it is fresh, its agent is authorised for the snapshot, its nonce and message id are new, and it is the first answer to a dispatched, open task of its own agent, run, snapshot and asset before the deadline. |
| `Ingestion.RejectionIsFirst` | src/tomiris_hub/services/signal_ingestion.py:47-117 | A rejection is the first, in the order of the guards, that is true of the signal; when none is, the signal is accepted, or refused as a duplicate because its task has a signal. |
| `IngestionServices.SignalIngestionService.Ingest` | src/tomiris_hub/services/signal_ingestion.py:39-202 | Nonce, signal and task are written together; on every rejection, also one after the nonce was written, the tables are as before, and the rejection is that of the first failing guard. |
| `IngestionServices.SignalIngestionService.Transact` | src/tomiris_hub/services/signal_ingestion.py:59-172 | The transaction body, which touches no table but signals, nonces and tasks. |
| `PlannerServices.PlanningFault` | src/tomiris_orchestrator/planner.py:90-94 | Planning is refused unless the snapshot is known, open and current, the condition of the plan step of the protocol. |
| `PlannerServices.OrchestrationPlanner.Create` | src/tomiris_orchestrator/planner.py:42-208 | Wrong triggers, unknown and stale snapshots are refused without effect; planning a stored run adds nothing and answers with its task ids in order; a new run is the protocol's plan step. |
| `PlannerServices.OrchestrationPlanner.PlanNew` | src/tomiris_orchestrator/planner.py:96-208 | The run, its gaps and its tasks are written as planned. |
| `PlannerServices.OrchestrationPlanner.Assign` | src/tomiris_orchestrator/planner.py:96-109 | The loop over the requirements collects the routed agents and the missing required and optional capabilities. |
| `PlannerServices.OrchestrationPlanner.AddTasks` | src/tomiris_orchestrator/planner.py:145-172 | One task for each assignment, nothing else. |
| `PlannerServices.OrchestrationPlanner.Select` | src/tomiris_orchestrator/routing.py:23-50 | The first enabled agents by id with the capability and the asset, up to the limit. |
| `PlannerServices.OrchestrationPlanner.StoredTasks` | src/tomiris_orchestrator/planner.py:65-73 | Exactly the tasks of the run, by increasing id. |
| `Planner.AssignmentsAreUnique` | src/tomiris_hub/database/models.py:332-342 | No two assignments share capability and agent. |
| `Planner.AssignmentBlock` | src/tomiris_orchestrator/planner.py:109 | The agents of a requirement form one block of the assignments, in routing order. |
| `Planner.GapsAreShort` | src/tomiris_orchestrator/planner.py:106-108 | A gap list is non-empty if and only if some requirement of its kind found too few agents. |
| `Store.TakeFirst` | src/tomiris_orchestrator/dispatch.py:89-91 | ORDER BY and LIMIT: no row that was left out precedes a selected one. |
| `Rows.EarlyRowIsSelected` | src/tomiris_orchestrator/recovery.py:45-46 | A row with fewer rivals than the limit is selected, however ties are ordered. |
| `OrchestratorServices.ReachableRunsFit` | src/tomiris_orchestrator/planner.py:122-166 | Every stored run of every reachable state satisfies what the cycle requires. |
| `OrchestratorServices.CycleEndsTasks` | src/tomiris_orchestrator/service.py:93-97 | A cycle at or after the collection deadline of an unfinished run within the recovery batch leaves all its tasks terminal. |
| `OrchestratorServices.DueRunCompletes` | src/tomiris_orchestrator/quorum.py:79-101 | At or after its deadline an evaluation completes a run, whatever its tasks. |
| `OrchestratorServices.OrchestratorService.Cycle` | src/tomiris_orchestrator/service.py:93-97 | Without concurrent steps a cycle at or after the deadline completes the run and, within the recovery batch, ends its tasks. |
| `OrchestratorServices.OrchestratorService.RunToCompletion` | scripts/run_test_orchestration.py:56-60 | The polling loop terminates with a completed run. |
| `RuntimeStore.StoreIsLogSuffix` | src/tomiris_agent_runtime/state.py:37-51 | After any calls the stored tasks are exactly the last max_entries new acceptances, in order. |
| `RuntimeStore.RepeatedExecutionIsFarApart` | src/tomiris_agent_runtime/state.py:42-51 | One task id is executed twice only with at least max_entries other acceptances in between. |
| `RuntimeStore.NoncesMatchLog` | src/tomiris_agent_runtime/state.py:38-41 | The unexpired stored nonces are those of the unbounded log. |
| `RuntimeStore.RefusedIffUnexpired` | src/tomiris_agent_runtime/state.py:38-46 | A nonce is refused if and only if an earlier call recorded it, even one that went on to raise a conflict, and the record is unexpired. |
| `RuntimeStore.AnswersFollowLog` | src/tomiris_agent_runtime/state.py:42-51 | With max_entries at least 1, a call that is not refused repeats an acknowledgement if and only if one of the last max_entries acceptances has its task and body, and it is that one's; conflicts if and only if one has its task and another body; is new if and only if none has its task. |
| `RuntimeStore.RuntimeTaskStore.Accept` | src/tomiris_agent_runtime/state.py:27-51 | Answer and new state are those of the specification, for every capacity including none; `RuntimeStore.AnswersFollowLog` explains the answers by the log. |
| `Outbox.EndedRowsStay` | src/tomiris_notifications/worker.py:92-103 | SENT, FAILED and DEAD_LETTER are never left, whatever stale senders do. |
| `Outbox.RowsAreAccounted` | src/tomiris_notifications/worker.py:65-113 | SENT needs an earlier successful send of that row, attempt_count is the number of claims, and RETRY is written at most max_attempts - 1 times, although a stale sender may complete the lease of another. |
| `Outbox.FinishWrites` | src/tomiris_notifications/worker.py:92-113 | When a send of a SENDING row ends: SENT if and only if it succeeded, FAILED if and only if refused for good, DEAD_LETTER and RETRY by the attempt and the maximum, the latter at the drawn time; rows in other states stay. |
| `Outbox.TakeWrites` | src/tomiris_notifications/worker.py:50-67 | A claim leases a due row, counts the attempt, and leaves no older row that is free and due. |
| `Outbox.SentIffDelivered` | src/tomiris_notifications/worker.py:92-97 | In every behaviour a row is SENT if and only if some earlier step delivered it while it was SENDING. |
| `Outbox.StepKeepsGood` | src/tomiris_notifications/worker.py:48-114 | No two senders are on one attempt, and an attempt writes RETRY at most once. |
| `Outbox.NotificationWorker.TakeOne` | src/tomiris_notifications/worker.py:49-82 | The oldest due, unlocked row is leased; nothing changes when there is none. |
| `Outbox.NotificationWorker.Complete` | src/tomiris_notifications/worker.py:86-114 | The outcome is recorded only while the row is SENDING, as `Outbox.FinishWrites` says. |
| `Reflection.AnalysisReflects` | src/tomiris_agent_roles/technical.py:87-158 | Replacing every price p by k - p swaps LONG and SHORT, keeps NEUTRAL, abstentions and confidence, and mirrors every timeframe, when the RSI thresholds are symmetric. |
| `ReflectionLimits.ReflectionHoldsIff` | src/tomiris_agent_roles/technical.py:263-269 | For thresholds u and d: the reflection law holds for every configuration with them and every input if and only if u + d = 100. |
| `ReflectionLimits.AsymmetryIsVisible` | src/tomiris_agent_roles/technical.py:153-158 | For all other thresholds, five bars whose mirror image gets another confidence. |
| `ReflectionLimits.VolatilityMirroredIff` | src/tomiris_agent_roles/technical.py:271-285 | HIGH_VOLATILITY is reported if and only if some timeframe has an ATR of at least the high share of its price, or volatile closes; for the mirror image the same at the mirrored price and closes; it is mirrored if and only if the two tests agree. |
| `ReflectionLimits.MirrorAgitatedIff` | src/tomiris_agent_roles/technical.py:271-285 | The same for one timeframe. |
| `ReflectionLimits.VolatilityIsNotMirrored` | src/tomiris_agent_roles/technical.py:271-285 | Five bars with HIGH_VOLATILITY whose mirror image has none, although everything else is mirrored. |
| `ReflectionLimits.DipRsi` | src/tomiris_features/indicators.py:69-98 | A fall, a pause and a rise whose RSI is any chosen value between 50 and 100. |
| `ReflectionLimits.DipHistogram` | src/tomiris_features/indicators.py:109-126 | The MACD histogram of that series is positive. |
| `Reflection.SymmetryIsNeeded` | src/tomiris_agent_roles/technical.py:263-269 | Momentum mirrors on all inputs if and only if rsi_bullish + rsi_bearish = 100. |
| `Reflection.FeaturesReflect` | src/tomiris_features/pipeline.py:43-60 | Averages reflect, the RSI is complemented, the histogram changes sign, the ATR and the volume ratio stay, the return changes its sign. |
| `Reflection.StateMirrors` | src/tomiris_agent_roles/technical.py:236-307 | The trend, momentum and score of a timeframe are mirrored. |
| `Reflection.SwingReflect` | src/tomiris_agent_roles/technical.py:290-295 | The swing score changes its sign, through the extremes of the earlier bars. |
| `Reflection.VerdictMirrors` | src/tomiris_agent_roles/technical.py:130-158 | The opposite score with exchanged counts gives the opposite bias and the same confidence. |
| `Scaling.AnalysisScales` | src/tomiris_agent_roles/technical.py:87-158 | Multiplying all prices by c > 0 and all volumes by d > 0 leaves the whole analysis unchanged. |
| `Scaling.FeaturesScale` | src/tomiris_features/pipeline.py:43-60 | Prices among the features scale, all others stay. |
| `Scaling.StateScales` | src/tomiris_agent_roles/technical.py:236-307 | The state and the score of a timeframe stay. |
| `Unanimity.DirectionIsUnanimous` | src/tomiris_agent_roles/technical.py:134-154 | LONG means that no timeframe scores below the negated threshold, SHORT that none scores above the threshold. |
| `Unanimity.NeutralIffWeakOrConflict` | src/tomiris_agent_roles/technical.py:134-146 | NEUTRAL if and only if the weighted score is below the threshold or timeframes conflict. |
| `Unanimity.WeightedScoreRange` | src/tomiris_agent_roles/technical.py:130-133 | The weighted score lies between the extreme scores and touches one only when all scores equal it. |
| `Unanimity.ScoreIsUnclamped` | src/tomiris_agent_roles/technical.py:297-307 | The clamp on a timeframe's score never changes a value. |
| `Unanimity.NeutralClamps` | src/tomiris_agent_roles/technical.py:147-150 | The inner max changes the value if and only if the score exceeds the threshold, the outer min never does, and the result is at most 0.6. |
| `Unanimity.DirectionalClamps` | src/tomiris_agent_roles/technical.py:153-158 | The cap on the strength changes the value if and only if the score exceeds the strong threshold, the outer min never does. |
| `Unanimity.ConfidenceRange` | src/tomiris_agent_roles/technical.py:144-158 | Every confidence lies between 0 and 1, a neutral one at most at 0.6. |
| `Judgements.JudgementMeaning` | src/tomiris_agent_roles/technical.py:130-158 | LONG, SHORT and the reasons from the weighted score and the sets of timeframes above and below the threshold; the confidence is 0.65 times the capped share of the strong threshold plus 0.35 times the share of the agreeing timeframes, or 0.60 times the distance from the threshold. |
| `Judgements.AnalysisMeaning` | src/tomiris_agent_roles/technical.py:87-158 | The same confidence in every analysis that reaches a verdict. |
| `Judgements.OneMoreAgrees` | src/tomiris_agent_roles/technical.py:151-158 | At the same weighted score one more agreeing timeframe raises the confidence by 0.35 / n. |
| `Judgements.HalfAgreementExample` | src/tomiris_agent_roles/technical.py:151-158 | Scores 0.7, 0.7, 0.1 and 0.1 with the default weights: LONG with confidence 0.665. |
| `Judgements.MeanWithOneMore` | src/tomiris_agent_roles/technical.py:130-133 | One more timeframe moves the weighted mean by its weight. |
| `Judgements.AbstentionMeaning` | src/tomiris_agent_roles/technical.py:95-129 | Which abstention is given, and when. |
| `Judgements.EnoughIff` | src/tomiris_features/pipeline.py:43-60 | All features exist if and only if the history has at least the largest number of bars that one of them needs. |
| `Timeframes.TrendMeaning` | src/tomiris_agent_roles/technical.py:251-269 | Each trend from the order of price and averages, none when the timeframe ranges or the price lies between the averages; momentum needs both RSI and histogram. |
| `Timeframes.FullScoreIff` | src/tomiris_agent_roles/technical.py:251-307 | A timeframe scores 1 (-1) if and only if trend, momentum, breakout and last return all point up (down). |
| `Timeframes.SignalsAdd` | src/tomiris_agent_roles/technical.py:297-302 | Between two timeframes that do not range, with equal prices and averages, scores differ by 0.15, 0.10 and 0.30 for each step of breakout, last return and momentum. |
| `Timeframes.TrendAdds` | src/tomiris_agent_roles/technical.py:251-261 | A trend adds 0.45 when strong and 0.27 when not to the score without one. |
| `Timeframes.RangingQuarters` | src/tomiris_agent_roles/technical.py:303-307 | Ranging quarters the score. |
| `Timeframes.SwingMeaning` | src/tomiris_agent_roles/technical.py:290-295 | A breakout is a close above every high (below every low) of the last swing_lookback bars before the final one. |
| `Timeframes.VolatilityMeaning` | src/tomiris_agent_roles/technical.py:271-285 | EXTREME, HIGH and LOW from the ATR share and the realized volatility. |
| `Timeframes.VolumeMeaning` | src/tomiris_agent_roles/technical.py:286-288 | The volume rises (falls) if and only if the recent mean is more than a tenth above (below) a positive longer mean. |
| `Timeframes.ReturnMeaning` | src/tomiris_features/indicators.py:182-189 | The return takes the earlier price to the last one, and its sign is that of the move. |
| `Timeframes.EmaMoves` | src/tomiris_features/indicators.py:34-37 | One step leaves the share (period - 1) / (period + 1) of the gap to the new value. |
| `Timeframes.StrengthIsShare` | src/tomiris_features/indicators.py:84-89 | The RSI is the share of the average gain in the sum of both averages, and 50 without movement. |
| `Timeframes.WilderMoves` | src/tomiris_features/indicators.py:158-160 | One smoothing step goes the period-th part of the way to the new value. |
| `Timeframes.TrueRangeSpans` | src/tomiris_features/indicators.py:150-155 | The true range spans the bar and the previous close. |
| `Trends.MixedMarketConflicts` | src/tomiris_agent_roles/technical.py:134-150 | With a neutral threshold below 0.7, one timeframe that only rises and one that only falls give NEUTRAL with TIMEFRAME_CONFLICT, whatever the other timeframes and the weights are. |
| `Trends.ClimbIsCapped` | src/tomiris_agent_roles/technical.py:153-158 | Climbing hourly bars with thresholds below 0.7: the cap on the strength changes the value, and the confidence is 1. |
| `Trends.ConflictClampsToZero` | src/tomiris_agent_roles/technical.py:144-150 | Falling quarter-hour bars against rising hourly bars of four times the weight: the weighted score is beyond the threshold and the confidence is 0, so the inner clamp is not idle. |
| `Unanimity.FeatureRanges` | src/tomiris_features/indicators.py:31-165 | The averages stay within the closes, the ATR within the true ranges, the RSI within 0 and 100. |
| `Trends.MonotoneMarketIsJudged` | src/tomiris_agent_roles/technical.py:87-158 | Bars that only rise in every timeframe give LONG, bars that only fall give SHORT, when 0.7 reaches the neutral threshold; with confidence 1 when it exceeds it and reaches the strong threshold. |
| `Trends.RisingState` | src/tomiris_agent_roles/technical.py:251-307 | A rising timeframe is STRONG_UP and scores 0.7, or 1.0 if the histogram is positive. |
| `Trends.FallingState` | src/tomiris_agent_roles/technical.py:251-307 | A falling timeframe is STRONG_DOWN and scores -0.7, or -1.0 if the histogram is negative. |
| `Trends.SlowLagsMore` | src/tomiris_features/indicators.py:31-38 | While prices rise, both averages lag behind the price and the slower one lags further. |
| `Trends.RsiOfRise` | src/tomiris_features/indicators.py:74-89 | Prices that only rise have an RSI of 100. |
| `Trends.JudgedIffReady` | src/tomiris_agent_roles/technical.py:95-129 | An analysis reaches a verdict if and only if the series are exactly the required ones, of the asset, and long enough. |
| `IndicatorLaws.EmaAffine` | src/tomiris_features/indicators.py:31-38 | The exponential average commutes with every affine map of the prices. |
| `IndicatorLaws.EmaRange` | src/tomiris_features/indicators.py:31-38 | The average stays between the extreme values. |
| `IndicatorLaws.WilderScale` | src/tomiris_features/indicators.py:158-160 | Wilder smoothing is homogeneous. |
| `IndicatorLaws.WilderRange` | src/tomiris_features/indicators.py:158-160 | Wilder smoothing stays between the extreme values. |
| `IndicatorLaws.RsiUnclamped` | src/tomiris_features/indicators.py:84-94 | The clamp on the RSI never changes a value. |
| `IndicatorLaws.StrengthComplement` | src/tomiris_features/indicators.py:84-89 | Exchanging average gain and loss complements the index to 100, zero averages included. |
| `IndicatorLaws.RsiReflect` | src/tomiris_features/indicators.py:69-98 | Reflected prices have the complementary RSI. |
| `IndicatorLaws.RsiScale` | src/tomiris_features/indicators.py:69-98 | Rescaled prices have the same RSI. |
| `IndicatorLaws.HistogramAffine` | src/tomiris_features/indicators.py:109-126 | The MACD histogram is linear in the prices and ignores a shift. |
| `Indicators.ComputeEmaValues` | src/tomiris_features/indicators.py:31-38 | The loop computes the recurrence of the average. |
| `Indicators.ComputeWilder` | src/tomiris_features/indicators.py:158-160 | The loop computes a mean followed by one smoothing step for each further value. |
| `Indicators.ComputeRsi` | src/tomiris_features/indicators.py:69-98 | The loop over gains and losses computes the clamped index of the two smoothed averages. |
| `Indicators.ComputeTrueRanges` | src/tomiris_features/indicators.py:148-157 | The loop with the previous close computes the true range of every bar. |
| `Indicators.ComputeAtr` | src/tomiris_features/indicators.py:144-160 | The ATR is the smoothed true range. |
| `TechnicalEngine.ComputeFeatures` | src/tomiris_features/pipeline.py:43-60 | All features, or none exactly when the history is too short for one of them. |
| `TechnicalEngine.ComputeHistogram` | src/tomiris_features/indicators.py:119-126 | The difference of two averages minus its own average. |
| `TechnicalEngine.ComputeVolumeRatio` | src/tomiris_features/indicators.py:238-241 | The ratio of the short to the long mean volume, 1 when the long mean is 0. |
| `TechnicalEngine.ComputeSwing` | src/tomiris_agent_roles/technical.py:290-295 | 1 above all earlier highs, -1 below all earlier lows, 0 otherwise or without earlier bars. |
| `TechnicalEngine.AnalyzeTimeframe` | src/tomiris_agent_roles/technical.py:236-315 | The state of a timeframe, or a failure exactly when its history is too short. |
| `TechnicalEngine.Tally` | src/tomiris_agent_roles/technical.py:130-135 | The weighted sum, the total weight and both counts in one pass. |
| `TechnicalEngine.Decide` | src/tomiris_agent_roles/technical.py:136-158 | Bias, confidence and reason codes, with the meaning of `Judgements.JudgementMeaning`. |
| `TechnicalEngine.Analyze` | src/tomiris_agent_roles/technical.py:87-191 | The verdict (`Judgements.AnalysisMeaning`), or the right abstention (`Judgements.AbstentionMeaning`): foreign series, wrong or repeated series, short history, no series. |

## Left out

- DispatchWorkers.DispatchWorker.DispatchOnce: does not model steps of other processes between its transactions; interleavings are covered by the protocol, whose steps are these transactions.
- OrchestratorServices.OrchestratorService.Cycle: assumes that no other process takes a step during the cycle, as the termination claim does; a segment of the protocol may have such steps.
- OrchestratorServices.OrchestratorService.RunToCompletion: counts the pause in whole ticks, at least one; the settings keep it above zero (`src/tomiris_hub/core/config.py:46`), and with a pause of zero and a clock that stands still the loop need not end.
- PlannerServices.OrchestrationPlanner.Create: takes the validated policy and leaves out the bounded-JSON check of the context.
- TechnicalEngine.Analyze: leaves out evidence items, data ranges, provider names and timestamps of the result, and the rounding of the confidence to six digits.
- Columns that no decision reads: availability, latency, last_seen, last_error_code, acknowledged_at, updated_at, criticality of a task, correlation and causation ids, audit events, metrics and logs.
- HTTP transport, endpoint validation, DNS, HMAC signatures and secrets: a dispatch is an arbitrary answer, and an ingestion starts after authentication.
- The upper end of the random backoff: a delay is any number of ticks, and `AttemptLimits` takes a least delay for each attempt as a parameter; the jitter of the notification backoff is left out.
- Health prober, market-data cache and validator, Telegram and Binance clients, SQLAlchemy plumbing, migrations.
- Float rounding, NaN and infinity.
