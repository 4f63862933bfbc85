/** The orchestration cycle, and why driving it to completion terminates. */
module OrchestratorServices {
  import opened Rows
  import opened Dispatch
  import opened Recovery
  import opened Quorum
  import opened Store
  import opened DispatchWorkers
  import opened Evaluator
  import opened RecoveryServices
  import Protocol
  import Agreement
  import Theorems

  /** The deadlines of a run's tasks are in order, and a settled run has a completion time: what
      planning and evaluation establish of every stored run. */
  ghost predicate RunFits(db: Db, r: RunId) {
    && r in db.runs
    && (Settled(db.runs[r].status) ==> db.runs[r].completedAt.Some?)
    && forall id :: id in db.tasks && db.tasks[id].runId == r ==>
         db.tasks[id].dispatchDeadline <= db.tasks[id].signalDeadline <= db.runs[r].collectionDeadline
  }

  /** Every run of every reachable state fits. */
  lemma ReachableRunsFit(cfg: Settings, b: seq<Protocol.System>, steps: seq<Protocol.Step>, i: nat, r: RunId)
    requires ValidSettings(cfg) && Protocol.Behaviour(cfg, b, steps) && i < |b| && r in b[i].db.runs
    ensures RunFits(b[i].db, r)
  {
    Theorems.EveryStateIsGood(cfg, b, steps, i);
    Theorems.GoodTables(cfg, b[i]);
    hide Protocol.Behaviour, Theorems.Good;
    assert Agreement.RunShape(b[i].db.runs[r], b[i].now);
    forall id | id in b[i].db.tasks && b[i].db.tasks[id].runId == r
      ensures b[i].db.tasks[id].dispatchDeadline <= b[i].db.tasks[id].signalDeadline <= b[i].db.runs[r].collectionDeadline
    {
      assert Agreement.TaskShape(b[i].db, b[i].db.tasks[id]);
    }
  }

  /** Fewer unfinished runs than the recovery batch holds are as old as `r`. */
  ghost predicate InRecoveryBatch(db: Db, r: RunId, batchSize: nat)
    requires r in db.runs
  {
    r in RecoveryKeys(db.runs, {}) ==> |Rivals(RecoveryKeys(db.runs, {}), r)| < batchSize
  }

  /** Nothing that concerns run `r` has changed. */
  ghost predicate Untouched(db: Db, db': Db, r: RunId) {
    && db'.tasks.Keys == db.tasks.Keys
    && db'.runs.Keys == db.runs.Keys
    && (forall id :: id in db.tasks ==> db'.tasks[id].runId == db.tasks[id].runId)
    && (forall id :: id in db.tasks && db.tasks[id].runId == r ==> db'.tasks[id] == db.tasks[id])
    && (r in db.runs ==> db'.runs[r] == db.runs[r])
    && RecoveryKeys(db'.runs, {}) == RecoveryKeys(db.runs, {})
  }

  /** The commands of other, unfinished runs. */
  predicate ForOthers(db: Db, r: RunId, c: Command) {
    && c.taskId in db.tasks && db.tasks[c.taskId].runId == c.runId
    && c.runId != r && c.runId in db.runs && Recoverable(db.runs[c.runId].status)
  }

  lemma RecordingForOthers(cfg: Settings, w: WorkerId, db: Db, now: Time, c: Command, res: DispatchResult, r: RunId)
    requires ForOthers(db, r, c)
    ensures Untouched(db, Recorded(cfg, db, w, now, c, res), r)
  {
    hide AgentAfterResult, CanRetry, RetryAt;
    var db' := Recorded(cfg, db, w, now, c, res);
    assert RecoveryKeys(db'.runs, {}) == RecoveryKeys(db.runs, {});
  }

  lemma StillForOthers(db: Db, db': Db, r: RunId, c: Command)
    requires ForOthers(db, r, c) && Untouched(db, db', r)
    ensures ForOthers(db', r, c)
  {
    assert c.runId in RecoveryKeys(db'.runs, {});
  }

  lemma {:induction false} RecordingAllForOthers(cfg: Settings, w: WorkerId, results: (TaskId, nat) -> DispatchResult, db: Db,
                               commands: seq<Command>, times: seq<Time>, r: RunId)
    requires |times| == |commands|
    requires forall c :: c in commands ==> ForOthers(db, r, c)
    ensures Untouched(db, RecordedAll(cfg, w, results, db, commands, times), r)
  {
    if commands != [] {
      var n := |commands| - 1;
      var c := commands[n];
      var before := RecordedAll(cfg, w, results, db, commands[..n], times[..n]);
      RecordingAllForOthers(cfg, w, results, db, commands[..n], times[..n], r);
      StillForOthers(db, before, r, c);
      RecordingForOthers(cfg, w, before, times[n], c, results(c.taskId, c.attempt), r);
      hide Recorded, ForOthers;
    }
  }

  /** The run's dispatch deadlines have passed and nothing of it waits to be dispatched. */
  ghost predicate DispatchOver(db: Db, r: RunId, now: Time) {
    forall id :: id in db.tasks && db.tasks[id].runId == r ==>
      && db.tasks[id].dispatchDeadline <= now
      && (Terminal(db.tasks[id].status) || db.tasks[id].status.Acknowledged? || db.tasks[id].status.WaitingSignal?)
  }

  lemma ExpiryEndsDispatch(db: Db, r: RunId, now: Time)
    requires RunFits(db, r) && db.runs[r].collectionDeadline <= now
    ensures var db' := Expired(db, now, {});
            && RunFits(db', r) && DispatchOver(db', r, now) && db'.runs == db.runs
  {
  }

  /** A claim after the deadlines of a run does not touch it and sends no command for it. */
  lemma ClaimForOthers(cfg: Settings, db: Db, w: WorkerId, endpoints: set<AgentId>, now: Time, rows: seq<TaskId>,
                       start: Time, locked: set<TaskId>, r: RunId)
    requires DispatchOver(db, r, now) && now <= start
    requires IsFirst(ClaimKeys(db.tasks, start, locked), cfg.batchSize, rows)
    ensures Untouched(db, Claimed(cfg, db, w, endpoints, start, Elems(rows)), r)
    ensures forall c :: c in Commands(cfg, db, endpoints, start, rows) ==>
              ForOthers(Claimed(cfg, db, w, endpoints, start, Elems(rows)), r, c)
  {
    CommandsAreStarts(cfg, db, endpoints, start, rows);
    hide Commands, ClaimedAgent, KeyLess, CoolingDown;
    var db' := Claimed(cfg, db, w, endpoints, start, Elems(rows));
    forall id | id in rows ensures db.tasks[id].runId != r {
      assert Claimable(db.tasks[id], start);
    }
    assert db'.runs == db.runs;
  }

  lemma DispatchForOthers(cfg: Settings, db: Db, w: WorkerId, endpoints: set<AgentId>, now: Time, rows: seq<TaskId>,
                          start: Time, results: (TaskId, nat) -> DispatchResult, times: seq<Time>, r: RunId)
    requires DispatchOver(db, r, now) && now <= start && RunFits(db, r)
    requires IsFirst(ClaimKeys(db.tasks, start, {}), cfg.batchSize, rows)
    requires |times| == |Commands(cfg, db, endpoints, start, rows)|
    ensures var db' := RecordedAll(cfg, w, results, Claimed(cfg, db, w, endpoints, start, Elems(rows)),
                                   Commands(cfg, db, endpoints, start, rows), times);
            Untouched(db, db', r) && DispatchOver(db', r, now) && RunFits(db', r)
  {
    hide Commands, Claimed, IsFirst, RecordedAll, ForOthers, ClaimKeys, RunFits, DispatchOver;
    SelectedTasks(db.tasks, start, {}, cfg.batchSize, rows);
    var claimed := Claimed(cfg, db, w, endpoints, start, Elems(rows));
    ClaimForOthers(cfg, db, w, endpoints, now, rows, start, {}, r);
    RecordingAllForOthers(cfg, w, results, claimed, Commands(cfg, db, endpoints, start, rows), times, r);
    UntouchedStays(db, claimed, RecordedAll(cfg, w, results, claimed, Commands(cfg, db, endpoints, start, rows), times), now, r);
  }

  lemma UntouchedStays(db: Db, db1: Db, db2: Db, now: Time, r: RunId)
    requires Untouched(db, db1, r) && Untouched(db1, db2, r) && DispatchOver(db, r, now) && RunFits(db, r)
    ensures Untouched(db, db2, r) && DispatchOver(db2, r, now) && RunFits(db2, r)
  {
    hide RecoveryKeys, Terminal;
  }

  /** At or after the deadline a repair ends every task of the run, if it is selected. */
  lemma RepairEnds(db: Db, now: Time, selected: set<RunId>, r: RunId)
    requires RunFits(db, r) && DispatchOver(db, r, now) && db.runs[r].collectionDeadline <= now
    ensures var db' := Reconciled(db, now, selected);
            && RunFits(db', r) && SamePlan(db.runs[r], db'.runs[r])
            && (AllTerminal(db.tasks, r) || r in selected ==> AllTerminal(db'.tasks, r))
  {
  }

  lemma {:induction false} EvaluatingAllFits(db: Db, rows: seq<RunId>, times: seq<Time>, r: RunId)
    requires |times| == |rows| && forall i :: 0 <= i < |rows| ==> rows[i] in db.runs
    requires RunFits(db, r)
    ensures var db' := EvaluatedAll(db, rows, times);
            RunFits(db', r) && SamePlan(db.runs[r], db'.runs[r]) && db'.tasks == db.tasks
  {
    hide Decide;
    if rows != [] {
      var n := |rows| - 1;
      EvaluatingAllFits(db, rows[..n], times[..n], r);
    }
  }

  /** At or after the deadline an evaluation completes the run. */
  lemma DueRunCompletes(db: Db, r: RunId, now: Time)
    requires RunFits(db, r) && db.runs[r].collectionDeadline <= now
    ensures Report(db, r, now).completed && Settled(Evaluated(db, r, now).runs[r].status)
  {
    hide AnyShort, AnyHopeless, AnyCriticalLoss, AllTerminal, AllReceived, ShortCapabilities;
  }

  // ---------- a whole cycle ----------

  lemma ExpiryFits(db: Db, r: RunId, now: Time)
    requires RunFits(db, r)
    ensures RunFits(Expired(db, now, {}), r) && Expired(db, now, {}).runs == db.runs
  {
  }

  lemma {:induction false} RecordingFits(cfg: Settings, w: WorkerId, results: (TaskId, nat) -> DispatchResult, db: Db,
                        commands: seq<Command>, times: seq<Time>, r: RunId)
    requires |times| == |commands| && RunFits(db, r)
    ensures var db' := RecordedAll(cfg, w, results, db, commands, times);
            RunFits(db', r) && SamePlan(db.runs[r], db'.runs[r])
  {
    if commands != [] {
      var n := |commands| - 1;
      RecordingFits(cfg, w, results, db, commands[..n], times[..n], r);
      OneRecordingFits(cfg, w, RecordedAll(cfg, w, results, db, commands[..n], times[..n]), times[n], commands[n],
                       results(commands[n].taskId, commands[n].attempt), r);
      hide Recorded;
    }
  }

  lemma OneRecordingFits(cfg: Settings, w: WorkerId, db: Db, now: Time, c: Command, res: DispatchResult, r: RunId)
    requires RunFits(db, r)
    ensures var db' := Recorded(cfg, db, w, now, c, res);
            RunFits(db', r) && SamePlan(db.runs[r], db'.runs[r])
  {
    hide AgentAfterResult, CanRetry, RetryAt;
  }

  lemma ClaimFits(cfg: Settings, db: Db, w: WorkerId, endpoints: set<AgentId>, now: Time, ids: set<TaskId>, r: RunId)
    requires RunFits(db, r) && ids <= db.tasks.Keys
    ensures RunFits(Claimed(cfg, db, w, endpoints, now, ids), r)
    ensures Claimed(cfg, db, w, endpoints, now, ids).runs == db.runs
  {
    hide ClaimOutcomeOf, ClaimedAgent;
  }

  lemma RepairFits(db: Db, now: Time, selected: set<RunId>, r: RunId)
    requires RunFits(db, r)
    ensures RunFits(Reconciled(db, now, selected), r) && SamePlan(db.runs[r], Reconciled(db, now, selected).runs[r])
  {
  }

  lemma EvaluationFits(db: Db, now: Time, r: RunId)
    requires RunFits(db, r)
    ensures RunFits(Evaluated(db, r, now), r) && SamePlan(db.runs[r], Evaluated(db, r, now).runs[r])
    ensures Evaluated(db, r, now).tasks == db.tasks
  {
    hide Decide;
  }

  /** The databases that a cycle goes through. */
  datatype Trace = Trace(
    cfg: Settings, worker: WorkerId, endpoints: set<AgentId>, batchSize: nat, run: RunId,
    found: Db, expiredAt: Time,
    claimed: seq<TaskId>, claimedAt: Time, recordedAt: seq<Time>,
    selected: seq<RunId>, repairedAt: Time, evaluatedAt: seq<Time>,
    judgedAt: Time)

  ghost function AfterExpiry(t: Trace): Db {
    Expired(t.found, t.expiredAt, {})
  }

  ghost predicate DispatchFits(t: Trace) {
    && IsFirst(ClaimKeys(AfterExpiry(t).tasks, t.claimedAt, {}), t.cfg.batchSize, t.claimed)
    && |t.recordedAt| == |Commands(t.cfg, AfterExpiry(t), t.endpoints, t.claimedAt, t.claimed)|
  }

  ghost function AfterDispatch(t: Trace, results: (TaskId, nat) -> DispatchResult): Db
    requires DispatchFits(t)
  {
    RecordedAll(t.cfg, t.worker, results,
                Claimed(t.cfg, AfterExpiry(t), t.worker, t.endpoints, t.claimedAt, Elems(t.claimed)),
                Commands(t.cfg, AfterExpiry(t), t.endpoints, t.claimedAt, t.claimed), t.recordedAt)
  }

  ghost predicate RecoveryFits(t: Trace, results: (TaskId, nat) -> DispatchResult) {
    && DispatchFits(t)
    && IsFirst(RecoveryKeys(AfterDispatch(t, results).runs, {}), t.batchSize, t.selected)
    && |t.evaluatedAt| == |t.selected|
  }

  ghost function AfterRecovery(t: Trace, results: (TaskId, nat) -> DispatchResult): Db
    requires RecoveryFits(t, results)
  {
    EvaluatedAll(Reconciled(AfterDispatch(t, results), t.repairedAt, Elems(t.selected)), t.selected, t.evaluatedAt)
  }

  /** The trace reads its times off one clock, from `start` to `end`. */
  ghost predicate InOrder(t: Trace, start: Time, end: Time) {
    && start <= t.expiredAt <= t.claimedAt
    && Readings(t.claimedAt, t.recordedAt, t.repairedAt)
    && Readings(t.repairedAt, t.evaluatedAt, t.judgedAt)
    && t.judgedAt <= end
  }

  ghost function AfterCycle(t: Trace, results: (TaskId, nat) -> DispatchResult): Db
    requires RecoveryFits(t, results) && t.run in AfterRecovery(t, results).runs
  {
    Evaluated(AfterRecovery(t, results), t.run, t.judgedAt)
  }

  lemma CycleFits(t: Trace, results: (TaskId, nat) -> DispatchResult)
    requires RecoveryFits(t, results) && RunFits(t.found, t.run)
    ensures RunFits(AfterDispatch(t, results), t.run)
    ensures RunFits(AfterRecovery(t, results), t.run)
    ensures t.run in AfterRecovery(t, results).runs
    ensures SamePlan(t.found.runs[t.run], AfterRecovery(t, results).runs[t.run])
  {
    ExpiryFits(t.found, t.run, t.expiredAt);
    ClaimFits(t.cfg, AfterExpiry(t), t.worker, t.endpoints, t.claimedAt, Elems(t.claimed), t.run);
    RecordingFits(t.cfg, t.worker, results, Claimed(t.cfg, AfterExpiry(t), t.worker, t.endpoints, t.claimedAt, Elems(t.claimed)),
                  Commands(t.cfg, AfterExpiry(t), t.endpoints, t.claimedAt, t.claimed), t.recordedAt, t.run);
    RepairFits(AfterDispatch(t, results), t.repairedAt, Elems(t.selected), t.run);
    EvaluatingAllFits(Reconciled(AfterDispatch(t, results), t.repairedAt, Elems(t.selected)), t.selected, t.evaluatedAt, t.run);
    hide RunFits, Expired, Claimed, RecordedAll, Reconciled, Commands;
  }

  /** A cycle at or after the deadline of an unfinished run within the recovery batch ends its tasks. */
  lemma CycleEndsTasks(t: Trace, results: (TaskId, nat) -> DispatchResult)
    requires RecoveryFits(t, results) && RunFits(t.found, t.run)
    requires t.found.runs[t.run].collectionDeadline <= t.expiredAt <= t.claimedAt && t.expiredAt <= t.repairedAt
    requires !Settled(t.found.runs[t.run].status) && InRecoveryBatch(t.found, t.run, t.batchSize)
    ensures AllTerminal(AfterRecovery(t, results).tasks, t.run)
  {
    assert t.run in RecoveryKeys(t.found.runs, {});
    hide RunFits, Expired, Claimed, RecordedAll, Reconciled, Commands, IsFirst, DispatchOver, EvaluatedAll, AllTerminal, RecoveryKeys, Rivals;
    ExpiryEndsDispatch(t.found, t.run, t.expiredAt);
    DispatchForOthers(t.cfg, AfterExpiry(t), t.worker, t.endpoints, t.expiredAt, t.claimed, t.claimedAt, results, t.recordedAt, t.run);
    EarlyRowIsSelected(RecoveryKeys(t.found.runs, {}), t.batchSize, t.selected, t.run);
    CycleFits(t, results);
    var db2 := AfterDispatch(t, results);
    DispatchOverStays(db2, t.run, t.expiredAt, t.repairedAt);
    RepairEnds(db2, t.repairedAt, Elems(t.selected), t.run);
    RepairKeepsRuns(db2, t.repairedAt, Elems(t.selected));
    SelectedRuns(db2.runs, {}, t.batchSize, t.selected);
    EvaluatingAllFits(Reconciled(db2, t.repairedAt, Elems(t.selected)), t.selected, t.evaluatedAt, t.run);
    SameTasksTerminal(AfterRecovery(t, results), Reconciled(db2, t.repairedAt, Elems(t.selected)), t.run);
  }

  lemma SameTasksTerminal(db: Db, db': Db, r: RunId)
    requires db.tasks == db'.tasks && AllTerminal(db'.tasks, r)
    ensures AllTerminal(db.tasks, r)
  {
  }

  lemma RepairKeepsRuns(db: Db, now: Time, selected: set<RunId>)
    ensures Reconciled(db, now, selected).runs.Keys == db.runs.Keys
  {
    hide RepairedTask, RepairedRun;
  }

  lemma DispatchOverStays(db: Db, r: RunId, now: Time, later: Time)
    requires DispatchOver(db, r, now) && now <= later
    ensures DispatchOver(db, r, later)
  {
  }

  /** What the caller of a cycle learns: the run still fits, and a due run is completed with its tasks. */
  lemma CycleResult(t: Trace, results: (TaskId, nat) -> DispatchResult)
    requires RecoveryFits(t, results) && RunFits(t.found, t.run) && t.run in AfterRecovery(t, results).runs
    requires t.expiredAt <= t.claimedAt && t.expiredAt <= t.repairedAt && t.expiredAt <= t.judgedAt
    ensures RunFits(AfterCycle(t, results), t.run) && SamePlan(t.found.runs[t.run], AfterCycle(t, results).runs[t.run])
    ensures t.found.runs[t.run].collectionDeadline <= t.expiredAt ==>
              && Report(AfterRecovery(t, results), t.run, t.judgedAt).completed && Settled(AfterCycle(t, results).runs[t.run].status)
              && (!Settled(t.found.runs[t.run].status) && InRecoveryBatch(t.found, t.run, t.batchSize) ==>
                    AllTerminal(AfterCycle(t, results).tasks, t.run))
  {
    assert t.run in t.found.runs;
    hide RunFits, Expired, RecordedAll, Reconciled, Commands, IsFirst, InRecoveryBatch, EvaluatedAll, Evaluated, Report, AllTerminal, Settled, AfterRecovery;
    CycleFits(t, results);
    EvaluationFits(AfterRecovery(t, results), t.judgedAt, t.run);
    if t.found.runs[t.run].collectionDeadline <= t.expiredAt {
      DueRunCompletes(AfterRecovery(t, results), t.run, t.judgedAt);
      if !Settled(t.found.runs[t.run].status) && InRecoveryBatch(t.found, t.run, t.batchSize) {
        CycleEndsTasks(t, results);
      }
    }
  }

  class OrchestratorService {
    const db: Database
    const clock: Clock
    const dispatcher: DispatchWorker
    const evaluator: CompletenessEvaluator
    const recovery: RecoveryService

    ghost predicate Wired() {
      && dispatcher.db == db && dispatcher.clock == clock
      && evaluator.db == db
      && recovery.db == db && recovery.clock == clock && recovery.evaluator == evaluator
    }

    constructor (db: Database, clock: Clock, workerId: WorkerId, cfg: Settings, batchSize: nat)
      ensures Wired() && this.db == db && this.clock == clock && recovery.batchSize == batchSize
    {
      this.db, this.clock := db, clock;
      var worker := new DispatchWorker(workerId, cfg, db, clock);
      var judge := new CompletenessEvaluator(db);
      var repairer := new RecoveryService(db, clock, judge, batchSize);
      dispatcher, evaluator, recovery := worker, judge, repairer;
    }

    /** One cycle without concurrent transactions: it leaves the tables of its trace. At or after the collection deadline it completes
        the run; if the run was unfinished and the recovery batch reaches it, all its tasks end. */
    method Cycle(r: RunId, endpoints: set<AgentId>, results: (TaskId, nat) -> DispatchResult) returns (res: Completeness, ghost trace: Trace)
      requires Wired() && RunFits(db.View(), r)
      modifies db, clock
      ensures trace.found == old(db.View()) && trace.run == r && trace.endpoints == endpoints
      ensures trace.cfg == dispatcher.cfg && trace.worker == dispatcher.workerId && trace.batchSize == recovery.batchSize
      ensures InOrder(trace, old(clock.time), clock.time) && RecoveryFits(trace, results)
      ensures r in AfterRecovery(trace, results).runs && db.View() == AfterCycle(trace, results)
      ensures RunFits(db.View(), r) && SamePlan(old(db.runs[r]), db.runs[r]) && old(clock.time) <= clock.time
      ensures old(db.runs[r]).collectionDeadline <= old(clock.time) ==>
                && res.completed && Settled(db.runs[r].status)
                && (!Settled(old(db.runs[r]).status) && old(InRecoveryBatch(db.View(), r, recovery.batchSize)) ==>
                      AllTerminal(db.tasks, r))
    {
      hide Expired, Claimed, RecordedAll, Reconciled, Commands, IsFirst, RunFits, InRecoveryBatch, EvaluatedAll, Evaluated, Report,
           ClaimKeys, RecoveryKeys, RecoveredRuns, SamePlan, AllTerminal, Settled, Decide;
      ghost var found := db.View();
      var now := clock.Now();
      ghost var expiredAt := now;
      var expired := dispatcher.ExpireDispatchDeadlines(now, {});
      ghost var claimed, claimedAt, recordedAt;
      var dispatched;
      dispatched, claimed, claimedAt, recordedAt := dispatcher.DispatchOnce(endpoints, {}, results);
      ghost var selected, repairedAt, evaluatedAt;
      var recovered;
      recovered, selected, repairedAt, evaluatedAt := recovery.Reconcile({});
      now := clock.Now();
      trace := Trace(dispatcher.cfg, dispatcher.workerId, endpoints, recovery.batchSize, r, found, expiredAt,
                     claimed, claimedAt, recordedAt, selected, repairedAt, evaluatedAt, now);
      CycleFits(trace, results);
      assert db.View() == AfterRecovery(trace, results);
      var answer := evaluator.Evaluate(now, r);
      res := answer.value;
      CycleResult(trace, results);
    }

    /** Drives a run to completion, one cycle and one pause after the other. It terminates: the pause
        moves the clock towards the collection deadline, and a cycle at the deadline completes the run. */
    method RunToCompletion(r: RunId, endpoints: set<AgentId>, results: (TaskId, nat) -> DispatchResult, pollInterval: nat)
      returns (res: Completeness)
      requires Wired() && RunFits(db.View(), r) && 1 <= pollInterval
      modifies db, clock
      ensures res.completed
    {
      ghost var deadline := db.runs[r].collectionDeadline;
      var now := clock.Now();
      var answer := evaluator.Evaluate(now, r);
      EvaluationFits(old(db.View()), now, r);
      res := answer.value;
      hide RunFits, Evaluated, Report;
      while !res.completed
        invariant RunFits(db.View(), r) && r in db.runs && db.runs[r].collectionDeadline == deadline
        decreases !res.completed, if clock.time < deadline then deadline - clock.time else 0
      {
        ghost var trace;
        res, trace := Cycle(r, endpoints, results);
        if !res.completed {
          clock.Sleep(pollInterval);
        }
      }
    }
  }
}
