/** Tables that agree in every reachable state: the shape of runs and tasks that planning
    establishes, and the agreement of signals, tasks and nonces. */
module Agreement {
  import opened Rows
  import opened Dispatch
  import opened Ingestion
  import opened Recovery
  import opened Quorum
  import opened Planner
  import opened Protocol

  // ---------- shape ----------

  predicate RunShape(run: Run, now: Time) {
    && run.createdAt <= now
    && run.createdAt < run.collectionDeadline
    && ValidPolicy(run.policy)
    && (run.status.RunDispatching? || run.status.RunCollecting? || run.status.RunFull?
        || run.status.RunDegraded? || run.status.RunCritical?)
    && (Settled(run.status) ==> run.completedAt.Some?)
  }

  predicate TaskShape(db: Db, t: Task) {
    && t.runId in db.runs
    && var run := db.runs[t.runId];
    && t.createdAt == run.createdAt
    && t.snapshotId == run.snapshotId
    && t.asset == run.asset
    && t.createdAt < t.dispatchDeadline <= t.signalDeadline <= run.collectionDeadline
    && !t.status.Acknowledged? && !t.status.Skipped?
  }

  /** A run has at most one task for an agent and a capability. */
  ghost predicate UniqueAssignments(tasks: map<TaskId, Task>) {
    forall i, j :: i in tasks && j in tasks && i != j ==>
      || tasks[i].runId != tasks[j].runId
      || tasks[i].agentId != tasks[j].agentId
      || tasks[i].capability != tasks[j].capability
  }

  ghost predicate Shape(s: System) {
    && (forall r :: r in s.db.runs ==> RunShape(s.db.runs[r], s.now))
    && (forall id :: id in s.db.tasks ==> TaskShape(s.db, s.db.tasks[id]))
    && UniqueAssignments(s.db.tasks)
  }

  // ---------- signals, tasks, nonces ----------

  /** A task-bound signal matches the task it completed. */
  predicate SignalMatches(db: Db, m: Signal) {
    m.task.Some? ==>
      && m.task.value.taskId in db.tasks
      && var t := db.tasks[m.task.value.taskId];
      && t.status.SignalReceived?
      && t.agentId == m.agentId
      && t.runId == m.task.value.runId
      && t.snapshotId == m.snapshotId
      && t.asset == m.asset
      && m.receivedAt < t.signalDeadline
  }

  predicate SameTask(m: Signal, m': Signal) {
    m.task.Some? && m'.task.Some? && m.task.value.taskId == m'.task.value.taskId
  }

  ghost predicate SignalsAgree(db: Db) {
    && (forall m :: m in db.signals ==> SignalMatches(db, db.signals[m]))
    && (forall m, m' :: m in db.signals && m' in db.signals && m != m' ==> !SameTask(db.signals[m], db.signals[m']))
    && (forall id :: id in db.tasks && db.tasks[id].status.SignalReceived? ==> TaskAnswered(db.signals, id))
  }

  /** `nonceOf` is a bijection from the stored signals to the stored nonces. */
  ghost predicate NoncesAgree(db: Db, nonceOf: map<MessageId, NonceKey>) {
    && nonceOf.Keys == db.signals.Keys
    && (forall m :: m in nonceOf ==> nonceOf[m] in db.nonces && nonceOf[m].agentId == db.signals[m].agentId)
    && (forall m, m' :: m in nonceOf && m' in nonceOf && m != m' ==> nonceOf[m] != nonceOf[m'])
    && (forall k :: k in db.nonces ==> exists m :: m in nonceOf && nonceOf[m] == k)
  }

  ghost predicate Tables(s: System) {
    Shape(s) && SignalsAgree(s.db) && NoncesAgree(s.db, s.history.nonceOf)
  }

  // ---------- how rows evolve ----------

  /** A terminal task never changes again, and a task is completed before its signal deadline. */
  predicate TaskEvolves(now: Time, t: Task, t': Task) {
    && SameIdentity(t, t')
    && (Terminal(t.status) ==> t' == t)
    && (t'.status.SignalReceived? && !t.status.SignalReceived? ==> now < t.signalDeadline)
    && (t'.status.Acknowledged? ==> t.status.Acknowledged?)
    && (t'.status.Skipped? ==> t.status.Skipped?)
  }

  predicate RunEvolves(now: Time, run: Run, run': Run) {
    && SamePlan(run, run')
    && (run'.status == run.status || run'.status.RunCollecting? || run'.status.RunFull?
        || run'.status.RunDegraded? || run'.status.RunCritical?)
    && (Settled(run'.status) ==>
          || (Settled(run.status) && run'.completedAt == run.completedAt)
          || run'.completedAt == Some(now))
  }

  ghost predicate RowsEvolve(now: Time, db: Db, db': Db) {
    && (forall id :: id in db.tasks ==> id in db'.tasks && TaskEvolves(now, db.tasks[id], db'.tasks[id]))
    && (forall r :: r in db.runs ==> r in db'.runs && RunEvolves(now, db.runs[r], db'.runs[r]))
    && (forall id :: id in db'.tasks && id !in db.tasks ==> db'.tasks[id].runId !in db.runs)
  }

  /** A task's own signals are among those of its run, so a repair never completes a task. */
  lemma RepairKeepsSignals(s: System, id: TaskId)
    requires Tables(s) && id in s.db.tasks
    ensures var t := s.db.tasks[id];
            id in SignalledTasks(s.db.signals, t.runId) <==> t.status.SignalReceived?
  {
    var t := s.db.tasks[id];
    if t.status.SignalReceived? {
      var m :| m in s.db.signals && s.db.signals[m].task.Some? && s.db.signals[m].task.value.taskId == id;
      assert SignalMatches(s.db, s.db.signals[m]);
    }
  }

  /** No signal is stored and no task is completed. */
  ghost predicate Quiet(s: System, s': System) {
    && s.now <= s'.now
    && s'.db.signals == s.db.signals && s'.db.nonces == s.db.nonces
    && s'.history.nonceOf == s.history.nonceOf
    && forall id :: id in s'.db.tasks && s'.db.tasks[id].status.SignalReceived? ==>
         id in s.db.tasks && s.db.tasks[id].status.SignalReceived?
  }

  /** Nothing is planned. */
  predicate SameKeys(db: Db, db': Db) {
    db'.tasks.Keys == db.tasks.Keys && db'.runs.Keys == db.runs.Keys
  }

  lemma UnchangedTaskEvolves(now: Time, t: Task)
    ensures TaskEvolves(now, t, t)
  {
  }

  lemma UnchangedRunEvolves(now: Time, run: Run)
    ensures RunEvolves(now, run, run)
  {
  }

  lemma PlanEvolves(s: System, o: Order, routed: seq<seq<AgentId>>, ids: seq<TaskId>)
    requires |routed| == |o.policy.requirements| && o.runId !in s.db.runs
    requires FreshIds(s.db.tasks, ids, Assignments(o.policy.requirements, routed))
    ensures RowsEvolve(s.now, s.db, DoPlan(s, o, routed, ids).db)
    ensures Quiet(s, DoPlan(s, o, routed, ids))
  {
    hide PlannedRun, Assignments, TaskEvolves, RunEvolves, PlannedTask;
    var db' := Planned(s.db, o, s.now, routed, ids);
    forall id | id in db'.tasks
      ensures id !in s.db.tasks ==> db'.tasks[id].runId == o.runId && !db'.tasks[id].status.SignalReceived?
      ensures id in s.db.tasks ==> db'.tasks[id] == s.db.tasks[id] && TaskEvolves(s.now, s.db.tasks[id], db'.tasks[id])
    {
      if id in s.db.tasks {
        UnchangedTaskEvolves(s.now, s.db.tasks[id]);
      } else {
        NewTaskFacts(s, o, routed, ids, id);
      }
    }
    forall r | r in s.db.runs ensures db'.runs[r] == s.db.runs[r] && RunEvolves(s.now, s.db.runs[r], db'.runs[r]) {
      UnchangedRunEvolves(s.now, s.db.runs[r]);
    }
    hide Planned, PlannedTasks, FreshIds;
  }

  lemma NewTaskFacts(s: System, o: Order, routed: seq<seq<AgentId>>, ids: seq<TaskId>, id: TaskId)
    requires |routed| == |o.policy.requirements|
    requires FreshIds(s.db.tasks, ids, Assignments(o.policy.requirements, routed))
    requires id !in s.db.tasks && id in Planned(s.db, o, s.now, routed, ids).tasks
    ensures var t := Planned(s.db, o, s.now, routed, ids).tasks[id]; t.runId == o.runId && !t.status.SignalReceived?
  {
    hide PlannedRun, Assignments;
  }

  lemma StayEvolves(s: System)
    ensures RowsEvolve(s.now, s.db, s.db)
  {
  }

  lemma ExpireEvolves(s: System, locked: set<TaskId>)
    ensures RowsEvolve(s.now, s.db, Expired(s.db, s.now, locked))
    ensures Quiet(s, s.(db := Expired(s.db, s.now, locked))) && SameKeys(s.db, Expired(s.db, s.now, locked))
  {
  }

  lemma ClaimEvolves(cfg: Settings, s: System, w: WorkerId, endpoints: set<AgentId>, rows: seq<TaskId>, locked: set<TaskId>)
    requires IsFirst(ClaimKeys(s.db.tasks, s.now, locked), cfg.batchSize, rows)
    ensures RowsEvolve(s.now, s.db, DoClaim(cfg, s, w, endpoints, rows).db)
    ensures Quiet(s, DoClaim(cfg, s, w, endpoints, rows)) && SameKeys(s.db, DoClaim(cfg, s, w, endpoints, rows).db)
  {
    hide ClaimOutcomeOf, StartsOn, Commands, KeyLess;
    var db' := Claimed(cfg, s.db, w, endpoints, s.now, Elems(rows));
    forall id | id in s.db.tasks
      ensures TaskEvolves(s.now, s.db.tasks[id], db'.tasks[id])
      ensures db'.tasks[id].status.SignalReceived? ==> s.db.tasks[id].status.SignalReceived?
    {
      assert id in rows ==> Claimable(s.db.tasks[id], s.now);
    }
  }

  lemma RecordEvolves(cfg: Settings, s: System, w: WorkerId, res: DispatchResult)
    requires Batch(s, w) != []
    ensures RowsEvolve(s.now, s.db, DoRecord(cfg, s, w, res).db)
    ensures Quiet(s, DoRecord(cfg, s, w, res)) && SameKeys(s.db, DoRecord(cfg, s, w, res).db)
  {
    hide TaskEvolves, RunEvolves, TaskAfterResult, AgentAfterResult, CanRetry;
    forall id | id in s.db.tasks ensures TaskEvolves(s.now, s.db.tasks[id], s.db.tasks[id]) {
      UnchangedTaskEvolves(s.now, s.db.tasks[id]);
    }
    forall r | r in s.db.runs ensures RunEvolves(s.now, s.db.runs[r], s.db.runs[r]) {
      UnchangedRunEvolves(s.now, s.db.runs[r]);
    }
    var c := Batch(s, w)[0];
    if ResultApplies(s.db, w, c) {
      RecordedTaskEvolves(cfg, s.db.agents[c.agentId], s.now, s.db.tasks[c.taskId], res);
      AcknowledgedRunEvolves(s.now, s.db.runs[c.runId]);
    }
  }

  lemma RecordedTaskEvolves(cfg: Settings, st: AgentState, now: Time, t: Task, res: DispatchResult)
    requires t.status.Dispatching?
    ensures var t' := TaskAfterResult(cfg, st, t, now, res); TaskEvolves(now, t, t') && !t'.status.SignalReceived?
  {
  }

  lemma AcknowledgedRunEvolves(now: Time, run: Run)
    ensures RunEvolves(now, run, run.(status := RunCollecting))
  {
  }

  lemma IngestEvolves(s: System, reg: Registry, maxTtl: int, e: Envelope, nonce: NonceText)
    ensures RowsEvolve(s.now, s.db, DoIngest(s, reg, maxTtl, e, nonce).db)
    ensures SameKeys(s.db, DoIngest(s, reg, maxTtl, e, nonce).db) && DoIngest(s, reg, maxTtl, e, nonce).now == s.now
  {
  }

  lemma JudgedRunEvolves(now: Time, run: Run, v: Verdict)
    ensures RunEvolves(now, run, JudgedRun(run, v, now))
  {
  }

  lemma EvaluateEvolves(s: System, r: RunId)
    requires r in s.db.runs
    ensures RowsEvolve(s.now, s.db, DoEvaluate(s, r).db)
    ensures Quiet(s, DoEvaluate(s, r)) && SameKeys(s.db, DoEvaluate(s, r).db)
  {
    hide Written, TaskEvolves, RunEvolves, JudgedRun;
    forall id | id in s.db.tasks ensures TaskEvolves(s.now, s.db.tasks[id], s.db.tasks[id]) {
      UnchangedTaskEvolves(s.now, s.db.tasks[id]);
    }
    forall k | k in s.db.runs ensures RunEvolves(s.now, s.db.runs[k], s.db.runs[k]) {
      UnchangedRunEvolves(s.now, s.db.runs[k]);
    }
    if Written(s.db, r, s.now).Some? {
      JudgedRunEvolves(s.now, s.db.runs[r], Written(s.db, r, s.now).value);
    }
  }

  lemma RepairedTaskEvolves(signalled: set<TaskId>, now: Time, id: TaskId, t: Task)
    requires id in signalled <==> t.status.SignalReceived?
    ensures var t' := RepairedTask(signalled, now, id, t);
            TaskEvolves(now, t, t') && (t'.status.SignalReceived? ==> t.status.SignalReceived?)
  {
  }

  lemma RepairedRunEvolves(now: Time, run: Run)
    ensures RunEvolves(now, run, RepairedRun(run))
  {
  }

  lemma ReconcileEvolves(s: System, runs: seq<RunId>)
    requires Tables(s)
    ensures var s' := s.(db := Reconciled(s.db, s.now, Elems(runs)));
            RowsEvolve(s.now, s.db, s'.db) && Quiet(s, s') && SameKeys(s.db, s'.db)
  {
    hide Tables, TaskEvolves, RunEvolves, RepairedTask, RepairedRun, SignalledTasks;
    forall id | id in s.db.tasks
      ensures var t' := Reconciled(s.db, s.now, Elems(runs)).tasks[id];
              TaskEvolves(s.now, s.db.tasks[id], t') && (t'.status.SignalReceived? ==> s.db.tasks[id].status.SignalReceived?)
    {
      RepairKeepsSignals(s, id);
      UnchangedTaskEvolves(s.now, s.db.tasks[id]);
      RepairedTaskEvolves(SignalledTasks(s.db.signals, s.db.tasks[id].runId), s.now, id, s.db.tasks[id]);
    }
    forall r | r in s.db.runs ensures RunEvolves(s.now, s.db.runs[r], Reconciled(s.db, s.now, Elems(runs)).runs[r]) {
      UnchangedRunEvolves(s.now, s.db.runs[r]);
      RepairedRunEvolves(s.now, s.db.runs[r]);
    }
  }

  /** Every step of every worker keeps the plan of every run and the result of every ended task. */
  lemma StepEvolves(cfg: Settings, s: System, step: Step)
    requires Tables(s) && Enabled(cfg, s, step)
    ensures s.now <= Apply(cfg, s, step).now && RowsEvolve(s.now, s.db, Apply(cfg, s, step).db)
    ensures !step.Ingest? ==> Quiet(s, Apply(cfg, s, step))
    ensures !step.Plan? ==> SameKeys(s.db, Apply(cfg, s, step).db)
  {
    hide Tables, RowsEvolve, DoPlan, DoClaim, DoRecord, DoIngest, DoEvaluate, IsFirst, IsRoute, FreshIds, ValidPolicy;
    match step
    case Tick(dt) => StayEvolves(s);
    case Plan(reg, o, routed, ids) => PlanEvolves(s, o, routed, ids);
    case Claim(w, endpoints, rows, locked) => ClaimEvolves(cfg, s, w, endpoints, rows, locked);
    case Record(w, res) => RecordEvolves(cfg, s, w, res);
    case Crash(w) => StayEvolves(s);
    case Expire(locked) => ExpireEvolves(s, locked);
    case Ingest(reg, maxTtl, e, nonce) => IngestEvolves(s, reg, maxTtl, e, nonce);
    case Reconcile(runs, lockedRuns, limit) => ReconcileEvolves(s, runs);
    case Evaluate(r) => EvaluateEvolves(s, r);
  }

  // ---------- the tables agree after every step ----------

  lemma EvolutionKeepsShape(s: System, s': System)
    requires Shape(s) && RowsEvolve(s.now, s.db, s'.db) && s.now <= s'.now
    requires SameKeys(s.db, s'.db)
    ensures Shape(s')
  {
    forall r | r in s'.db.runs ensures RunShape(s'.db.runs[r], s'.now) {
      assert RunShape(s.db.runs[r], s.now);
    }
    forall id | id in s'.db.tasks ensures TaskShape(s'.db, s'.db.tasks[id]) {
      assert TaskShape(s.db, s.db.tasks[id]);
    }
  }

  /** The tasks of a new run are well shaped. */
  lemma PlanShapesTasks(s: System, o: Order, routed: seq<seq<AgentId>>, ids: seq<TaskId>)
    requires Shape(s) && ValidPolicy(o.policy) && o.runId !in s.db.runs && |routed| == |o.policy.requirements|
    requires FreshIds(s.db.tasks, ids, Assignments(o.policy.requirements, routed))
    ensures forall id :: id in Planned(s.db, o, s.now, routed, ids).tasks ==>
              TaskShape(Planned(s.db, o, s.now, routed, ids), Planned(s.db, o, s.now, routed, ids).tasks[id])
  {
    var db' := Planned(s.db, o, s.now, routed, ids);
    forall id | id in db'.tasks ensures TaskShape(db', db'.tasks[id]) {
      if id in s.db.tasks {
        assert TaskShape(s.db, s.db.tasks[id]);
      }
    }
  }

  /** The assignment behind a new task. */
  lemma NewTaskOrigin(o: Order, now: Time, doomed: bool, ids: seq<TaskId>, xs: seq<Assignment>, id: TaskId) returns (k: nat)
    requires |ids| == |xs| && Distinct(ids)
    requires id in PlannedTasks(o, now, doomed, ids, xs)
    ensures k < |ids| && ids[k] == id
    ensures PlannedTasks(o, now, doomed, ids, xs)[id] == PlannedTask(o, now, doomed, xs[k])
  {
    k :| 0 <= k < |ids| && ids[k] == id;
  }

  /** A new run has one task for each agent and capability. */
  lemma PlanKeepsUniqueness(s: System, reg: Registry, o: Order, routed: seq<seq<AgentId>>, ids: seq<TaskId>)
    requires Shape(s) && ValidPolicy(o.policy) && o.runId !in s.db.runs
    requires IsRouting(reg, o.asset, o.policy, routed)
    requires FreshIds(s.db.tasks, ids, Assignments(o.policy.requirements, routed))
    ensures UniqueAssignments(Planned(s.db, o, s.now, routed, ids).tasks)
  {
    var tasks' := Planned(s.db, o, s.now, routed, ids).tasks;
    var xs := Assignments(o.policy.requirements, routed);
    var doomed := PlannedRun(o, s.now, routed).missingRequired != [];
    forall i, j | i in tasks' && j in tasks' && i != j
      ensures tasks'[i].runId != tasks'[j].runId || tasks'[i].agentId != tasks'[j].agentId
              || tasks'[i].capability != tasks'[j].capability
    {
      if i in s.db.tasks || j in s.db.tasks {
        assert i in s.db.tasks ==> TaskShape(s.db, s.db.tasks[i]);
        assert j in s.db.tasks ==> TaskShape(s.db, s.db.tasks[j]);
      } else {
        NewTasksDiffer(s.now, reg, o, routed, ids, doomed, i, j);
      }
    }
  }

  lemma NewTasksDiffer(
    now: Time, reg: Registry, o: Order, routed: seq<seq<AgentId>>, ids: seq<TaskId>, doomed: bool, i: TaskId, j: TaskId)
    requires ValidPolicy(o.policy) && IsRouting(reg, o.asset, o.policy, routed)
    requires |ids| == |Assignments(o.policy.requirements, routed)| && Distinct(ids)
    requires var added := PlannedTasks(o, now, doomed, ids, Assignments(o.policy.requirements, routed));
             i in added && j in added && i != j
    ensures var added := PlannedTasks(o, now, doomed, ids, Assignments(o.policy.requirements, routed));
            added[i].agentId != added[j].agentId || added[i].capability != added[j].capability
  {
    var xs := Assignments(o.policy.requirements, routed);
    var k := NewTaskOrigin(o, now, doomed, ids, xs, i);
    var l := NewTaskOrigin(o, now, doomed, ids, xs, j);
    assert forall n :: 0 <= n < |routed| ==> IsRoute(reg, o.asset, o.policy.requirements[n], routed[n]);
    AssignmentsAreUnique(o.policy.requirements, routed, if k < l then k else l, if k < l then l else k);
  }

  lemma PlanKeepsShape(s: System, reg: Registry, o: Order, routed: seq<seq<AgentId>>, ids: seq<TaskId>)
    requires Shape(s) && ValidPolicy(o.policy) && o.runId !in s.db.runs
    requires IsRouting(reg, o.asset, o.policy, routed)
    requires FreshIds(s.db.tasks, ids, Assignments(o.policy.requirements, routed))
    ensures Shape(DoPlan(s, o, routed, ids))
  {
    hide TaskShape, UniqueAssignments, IsRoute, FreshIds, Assignments, PlannedTasks, PlannedTask;
    PlanShapesTasks(s, o, routed, ids);
    PlanKeepsUniqueness(s, reg, o, routed, ids);
  }

  lemma StepKeepsShape(cfg: Settings, s: System, step: Step)
    requires Tables(s) && Enabled(cfg, s, step)
    ensures Shape(Apply(cfg, s, step))
  {
    if step.Plan? {
      PlanKeepsShape(s, step.reg, step.order, step.routed, step.ids);
    } else {
      StepEvolves(cfg, s, step);
      EvolutionKeepsShape(s, Apply(cfg, s, step));
    }
  }

  /** A step that stores no signal completes no task. */
  lemma QuietStepKeepsAgreement(s: System, s': System)
    requires Tables(s) && RowsEvolve(s.now, s.db, s'.db) && Quiet(s, s')
    ensures SignalsAgree(s'.db) && NoncesAgree(s'.db, s'.history.nonceOf)
  {
    forall m | m in s'.db.signals ensures SignalMatches(s'.db, s'.db.signals[m]) {
      assert SignalMatches(s.db, s.db.signals[m]);
    }
    forall id | id in s'.db.tasks && s'.db.tasks[id].status.SignalReceived? ensures TaskAnswered(s'.db.signals, id) {
      assert TaskAnswered(s.db.signals, id);
    }
  }

  lemma IngestKeepsMatches(s: System, reg: Registry, maxTtl: int, e: Envelope, nonce: NonceText)
    requires Tables(s) && Fault(s.db, reg, maxTtl, s.now, e, nonce).None?
    ensures var db' := Ingested(s.db, reg, maxTtl, s.now, e, nonce);
            forall m :: m in db'.signals ==> SignalMatches(db', db'.signals[m])
  {
    hide Fault, Shape, NoncesAgree, TaskAnswered;
    AcceptedIff(s.db, reg, maxTtl, s.now, e, nonce);
    var db' := Ingested(s.db, reg, maxTtl, s.now, e, nonce);
    forall m | m in db'.signals ensures SignalMatches(db', db'.signals[m]) {
      if m != e.messageId {
        assert SignalMatches(s.db, s.db.signals[m]);
      }
    }
  }

  lemma IngestKeepsAnswers(s: System, reg: Registry, maxTtl: int, e: Envelope, nonce: NonceText)
    requires Tables(s) && Fault(s.db, reg, maxTtl, s.now, e, nonce).None?
    ensures var db' := Ingested(s.db, reg, maxTtl, s.now, e, nonce);
            forall id :: id in db'.tasks && db'.tasks[id].status.SignalReceived? ==> TaskAnswered(db'.signals, id)
  {
    hide Fault, Shape, NoncesAgree, SignalMatches, SameTask;
    AcceptedIff(s.db, reg, maxTtl, s.now, e, nonce);
    var db' := Ingested(s.db, reg, maxTtl, s.now, e, nonce);
    assert db'.signals[e.messageId] == StoredSignal(s.now, e);
    forall id | id in db'.tasks && db'.tasks[id].status.SignalReceived? ensures TaskAnswered(db'.signals, id) {
      if e.task == None || id != e.task.value.taskId {
        var m :| m in s.db.signals && s.db.signals[m].task.Some? && s.db.signals[m].task.value.taskId == id;
        assert db'.signals[m] == s.db.signals[m];
      }
    }
  }

  lemma IngestKeepsSignals(s: System, reg: Registry, maxTtl: int, e: Envelope, nonce: NonceText)
    requires Tables(s)
    ensures SignalsAgree(DoIngest(s, reg, maxTtl, e, nonce).db)
  {
    hide Fault, Shape, NoncesAgree, SignalMatches, TaskAnswered;
    if Fault(s.db, reg, maxTtl, s.now, e, nonce).None? {
      IngestKeepsMatches(s, reg, maxTtl, e, nonce);
      IngestKeepsAnswers(s, reg, maxTtl, e, nonce);
      IngestKeepsApart(s, reg, maxTtl, e, nonce);
    }
  }

  lemma IngestKeepsApart(s: System, reg: Registry, maxTtl: int, e: Envelope, nonce: NonceText)
    requires Tables(s) && Fault(s.db, reg, maxTtl, s.now, e, nonce).None?
    ensures var db' := Ingested(s.db, reg, maxTtl, s.now, e, nonce);
            forall m, m' :: m in db'.signals && m' in db'.signals && m != m' ==> !SameTask(db'.signals[m], db'.signals[m'])
  {
    hide Fault, Shape, NoncesAgree, SignalMatches;
    AcceptedIff(s.db, reg, maxTtl, s.now, e, nonce);
  }

  lemma IngestKeepsNonces(s: System, reg: Registry, maxTtl: int, e: Envelope, nonce: NonceText)
    requires Tables(s)
    ensures NoncesAgree(DoIngest(s, reg, maxTtl, e, nonce).db, DoIngest(s, reg, maxTtl, e, nonce).history.nonceOf)
  {
    hide Fault, Shape, SignalsAgree, TaskAnswered;
    var s' := DoIngest(s, reg, maxTtl, e, nonce);
    var nonceOf := s'.history.nonceOf;
    if Fault(s.db, reg, maxTtl, s.now, e, nonce).None? {
      AcceptedIff(s.db, reg, maxTtl, s.now, e, nonce);
      assert nonceOf[e.messageId] == NonceKey(e.agentId, nonce);
      forall k | k in s'.db.nonces ensures exists m :: m in nonceOf && nonceOf[m] == k {
        if k in s.db.nonces {
          var m :| m in s.history.nonceOf && s.history.nonceOf[m] == k;
          assert nonceOf[m] == k;
        }
      }
    }
  }

  lemma StepKeepsAgreement(cfg: Settings, s: System, step: Step)
    requires Tables(s) && Enabled(cfg, s, step)
    ensures SignalsAgree(Apply(cfg, s, step).db)
    ensures NoncesAgree(Apply(cfg, s, step).db, Apply(cfg, s, step).history.nonceOf)
  {
    if step.Ingest? {
      IngestKeepsSignals(s, step.registry, step.maxTtl, step.e, step.nonce);
      IngestKeepsNonces(s, step.registry, step.maxTtl, step.e, step.nonce);
    } else {
      StepEvolves(cfg, s, step);
      QuietStepKeepsAgreement(s, Apply(cfg, s, step));
    }
  }

  lemma StepKeepsTables(cfg: Settings, s: System, step: Step)
    requires Tables(s) && Enabled(cfg, s, step)
    ensures Tables(Apply(cfg, s, step))
  {
    StepKeepsShape(cfg, s, step);
    StepKeepsAgreement(cfg, s, step);
  }
}
