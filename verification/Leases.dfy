/** Commands in flight and the leases of their tasks. */
module Leases {
  import opened Rows
  import opened Dispatch
  import Ingestion
  import opened Recovery
  import opened Quorum
  import opened Planner
  import opened Protocol
  import opened Agreement

  predicate Live(c: Command, now: Time) {
    now < c.leaseUntil
  }

  /** The task is on the attempt that sent the command. */
  predicate OnAttempt(t: Task, w: WorkerId, c: Command) {
    && t.status.Dispatching?
    && t.leaseOwner == Some(w)
    && t.attempts == c.attempt
    && t.leaseUntil == Some(c.leaseUntil)
  }

  predicate CommandFits(s: System, w: WorkerId, c: Command) {
    && c.taskId in s.db.tasks
    && c.agentId in s.db.agents
    && var t := s.db.tasks[c.taskId];
    && c.runId == t.runId
    && c.agentId == t.agentId
    && c.attempt <= t.attempts
    && (t.status.Dispatching? && t.leaseOwner == Some(w) ==> OnAttempt(t, w, c))
    && (Live(c, s.now) ==> OnAttempt(t, w, c) || Terminal(t.status))
  }

  ghost predicate CommandsFit(s: System) {
    forall w, c :: w in s.inflight && c in s.inflight[w] ==> CommandFits(s, w, c)
  }

  /** Two commands of one task were sent by different attempts, and at most one is live. */
  predicate Apart(now: Time, c: Command, c': Command) {
    c.taskId == c'.taskId ==> c.attempt != c'.attempt && !(Live(c, now) && Live(c', now))
  }

  ghost predicate CommandsApart(s: System) {
    forall w, w', c, c' ::
      (w in s.inflight && w' in s.inflight && w != w' && c in s.inflight[w] && c' in s.inflight[w'])
      ==> Apart(s.now, c, c')
  }

  ghost predicate BatchesDistinct(s: System) {
    forall w, i, j :: w in s.inflight && 0 <= i < j < |s.inflight[w]| ==>
      s.inflight[w][i].taskId != s.inflight[w][j].taskId
  }

  ghost predicate LeasesHeld(s: System) {
    forall id :: id in s.db.tasks && s.db.tasks[id].status.Dispatching? ==>
      s.db.tasks[id].leaseOwner.Some? && s.db.tasks[id].leaseUntil.Some?
  }

  ghost predicate Leasing(s: System) {
    LeasesHeld(s) && CommandsFit(s) && CommandsApart(s) && BatchesDistinct(s)
  }

  // ---------- steps that start no attempt and record no result ----------

  predicate PassiveTask(now: Time, t: Task, t': Task) {
    && SameIdentity(t, t')
    && t'.attempts == t.attempts
    && (Terminal(t.status) ==> t' == t)
    && (t'.status.Pending? ==> t.status.Pending?)
    && (t'.status.Dispatching? ==>
          t.status.Dispatching? && t'.leaseOwner == t.leaseOwner && t'.leaseUntil == t.leaseUntil)
    && (t'.status.Retry? ==>
          t.status.Retry? || (t.status.Dispatching? && t.leaseUntil.Some? && t.leaseUntil.value <= now))
    && (t.status.Retry? && t'.status.Retry? ==> t'.dispatchAfter == t.dispatchAfter)
    && (t.status.Dispatching? ==> t'.status.Dispatching? || t'.status.Retry? || Terminal(t'.status))
  }

  ghost predicate Passive(s: System, s': System) {
    && s.now <= s'.now
    && s'.db.agents == s.db.agents
    && s'.history.starts == s.history.starts
    && s'.history.retries == s.history.retries
    && s'.history.results == s.history.results
    && (forall id :: id in s.db.tasks ==> id in s'.db.tasks && PassiveTask(s.now, s.db.tasks[id], s'.db.tasks[id]))
    && (forall id :: id in s'.db.tasks && id !in s.db.tasks ==>
          && (s'.db.tasks[id].status.Pending? || s'.db.tasks[id].status.Cancelled?)
          && s'.db.tasks[id].attempts == 0)
  }

  lemma KeptLeases(s: System, s': System)
    requires Leasing(s) && Passive(s, s') && s'.inflight == s.inflight
    ensures Leasing(s')
  {
    forall w, c | w in s'.inflight && c in s'.inflight[w] ensures CommandFits(s', w, c) {
      assert CommandFits(s, w, c);
    }
    forall w, w', c, c' | w in s'.inflight && w' in s'.inflight && w != w'
      && c in s'.inflight[w] && c' in s'.inflight[w'] ensures Apart(s'.now, c, c')
    {
      assert Apart(s.now, c, c');
    }
  }

  lemma ReconcileIsPassive(s: System, runs: seq<RunId>)
    requires Tables(s)
    ensures Passive(s, s.(db := Reconciled(s.db, s.now, Elems(runs))))
  {
    hide Tables, PassiveTask, RepairedTask, RepairedRun, SignalledTasks;
    var s' := s.(db := Reconciled(s.db, s.now, Elems(runs)));
    forall id | id in s.db.tasks ensures PassiveTask(s.now, s.db.tasks[id], s'.db.tasks[id]) {
      RepairKeepsSignals(s, id);
      RepairIsPassive(SignalledTasks(s.db.signals, s.db.tasks[id].runId), s.now, id, s.db.tasks[id]);
    }
  }

  lemma RepairIsPassive(signalled: set<TaskId>, now: Time, id: TaskId, t: Task)
    requires id in signalled <==> t.status.SignalReceived?
    ensures PassiveTask(now, t, RepairedTask(signalled, now, id, t)) && PassiveTask(now, t, t)
  {
  }

  lemma ExpireIsPassive(s: System, locked: set<TaskId>)
    ensures Passive(s, s.(db := Expired(s.db, s.now, locked)))
  {
  }

  lemma IngestIsPassive(s: System, reg: Ingestion.Registry, maxTtl: int, e: Ingestion.Envelope, nonce: NonceText)
    ensures Passive(s, DoIngest(s, reg, maxTtl, e, nonce))
  {
  }

  lemma PlanIsPassive(s: System, o: Order, routed: seq<seq<AgentId>>, ids: seq<TaskId>)
    requires |routed| == |o.policy.requirements|
    requires FreshIds(s.db.tasks, ids, Assignments(o.policy.requirements, routed))
    ensures Passive(s, DoPlan(s, o, routed, ids))
  {
  }

  lemma EvaluateIsPassive(s: System, r: RunId)
    requires r in s.db.runs
    ensures Passive(s, DoEvaluate(s, r))
  {
    hide Decide;
  }

  lemma TickIsPassive(s: System, dt: nat)
    ensures Passive(s, s.(now := s.now + dt))
  {
  }

  lemma CrashIsPassive(s: System, w: WorkerId)
    ensures Passive(s, s.(inflight := s.inflight[w := []]))
  {
  }

  // ---------- claim ----------

  /** No command of a claimable task is live. */
  lemma ClaimableHasNoLiveCommand(s: System, id: TaskId, w: WorkerId, c: Command)
    requires Leasing(s) && id in s.db.tasks && Claimable(s.db.tasks[id], s.now)
    requires w in s.inflight && c in s.inflight[w] && c.taskId == id
    ensures !Live(c, s.now)
  {
    assert CommandFits(s, w, c);
  }

  /** What a claim sends: commands of claimable tasks, each for the attempt that follows. */
  lemma ClaimSends(cfg: Settings, s: System, w: WorkerId, endpoints: set<AgentId>, rows: seq<TaskId>, locked: set<TaskId>)
    requires IsFirst(ClaimKeys(s.db.tasks, s.now, locked), cfg.batchSize, rows)
    ensures forall i :: 0 <= i < |rows| ==> rows[i] in s.db.tasks && Claimable(s.db.tasks[rows[i]], s.now)
    ensures forall c :: c in DoClaim(cfg, s, w, endpoints, rows).inflight[w] ==>
              && c.taskId in rows && IsStart(cfg, s.db, endpoints, s.now, c)
              && Claimable(s.db.tasks[c.taskId], s.now)
  {
    hide ClaimOutcomeOf, Claimable;
    CommandsAreStarts(cfg, s.db, endpoints, s.now, rows);
    forall id | id in rows ensures Claimable(s.db.tasks[id], s.now) {}
  }

  lemma ClaimKeepsFit(cfg: Settings, s: System, w: WorkerId, endpoints: set<AgentId>, rows: seq<TaskId>, locked: set<TaskId>)
    requires Leasing(s) && Batch(s, w) == []
    requires IsFirst(ClaimKeys(s.db.tasks, s.now, locked), cfg.batchSize, rows)
    ensures CommandsFit(DoClaim(cfg, s, w, endpoints, rows))
  {
    hide StartsOn, Commands, IsFirst, KeyLess;
    ClaimSends(cfg, s, w, endpoints, rows, locked);
    var s' := DoClaim(cfg, s, w, endpoints, rows);
    forall v, c | v in s'.inflight && c in s'.inflight[v] ensures CommandFits(s', v, c) {
      if v != w {
        assert CommandFits(s, v, c);
        if c.taskId in rows {
          ClaimableHasNoLiveCommand(s, c.taskId, v, c);
        }
      }
    }
  }

  lemma ClaimKeepsApart(cfg: Settings, s: System, w: WorkerId, endpoints: set<AgentId>, rows: seq<TaskId>, locked: set<TaskId>)
    requires Leasing(s) && Batch(s, w) == []
    requires IsFirst(ClaimKeys(s.db.tasks, s.now, locked), cfg.batchSize, rows)
    ensures CommandsApart(DoClaim(cfg, s, w, endpoints, rows))
  {
    hide StartsOn, Commands, IsFirst, KeyLess, ClaimOutcomeOf, Claimed;
    ClaimSends(cfg, s, w, endpoints, rows, locked);
    var s' := DoClaim(cfg, s, w, endpoints, rows);
    forall v, c, c' | v in s.inflight && v != w && c in s.inflight[v] && c' in s'.inflight[w]
      ensures Apart(s.now, c, c')
    {
      assert CommandFits(s, v, c);
      if c.taskId == c'.taskId {
        ClaimableHasNoLiveCommand(s, c.taskId, v, c);
      }
    }
  }

  lemma ClaimKeepsHeld(cfg: Settings, s: System, w: WorkerId, endpoints: set<AgentId>, rows: seq<TaskId>, locked: set<TaskId>)
    requires LeasesHeld(s) && IsFirst(ClaimKeys(s.db.tasks, s.now, locked), cfg.batchSize, rows)
    ensures LeasesHeld(DoClaim(cfg, s, w, endpoints, rows))
  {
    hide ClaimOutcomeOf, ClaimedAgent, Commands, Claimable, KeyLess;
  }

  lemma ClaimKeepsDistinct(cfg: Settings, s: System, w: WorkerId, endpoints: set<AgentId>, rows: seq<TaskId>, locked: set<TaskId>)
    requires BatchesDistinct(s) && IsFirst(ClaimKeys(s.db.tasks, s.now, locked), cfg.batchSize, rows)
    ensures BatchesDistinct(DoClaim(cfg, s, w, endpoints, rows))
  {
    hide ClaimOutcomeOf, Claimed, Commands, Claimable, KeyLess;
    CommandsAreStarts(cfg, s.db, endpoints, s.now, rows);
  }

  lemma ClaimKeepsLeasing(cfg: Settings, s: System, w: WorkerId, endpoints: set<AgentId>, rows: seq<TaskId>, locked: set<TaskId>)
    requires Leasing(s) && Batch(s, w) == []
    requires IsFirst(ClaimKeys(s.db.tasks, s.now, locked), cfg.batchSize, rows)
    ensures Leasing(DoClaim(cfg, s, w, endpoints, rows))
  {
    hide CommandsFit, CommandsApart, BatchesDistinct, LeasesHeld, DoClaim, IsFirst;
    ClaimKeepsFit(cfg, s, w, endpoints, rows, locked);
    ClaimKeepsApart(cfg, s, w, endpoints, rows, locked);
    ClaimKeepsHeld(cfg, s, w, endpoints, rows, locked);
    ClaimKeepsDistinct(cfg, s, w, endpoints, rows, locked);
  }

  // ---------- result and crash ----------

  lemma RecordKeepsLeasing(cfg: Settings, s: System, w: WorkerId, res: DispatchResult)
    requires Leasing(s) && Batch(s, w) != []
    ensures Leasing(DoRecord(cfg, s, w, res))
  {
    hide AgentAfterResult, RetryAt, CanRetry;
    var s' := DoRecord(cfg, s, w, res);
    var done := Batch(s, w)[0];
    assert CommandFits(s, w, done);
    forall v, c | v in s'.inflight && c in s'.inflight[v] ensures CommandFits(s', v, c) {
      assert v == w ==> c in s.inflight[w][1..];
      assert c in s.inflight[v];
      assert CommandFits(s, v, c);
    }
    forall v, v', c, c' | v in s'.inflight && v' in s'.inflight && v != v'
      && c in s'.inflight[v] && c' in s'.inflight[v'] ensures Apart(s'.now, c, c')
    {
      assert c in s.inflight[v] && c' in s.inflight[v'];
    }
  }

  lemma CrashKeepsLeasing(s: System, w: WorkerId)
    requires Leasing(s)
    ensures Leasing(s.(inflight := s.inflight[w := []]))
  {
    var s' := s.(inflight := s.inflight[w := []]);
    forall v, c | v in s'.inflight && c in s'.inflight[v] ensures CommandFits(s', v, c) {
      assert CommandFits(s, v, c);
    }
  }

  /** The steps other than claims and results. */
  lemma OtherStepsArePassive(cfg: Settings, s: System, step: Step)
    requires Tables(s) && Enabled(cfg, s, step) && !step.Claim? && !step.Record?
    ensures Passive(s, Apply(cfg, s, step))
    ensures !step.Crash? ==> Apply(cfg, s, step).inflight == s.inflight
  {
    hide Tables, Passive, Planned, Decide, Ingestion.Fault, IsFirst, IsRoute, FreshIds, ValidPolicy;
    match step
    case Tick(dt) => TickIsPassive(s, dt);
    case Plan(reg, o, routed, ids) => PlanIsPassive(s, o, routed, ids);
    case Crash(w) => CrashIsPassive(s, w);
    case Expire(locked) => ExpireIsPassive(s, locked);
    case Ingest(reg, maxTtl, e, nonce) => IngestIsPassive(s, reg, maxTtl, e, nonce);
    case Reconcile(runs, lockedRuns, limit) => ReconcileIsPassive(s, runs);
    case Evaluate(r) => EvaluateIsPassive(s, r);
  }

  lemma StepKeepsLeasing(cfg: Settings, s: System, step: Step)
    requires Tables(s) && Leasing(s) && Enabled(cfg, s, step)
    ensures Leasing(Apply(cfg, s, step))
  {
    hide Tables, Leasing, Passive, DoPlan, DoClaim, DoRecord, DoIngest, DoEvaluate, IsFirst, IsRoute, FreshIds, ValidPolicy;
    match step
    case Claim(w, endpoints, rows, locked) => ClaimKeepsLeasing(cfg, s, w, endpoints, rows, locked);
    case Record(w, res) => RecordKeepsLeasing(cfg, s, w, res);
    case Crash(w) => CrashKeepsLeasing(s, w);
    case _ =>
      OtherStepsArePassive(cfg, s, step);
      KeptLeases(s, Apply(cfg, s, step));
  }
}
