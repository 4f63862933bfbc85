/** When a finished run stays finished. */
module Finality {
  import opened Rows
  import opened Dispatch
  import Ingestion
  import opened Recovery
  import opened Quorum
  import opened Planner
  import opened Protocol
  import opened Agreement
  import opened Leases
  import opened Theorems
  import opened Scenarios

  /** The step records an acknowledgement of a task of run `r`. */
  predicate AcknowledgesTaskOf(s: System, step: Step, r: RunId) {
    && step.Record?
    && Batch(s, step.w) != []
    && Batch(s, step.w)[0].runId == r
    && step.res.disposition.Accepted?
    && ResultApplies(s.db, step.w, Batch(s, step.w)[0])
  }

  /** A step reopens a finished run if and only if it records an acknowledgement of one of its tasks. */
  lemma ReopenedIffAcknowledged(cfg: Settings, s: System, step: Step, r: RunId)
    requires Good(cfg, s) && Enabled(cfg, s, step)
    requires r in s.db.runs && Settled(s.db.runs[r].status)
    ensures r in Apply(cfg, s, step).db.runs
    ensures Apply(cfg, s, step).db.runs[r].status != s.db.runs[r].status <==> AcknowledgesTaskOf(s, step, r)
  {
    hide Good, IsFirst, IsRoute, ValidPolicy, Ingestion.Fault, Decide;
  }

  // ---------- evaluation while nothing is in flight ----------

  ghost predicate Idle(s: System) {
    forall w :: w in s.inflight ==> s.inflight[w] == []
  }

  /** Runs are only evaluated while no command is in flight. */
  ghost predicate EvaluatesWhenIdle(b: seq<System>, steps: seq<Step>) {
    |b| == |steps| + 1 && forall i :: 0 <= i < |steps| && steps[i].Evaluate? ==> Idle(b[i])
  }

  /** The schedule of one worker that dispatches its whole batch before it evaluates. A crash
      empties the batch; signals arrive at any time. */
  ghost predicate OneWorkerSchedule(b: seq<System>, steps: seq<Step>, w: WorkerId) {
    |b| == |steps| + 1
    && forall i :: 0 <= i < |steps| ==>
         && (steps[i].Claim? ==> steps[i].w == w)
         && (steps[i].Evaluate? ==> Batch(b[i], w) == [])
  }

  /** Every command in flight belongs to an unfinished run. */
  ghost predicate InFlightUnfinished(s: System) {
    forall w, c :: w in s.inflight && c in s.inflight[w] ==>
      c.runId in s.db.runs && !Settled(s.db.runs[c.runId].status)
  }

  lemma ClaimKeepsUnfinished(cfg: Settings, s: System, step: Step)
    requires step.Claim? && Enabled(cfg, s, step) && InFlightUnfinished(s)
    ensures InFlightUnfinished(Apply(cfg, s, step))
  {
    ClaimSends(cfg, s, step.w, step.endpoints, step.rows, step.locked);
    hide IsFirst, Commands, ClaimedTask, ClaimedAgent, Claimable;
  }

  lemma RecordKeepsUnfinished(cfg: Settings, s: System, step: Step)
    requires step.Record? && Enabled(cfg, s, step) && InFlightUnfinished(s)
    ensures InFlightUnfinished(Apply(cfg, s, step))
  {
    hide TaskAfterResult, AgentAfterResult;
    var s' := Apply(cfg, s, step);
    forall w, c | w in s'.inflight && c in s'.inflight[w]
      ensures c.runId in s'.db.runs && !Settled(s'.db.runs[c.runId].status)
    {
      assert c in s.inflight[w];
    }
  }

  lemma OtherStepsKeepUnfinished(cfg: Settings, s: System, step: Step)
    requires Enabled(cfg, s, step) && InFlightUnfinished(s) && !step.Claim? && !step.Record?
    requires step.Evaluate? ==> Idle(s)
    ensures InFlightUnfinished(Apply(cfg, s, step))
  {
    hide IsFirst, IsRoute, ValidPolicy, Ingestion.Fault, Decide;
  }

  lemma {:induction false} UnfinishedInFlight(cfg: Settings, b: seq<System>, steps: seq<Step>, i: nat)
    requires Behaviour(cfg, b, steps) && EvaluatesWhenIdle(b, steps) && i < |b|
    ensures InFlightUnfinished(b[i])
  {
    hide Apply, Enabled, Idle;
    if i > 0 {
      UnfinishedInFlight(cfg, b, steps, i - 1);
      if steps[i - 1].Claim? {
        ClaimKeepsUnfinished(cfg, b[i - 1], steps[i - 1]);
      } else if steps[i - 1].Record? {
        RecordKeepsUnfinished(cfg, b[i - 1], steps[i - 1]);
      } else {
        OtherStepsKeepUnfinished(cfg, b[i - 1], steps[i - 1]);
      }
    }
  }

  /** Finality: if runs are evaluated only while nothing is in flight, a finished run keeps its
      terminal status for ever. */
  lemma {:induction false} FinishedStaysFinished(cfg: Settings, b: seq<System>, steps: seq<Step>, i: nat, j: nat, r: RunId)
    requires ValidSettings(cfg) && Behaviour(cfg, b, steps) && EvaluatesWhenIdle(b, steps) && i <= j < |b|
    requires r in b[i].db.runs && Settled(b[i].db.runs[r].status)
    ensures r in b[j].db.runs && b[j].db.runs[r].status == b[i].db.runs[r].status
    decreases j
  {
    hide Good, Apply, Enabled, ResultApplies;
    if i < j {
      FinishedStaysFinished(cfg, b, steps, i, j - 1, r);
      EveryStateIsGood(cfg, b, steps, j - 1);
      UnfinishedInFlight(cfg, b, steps, j - 1);
      ReopenedIffAcknowledged(cfg, b[j - 1], steps[j - 1], r);
    }
  }

  lemma {:induction false} OtherWorkersIdle(cfg: Settings, b: seq<System>, steps: seq<Step>, w: WorkerId, i: nat)
    requires Behaviour(cfg, b, steps) && OneWorkerSchedule(b, steps, w) && i < |b|
    ensures forall v :: v != w ==> Batch(b[i], v) == []
  {
    if i > 0 {
      OtherWorkersIdle(cfg, b, steps, w, i - 1);
      OnlyClaimsSend(cfg, b[i - 1], steps[i - 1]);
      hide Apply, Enabled;
    }
  }

  lemma OnlyClaimsSend(cfg: Settings, s: System, step: Step)
    requires Enabled(cfg, s, step)
    ensures forall v :: Batch(s, v) == [] && !(step.Claim? && v == step.w) ==> Batch(Apply(cfg, s, step), v) == []
  {
    hide IsFirst, IsRoute, ValidPolicy, Ingestion.Fault, Decide, Expired, Claimed, Reconciled, Recorded;
  }

  /** One worker following its cycle never reopens a finished run, crashes included. */
  lemma OneWorkerIsFinal(cfg: Settings, b: seq<System>, steps: seq<Step>, w: WorkerId, i: nat, j: nat, r: RunId)
    requires ValidSettings(cfg) && Behaviour(cfg, b, steps) && OneWorkerSchedule(b, steps, w) && i <= j < |b|
    requires r in b[i].db.runs && Settled(b[i].db.runs[r].status)
    ensures r in b[j].db.runs && b[j].db.runs[r].status == b[i].db.runs[r].status
  {
    hide Behaviour;
    forall k | 0 <= k < |steps| && steps[k].Evaluate? ensures Idle(b[k]) {
      OtherWorkersIdle(cfg, b, steps, w, k);
      forall v | v in b[k].inflight ensures b[k].inflight[v] == [] {
        assert Batch(b[k], v) == [];
      }
    }
    FinishedStaysFinished(cfg, b, steps, i, j, r);
  }

  // ---------- without that schedule ----------

  /** An optional task is in flight when its run reaches the collection deadline. */
  lemma DueRunIsDegraded(cfg: Settings, s: System)
    requires Tables(s) && 0 in s.db.runs && 0 in s.db.tasks && s.db.tasks[0].runId == 0 && s.db.tasks[0].status.Dispatching?
    requires s.db.runs[0].policy == OneTaskPolicy(1) && s.db.runs[0].status.RunDispatching? && s.db.runs[0].collectionDeadline <= s.now
    requires s.db.tasks.Keys == {0}
    ensures var s' := Apply(cfg, s, Evaluate(0));
            s'.now == s.now && s'.inflight == s.inflight
            && s'.db == s.db.(runs := s.db.runs[0 := JudgedRun(s.db.runs[0], Degraded, s.now)])
  {
    var tasks, p := s.db.tasks, s.db.runs[0].policy;
    assert 0 in TasksOf(tasks, 0);
    assert !AnyShort(tasks, 0, p) && !AnyCriticalLoss(tasks, 0, p);
    assert Decide(tasks, 0, s.db.runs[0], s.now) == Some(Degraded);
    hide Decide;
  }

  /** A terminal status is not absorbing in general. With every valid configuration there is a run of the
      protocol in which the acknowledgement of an optional task arrives after the collection deadline:
      another process has judged the run DEGRADED, and the acknowledgement reopens it. */
  lemma LateAcknowledgementReopens(cfg: Settings) returns (b: seq<System>, steps: seq<Step>)
    requires ValidSettings(cfg)
    ensures Behaviour(cfg, b, steps) && |steps| >= 1
    ensures var s, s' := b[|b| - 2], b[|b| - 1];
            && 0 in s.db.runs && s.db.runs[0].status.RunDegraded?
            && 0 in s'.db.runs && s'.db.runs[0].status.RunCollecting?
  {
    hide Reachable, Apply, Enabled, Tables, Decide;
    var s0 := System(0, Db(map[], map[], map[], map[], {}), map[], History(map[], map[], map[], map[], map[]));
    InitIsReachable(cfg, NO_BACKOFF, s0);
    PlanOneTask(cfg, s0, 0, 0, 1);
    StepIsReachable(cfg, NO_BACKOFF, s0, PlanOne(s0.now, 0, 0, 1));
    var s1 := Apply(cfg, s0, PlanOne(s0.now, 0, 0, 1));
    ClaimOneTask(cfg, s1, 1, 0);
    StepIsReachable(cfg, NO_BACKOFF, s1, ClaimOne(s1, 1, 0));
    var s2 := Apply(cfg, s1, ClaimOne(s1, 1, 0));
    Elapse(cfg, NO_BACKOFF, s2, 1);
    var s3 := s2.(now := s2.now + 1);
    ReachableTables(cfg, NO_BACKOFF, s3);
    DueRunIsDegraded(cfg, s3);
    assert Enabled(cfg, s3, Evaluate(0)) by { EvaluateIsEnabled(cfg, s3, 0); }
    StepIsReachable(cfg, NO_BACKOFF, s3, Evaluate(0));
    var s4 := Apply(cfg, s3, Evaluate(0));
    var ack := DispatchResult(Accepted, 0);
    RecordOne(cfg, s4, 1, 0, ack);
    b, steps := RunAndStep(cfg, NO_BACKOFF, s4, Record(1, ack));
  }

  lemma EvaluateIsEnabled(cfg: Settings, s: System, r: RunId)
    requires r in s.db.runs
    ensures Enabled(cfg, s, Evaluate(r))
  {
  }
}
