/** The verdicts written for one run, over every interleaving. */
module Verdicts {
  import opened Rows
  import opened Dispatch
  import Ingestion
  import opened Quorum
  import opened Planner
  import opened Protocol
  import opened Agreement

  /** A verdict is only followed by itself, or DEGRADED by CRITICAL. */
  predicate MayFollow(v: Verdict, v': Verdict) {
    v' == v || (v.Degraded? && v'.Critical?)
  }

  predicate Chain(vs: seq<Verdict>) {
    forall i, j :: 0 <= i < j < |vs| ==> MayFollow(vs[i], vs[j])
  }

  /** Why a verdict cannot be improved any more. */
  ghost predicate Locked(db: Db, r: RunId, now: Time, v: Verdict)
    requires r in db.runs
  {
    var run := db.runs[r];
    match v
    case Full =>
      AllReceived(db.tasks, r) && run.missingOptional == [] && !AnyShort(db.tasks, r, run.policy)
    case Degraded =>
      && !AnyShort(db.tasks, r, run.policy)
      && (run.missingOptional != [] || LostOne(db, r, now))
    case Critical =>
      exists i :: 0 <= i < |run.policy.requirements| && Doomed(db, r, now, run.policy.requirements[i])
  }

  /** A task that will never be completed. */
  ghost predicate LostOne(db: Db, r: RunId, now: Time)
    requires r in db.runs
  {
    exists id :: id in TasksOf(db.tasks, r) && !db.tasks[id].status.SignalReceived?
      && (Terminal(db.tasks[id].status) || now >= db.runs[r].collectionDeadline)
  }

  /** A requirement that will never be met. */
  ghost predicate Doomed(db: Db, r: RunId, now: Time, q: Requirement)
    requires r in db.runs
  {
    || Hopeless(db.tasks, r, q)
    || (Short(db.tasks, r, q) && now >= db.runs[r].collectionDeadline)
    || CriticalLoss(db.tasks, r, q)
  }

  // ---------- counting tasks along the evolution of rows ----------

  /** No task joins or leaves a planned run. */
  lemma SameTasks(now: Time, db: Db, db': Db, r: RunId, c: Capability)
    requires RowsEvolve(now, db, db') && r in db.runs
    ensures TasksOf(db'.tasks, r) == TasksOf(db.tasks, r)
    ensures CapTasks(db'.tasks, r, c) == CapTasks(db.tasks, r, c)
  {
  }

  /** Received plus unfinished tasks never grow, and received tasks never shrink. */
  lemma CountsEvolve(now: Time, db: Db, db': Db, r: RunId, c: Capability)
    requires RowsEvolve(now, db, db') && r in db.runs
    ensures |Received(db.tasks, r, c)| <= |Received(db'.tasks, r, c)|
    ensures |Received(db'.tasks, r, c)| + |Unfinished(db'.tasks, r, c)|
         <= |Received(db.tasks, r, c)| + |Unfinished(db.tasks, r, c)|
  {
    var rec, unf := Received(db.tasks, r, c), Unfinished(db.tasks, r, c);
    var rec', unf' := Received(db'.tasks, r, c), Unfinished(db'.tasks, r, c);
    SubsetSize(rec, rec');
    assert rec !! unf && rec' !! unf';
    assert |rec + unf| == |rec| + |unf| && |rec' + unf'| == |rec'| + |unf'|;
    SubsetSize(rec' + unf', rec + unf);
  }

  /** No signal lands at or after the collection deadline. */
  lemma ReceivedFrozen(now: Time, db: Db, db': Db, r: RunId, c: Capability)
    requires RowsEvolve(now, db, db') && r in db.runs && now >= db.runs[r].collectionDeadline
    requires forall id :: id in db.tasks ==> TaskShape(db, db.tasks[id])
    ensures Received(db'.tasks, r, c) == Received(db.tasks, r, c)
  {
    forall id | id in Received(db'.tasks, r, c) ensures id in Received(db.tasks, r, c) {
      assert TaskShape(db, db.tasks[id]);
    }
  }

  // ---------- locks ----------

  lemma DecisionLocks(db: Db, r: RunId, now: Time)
    requires r in db.runs && Decide(db.tasks, r, db.runs[r], now).Some?
    ensures Locked(db, r, now, Decide(db.tasks, r, db.runs[r], now).value)
  {
    var p := db.runs[r].policy;
    match Decide(db.tasks, r, db.runs[r], now).value
    case Full =>
    case Degraded =>
    case Critical =>
      if AnyShort(db.tasks, r, p) && AllTerminal(db.tasks, r) {
        var i :| 0 <= i < |p.requirements| && Short(db.tasks, r, p.requirements[i]);
        assert Unfinished(db.tasks, r, p.requirements[i].capability) == {};
        assert Doomed(db, r, now, p.requirements[i]);
      } else if AnyHopeless(db.tasks, r, p) {
        var i :| 0 <= i < |p.requirements| && Hopeless(db.tasks, r, p.requirements[i]);
        assert Doomed(db, r, now, p.requirements[i]);
      } else if AnyCriticalLoss(db.tasks, r, p) {
        var i :| 0 <= i < |p.requirements| && CriticalLoss(db.tasks, r, p.requirements[i]);
        assert Doomed(db, r, now, p.requirements[i]);
      } else {
        var i :| 0 <= i < |p.requirements| && Short(db.tasks, r, p.requirements[i]);
        assert Doomed(db, r, now, p.requirements[i]);
      }
  }

  lemma LockForces(db: Db, r: RunId, now: Time, v: Verdict)
    requires r in db.runs && Locked(db, r, now, v) && Decide(db.tasks, r, db.runs[r], now).Some?
    ensures MayFollow(v, Decide(db.tasks, r, db.runs[r], now).value)
  {
    var p := db.runs[r].policy;
    match v
    case Full =>
      forall i | 0 <= i < |p.requirements| ensures !CriticalLoss(db.tasks, r, p.requirements[i]) {}
    case Degraded =>
    case Critical =>
      var i :| 0 <= i < |p.requirements| && Doomed(db, r, now, p.requirements[i]);
      var q := p.requirements[i];
      assert Short(db.tasks, r, q) || CriticalLoss(db.tasks, r, q);
  }

  lemma DoomStays(now: Time, now': Time, db: Db, db': Db, r: RunId, q: Requirement)
    requires RowsEvolve(now, db, db') && r in db.runs && now <= now'
    requires forall id :: id in db.tasks ==> TaskShape(db, db.tasks[id])
    requires Doomed(db, r, now, q)
    ensures Doomed(db', r, now', q)
  {
    CountsEvolve(now, db, db', r, q.capability);
    if Hopeless(db.tasks, r, q) {
    } else if CriticalLoss(db.tasks, r, q) {
      var id :| id in CapTasks(db.tasks, r, q.capability) && Lost(db.tasks[id].status);
      assert id in CapTasks(db'.tasks, r, q.capability) && Lost(db'.tasks[id].status);
    } else {
      ReceivedFrozen(now, db, db', r, q.capability);
    }
  }

  lemma EnoughStaysEnough(now: Time, db: Db, db': Db, r: RunId, p: Policy)
    requires RowsEvolve(now, db, db') && r in db.runs && !AnyShort(db.tasks, r, p)
    ensures !AnyShort(db'.tasks, r, p)
  {
    forall i | 0 <= i < |p.requirements| ensures !Short(db'.tasks, r, p.requirements[i]) {
      assert !Short(db.tasks, r, p.requirements[i]);
      CountsEvolve(now, db, db', r, p.requirements[i].capability);
    }
  }

  lemma LossStays(now: Time, now': Time, db: Db, db': Db, r: RunId)
    requires RowsEvolve(now, db, db') && r in db.runs && now <= now'
    requires forall id :: id in db.tasks ==> TaskShape(db, db.tasks[id])
    requires LostOne(db, r, now)
    ensures LostOne(db', r, now')
  {
    var id :| id in TasksOf(db.tasks, r) && !db.tasks[id].status.SignalReceived?
      && (Terminal(db.tasks[id].status) || now >= db.runs[r].collectionDeadline);
    assert TaskShape(db, db.tasks[id]);
    assert id in TasksOf(db'.tasks, r);
  }

  lemma LockStays(s: System, s': System, r: RunId, v: Verdict)
    requires Shape(s) && RowsEvolve(s.now, s.db, s'.db) && s.now <= s'.now
    requires r in s.db.runs && Locked(s.db, r, s.now, v)
    ensures r in s'.db.runs && Locked(s'.db, r, s'.now, v)
  {
    var p := s.db.runs[r].policy;
    match v
    case Full =>
      SameTasks(s.now, s.db, s'.db, r, 0);
      EnoughStaysEnough(s.now, s.db, s'.db, r, p);
    case Degraded =>
      EnoughStaysEnough(s.now, s.db, s'.db, r, p);
      if s.db.runs[r].missingOptional == [] {
        LossStays(s.now, s'.now, s.db, s'.db, r);
      }
    case Critical =>
      var i :| 0 <= i < |p.requirements| && Doomed(s.db, r, s.now, p.requirements[i]);
      DoomStays(s.now, s'.now, s.db, s'.db, r, p.requirements[i]);
  }

  // ---------- the invariant ----------

  ghost predicate RunJudged(s: System, r: RunId)
    requires r in s.db.runs
  {
    var vs, run := VerdictsOf(s.history, r), s.db.runs[r];
    && Chain(vs)
    && (vs == [] ==> run.outcome == None && !Settled(run.status))
    && (vs != [] ==>
          && Locked(s.db, r, s.now, vs[|vs| - 1])
          && run.outcome == Some(OutcomeOf(vs[|vs| - 1]))
          && (Settled(run.status) ==> run.status == StatusOf(vs[|vs| - 1])))
  }

  ghost predicate Judged(s: System) {
    forall r :: r in s.db.runs ==> RunJudged(s, r)
  }

  /** The run's outcome did not change, and it did not become settled. */
  predicate SameVerdict(run: Run, run': Run) {
    run'.outcome == run.outcome && (Settled(run'.status) ==> run'.status == run.status)
  }

  lemma UnjudgedRunStaysJudged(s: System, s': System, r: RunId)
    requires Shape(s) && RowsEvolve(s.now, s.db, s'.db) && s.now <= s'.now
    requires r in s.db.runs && r in s'.db.runs && RunJudged(s, r)
    requires VerdictsOf(s'.history, r) == VerdictsOf(s.history, r)
    requires SameVerdict(s.db.runs[r], s'.db.runs[r])
    ensures RunJudged(s', r)
  {
    hide Locked;
    var vs := VerdictsOf(s.history, r);
    if vs != [] {
      LockStays(s, s', r, vs[|vs| - 1]);
    }
  }

  lemma MayFollowAll(vs: seq<Verdict>, v: Verdict)
    requires Chain(vs) && (vs != [] ==> MayFollow(vs[|vs| - 1], v))
    ensures forall i :: 0 <= i < |vs| ==> MayFollow(vs[i], v)
  {
  }

  lemma ChainGrows(vs: seq<Verdict>, v: Verdict)
    requires Chain(vs) && (vs != [] ==> MayFollow(vs[|vs| - 1], v))
    ensures Chain(vs + [v])
  {
    MayFollowAll(vs, v);
    hide MayFollow;
  }

  lemma EvaluatedRunIsJudged(s: System, r: RunId)
    requires Shape(s) && r in s.db.runs && RunJudged(s, r) && Written(s.db, r, s.now).Some?
    ensures RunJudged(DoEvaluate(s, r), r)
  {
    hide Decide, Locked, RowsEvolve, Shape, Quiet, SameKeys, MayFollow, Chain;
    EvaluateEvolves(s, r);
    var v, vs := Written(s.db, r, s.now).value, VerdictsOf(s.history, r);
    DecisionLocks(s.db, r, s.now);
    LockStays(s, DoEvaluate(s, r), r, v);
    if vs != [] {
      LockForces(s.db, r, s.now, vs[|vs| - 1]);
    }
    ChainGrows(vs, v);
    assert VerdictsOf(DoEvaluate(s, r).history, r) == vs + [v];
  }

  lemma EvaluationKeepsJudged(s: System, r: RunId)
    requires Shape(s) && Judged(s) && r in s.db.runs
    ensures Judged(DoEvaluate(s, r))
  {
    var s' := DoEvaluate(s, r);
    EvaluateEvolves(s, r);
    hide Decide, RunJudged, RowsEvolve, Shape;
    forall k | k in s'.db.runs ensures RunJudged(s', k) {
      assert RunJudged(s, k);
      if k == r && Written(s.db, r, s.now).Some? {
        EvaluatedRunIsJudged(s, r);
      } else {
        UnjudgedRunStaysJudged(s, s', k);
      }
    }
  }

  /** A run planned with too few agents for a required capability is critical from the start. */
  lemma PlannedRunIsJudged(s: System, o: Order, routed: seq<seq<AgentId>>, ids: seq<TaskId>)
    requires ValidPolicy(o.policy) && |routed| == |o.policy.requirements| && Shape(s) && o.runId !in s.db.runs
    requires FreshIds(s.db.tasks, ids, Assignments(o.policy.requirements, routed))
    ensures RunJudged(DoPlan(s, o, routed, ids), o.runId)
  {
    var s' := DoPlan(s, o, routed, ids);
    var qs := o.policy.requirements;
    GapsAreShort(qs, routed, true);
    if PlannedRun(o, s.now, routed).missingRequired != [] {
      var i :| 0 <= i < |qs| && |routed[i]| < qs[i].minimum && qs[i].required;
      forall id | id in s'.db.tasks && s'.db.tasks[id].runId == o.runId ensures s'.db.tasks[id].status.Cancelled? {
        assert id in s.db.tasks ==> TaskShape(s.db, s.db.tasks[id]);
      }
      assert Received(s'.db.tasks, o.runId, qs[i].capability) == {};
      assert Unfinished(s'.db.tasks, o.runId, qs[i].capability) == {};
      assert Doomed(s'.db, o.runId, s'.now, qs[i]);
    }
  }

  lemma PlanKeepsOthers(s: System, o: Order, routed: seq<seq<AgentId>>, ids: seq<TaskId>, r: RunId)
    requires |routed| == |o.policy.requirements| && FreshIds(s.db.tasks, ids, Assignments(o.policy.requirements, routed))
    requires r in s.db.runs && r != o.runId
    ensures var s' := DoPlan(s, o, routed, ids);
            && r in s'.db.runs && SameVerdict(s.db.runs[r], s'.db.runs[r])
            && VerdictsOf(s'.history, r) == VerdictsOf(s.history, r)
  {
    hide PlannedTasks, Assignments, PlannedRun, FreshIds;
  }

  lemma PlanKeepsJudged(s: System, reg: Ingestion.Registry, o: Order, routed: seq<seq<AgentId>>, ids: seq<TaskId>)
    requires Tables(s) && Judged(s) && ValidPolicy(o.policy) && o.runId !in s.db.runs && |routed| == |o.policy.requirements|
    requires FreshIds(s.db.tasks, ids, Assignments(o.policy.requirements, routed))
    ensures Judged(DoPlan(s, o, routed, ids))
  {
    hide RunJudged, RowsEvolve, ValidPolicy, FreshIds, Quiet, SignalsAgree, NoncesAgree, Shape, PlannedTasks, Assignments, PlannedRun;
    var s' := DoPlan(s, o, routed, ids);
    PlanEvolves(s, o, routed, ids);
    PlannedRunIsJudged(s, o, routed, ids);
    assert s'.now == s.now;
    forall k | k in s'.db.runs ensures RunJudged(s', k) {
      if k != o.runId {
        PlanKeepsOthers(s, o, routed, ids, k);
        UnjudgedRunStaysJudged(s, s', k);
      }
    }
  }

  lemma OtherStepsWriteNoVerdict(cfg: Settings, s: System, step: Step)
    requires Enabled(cfg, s, step) && !step.Plan? && !step.Evaluate?
    ensures var s' := Apply(cfg, s, step);
            && s'.history.verdicts == s.history.verdicts
            && s'.db.runs.Keys == s.db.runs.Keys
            && forall r :: r in s.db.runs ==> SameVerdict(s.db.runs[r], s'.db.runs[r])
  {
    hide IsFirst, Ingestion.Fault;
  }

  lemma StepKeepsJudged(cfg: Settings, s: System, step: Step)
    requires Tables(s) && Judged(s) && Enabled(cfg, s, step)
    ensures Judged(Apply(cfg, s, step))
  {
    if step.Plan? {
      PlanKeepsJudged(s, step.reg, step.order, step.routed, step.ids);
    } else if step.Evaluate? {
      EvaluationKeepsJudged(s, step.r);
    } else {
      hide Enabled, Apply, RunJudged, RowsEvolve, Quiet, SignalsAgree, NoncesAgree, SameVerdict;
      var s' := Apply(cfg, s, step);
      StepEvolves(cfg, s, step);
      OtherStepsWriteNoVerdict(cfg, s, step);
      forall k | k in s'.db.runs ensures RunJudged(s', k) {
        UnjudgedRunStaysJudged(s, s', k);
      }
    }
  }
}
