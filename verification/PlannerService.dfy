/** The orchestration planner. */
module PlannerServices {
  import opened Rows
  import opened Ingestion
  import opened Planner
  import opened Store

  datatype Trigger = Manual | Test | OtherTrigger

  datatype PlanningError = InvalidTrigger | SnapshotNotFound | SnapshotNotEligible

  datatype OrchestrationPlan = OrchestrationPlan(
    runId: RunId,
    taskIds: seq<TaskId>,
    missingRequired: seq<Capability>,
    missingOptional: seq<Capability>,
    status: RunStatus)

  /** Why a new run cannot be planned. */
  function PlanningFault(reg: Registry, now: Time, o: Order): (fault: Option<PlanningError>)
    ensures fault.None? <==> Eligible(reg, now, o)
  {
    if o.snapshotId !in reg.snapshots then Some(SnapshotNotFound)
    else if !reg.snapshots[o.snapshotId].isOpen || reg.snapshots[o.snapshotId].expiresAt <= now then Some(SnapshotNotEligible)
    else None
  }

  /** The tasks of a stored run in the order of their ids. */
  ghost predicate IsTaskList(tasks: map<TaskId, Task>, r: RunId, ids: seq<TaskId>) {
    && Elems(ids) == (set id | id in tasks && tasks[id].runId == r)
    && forall i, j :: 0 <= i < j < |ids| ==> ids[i] < ids[j]
  }

  lemma PlannedTaskAt(o: Order, now: Time, doomed: bool, ids: seq<TaskId>, xs: seq<Assignment>)
    requires |ids| == |xs| && Distinct(ids)
    ensures PlannedTasks(o, now, doomed, ids, xs).Keys == Elems(ids)
    ensures forall k :: 0 <= k < |ids| ==> PlannedTasks(o, now, doomed, ids, xs)[ids[k]] == PlannedTask(o, now, doomed, xs[k])
  {
    hide PlannedTask;
  }

  lemma NothingAssigned(qs: seq<Requirement>)
    ensures Assignments(qs[..0], []) == [] && Gaps(qs[..0], [], true) == [] && Gaps(qs[..0], [], false) == []
  {
  }

  /** Routing one more requirement. */
  lemma AssignOneMore(qs: seq<Requirement>, i: nat, routed: seq<seq<AgentId>>, agents: seq<AgentId>)
    requires i < |qs| && |routed| == i
    ensures Assignments(qs[..i + 1], routed + [agents]) == Assignments(qs[..i], routed) + AssignAll(qs[i], agents)
    ensures forall required :: Gaps(qs[..i + 1], routed + [agents], required) ==
              if |agents| < qs[i].minimum && qs[i].required == required
              then Gaps(qs[..i], routed, required) + [qs[i].capability] else Gaps(qs[..i], routed, required)
  {
    hide AssignAll;
    var more, routed' := qs[..i + 1], routed + [agents];
    assert more[..i] == qs[..i] && more[i] == qs[i] && routed'[..i] == routed && routed'[i] == agents;
    assert forall required :: Gaps(qs[..i], routed, required) + [] == Gaps(qs[..i], routed, required);
  }

  class OrchestrationPlanner {
    const db: Database

    constructor (db: Database)
      ensures this.db == db
    {
      this.db := db;
    }

    /** The router: the first agents, by id, that may serve the requirement. */
    method Select(reg: Registry, asset: Asset, q: Requirement) returns (agents: seq<AgentId>)
      ensures IsRoute(reg, asset, q, agents)
    {
      var keys := map a | a in reg.agents && Routable(reg, asset, q.capability, a) :: (a as int, 0);
      assert keys == RouteKeys(reg, asset, q.capability);
      agents := TakeFirst(keys, if q.maxAgents.Some? then q.maxAgents.value else |keys|);
    }

    /** The loop over the requirements: who is asked, and what is missing. */
    method Assign(reg: Registry, o: Order)
      returns (ghost routed: seq<seq<AgentId>>, xs: seq<Assignment>, missingRequired: seq<Capability>, missingOptional: seq<Capability>)
      ensures IsRouting(reg, o.asset, o.policy, routed)
      ensures xs == Assignments(o.policy.requirements, routed)
      ensures missingRequired == Gaps(o.policy.requirements, routed, true)
      ensures missingOptional == Gaps(o.policy.requirements, routed, false)
    {
      hide IsRoute, Assignments, Gaps;
      var qs := o.policy.requirements;
      NothingAssigned(qs);
      routed, xs, missingRequired, missingOptional := [], [], [], [];
      for i := 0 to |qs|
        invariant |routed| == i
        invariant forall j :: 0 <= j < i ==> IsRoute(reg, o.asset, qs[j], routed[j])
        invariant xs == Assignments(qs[..i], routed)
        invariant missingRequired == Gaps(qs[..i], routed, true)
        invariant missingOptional == Gaps(qs[..i], routed, false)
      {
        var agents := Select(reg, o.asset, qs[i]);
        if |agents| < qs[i].minimum {
          if qs[i].required {
            missingRequired := missingRequired + [qs[i].capability];
          } else {
            missingOptional := missingOptional + [qs[i].capability];
          }
        }
        xs := xs + AssignAll(qs[i], agents);
        AssignOneMore(qs, i, routed, agents);
        routed := routed + [agents];
      }
      assert qs[..|qs|] == qs;
    }

    /** Adds one task for each assignment, with the fresh ids that the UUID generator draws. */
    method AddTasks(now: Time, o: Order, doomed: bool, ids: seq<TaskId>, xs: seq<Assignment>)
      requires FreshIds(db.tasks, ids, xs)
      modifies db
      ensures db.View() == old(db.View()).(tasks := old(db.tasks) + PlannedTasks(o, now, doomed, ids, xs))
    {
      hide PlannedTask, PlannedTasks;
      ghost var tasks0 := db.tasks;
      for i := 0 to |ids|
        invariant db.View() == old(db.View()).(tasks := db.tasks)
        invariant db.tasks.Keys == tasks0.Keys + Elems(ids[..i])
        invariant forall id :: id in tasks0 ==> db.tasks[id] == tasks0[id]
        invariant forall k :: 0 <= k < i ==> db.tasks[ids[k]] == PlannedTask(o, now, doomed, xs[k])
      {
        var task := PlannedTask(o, now, doomed, xs[i]);
        assert Elems(ids[..i + 1]) == Elems(ids[..i]) + {ids[i]};
        db.tasks := db.tasks[ids[i] := task];
      }
      assert ids[..|ids|] == ids;
      PlannedTaskAt(o, now, doomed, ids, xs);
      ghost var added := PlannedTasks(o, now, doomed, ids, xs);
      forall id | id in Elems(ids) ensures db.tasks[id] == added[id] {
        var k :| 0 <= k < |ids| && ids[k] == id;
      }
      assert db.tasks == tasks0 + added;
    }

    /** Plans a run that is not stored yet. */
    method PlanNew(reg: Registry, now: Time, o: Order) returns (plan: OrchestrationPlan, ghost routed: seq<seq<AgentId>>)
      modifies db
      ensures IsRouting(reg, o.asset, o.policy, routed)
      ensures FreshIds(old(db.tasks), plan.taskIds, Assignments(o.policy.requirements, routed))
      ensures db.View() == Planned(old(db.View()), o, now, routed, plan.taskIds)
      ensures var run := PlannedRun(o, now, routed);
              plan == OrchestrationPlan(o.runId, plan.taskIds, run.missingRequired, run.missingOptional, run.status)
    {
      var xs, missingRequired, missingOptional;
      routed, xs, missingRequired, missingOptional := Assign(reg, o);
      hide IsRoute, Gaps, Assignments, PlannedTasks;
      var doomed := missingRequired != [];
      var status := if doomed then RunCritical else RunDispatching;
      var run := Run(o.snapshotId, o.asset, status, if doomed then Some(OutcomeInsufficient) else None, now,
                     now + o.policy.collectionTimeout, if doomed then Some(now) else None,
                     o.policy, missingRequired, missingOptional);
      db.runs := db.runs[o.runId := run];
      var ids := DrawIds(db.tasks.Keys, |xs|);
      AddTasks(now, o, doomed, ids, xs);
      plan := OrchestrationPlan(o.runId, ids, missingRequired, missingOptional, status);
    }

    /** Plans a run, or answers with the plan that is already stored under its id. */
    method Create(reg: Registry, trigger: Trigger, now: Time, o: Order)
      returns (plan: Result<OrchestrationPlan, PlanningError>, ghost routed: seq<seq<AgentId>>)
      requires ValidPolicy(o.policy)
      modifies db
      ensures trigger.OtherTrigger? ==> plan == Err(InvalidTrigger) && db.View() == old(db.View())
      // planning a known run again adds nothing and answers with what is stored
      ensures !trigger.OtherTrigger? && o.runId in old(db.runs) ==>
                && db.View() == old(db.View())
                && plan.Ok? && IsTaskList(old(db.tasks), o.runId, plan.value.taskIds)
                && var run := old(db.runs)[o.runId];
                   plan.value == OrchestrationPlan(o.runId, plan.value.taskIds, run.missingRequired, run.missingOptional, run.status)
      ensures !trigger.OtherTrigger? && o.runId !in old(db.runs) && PlanningFault(reg, now, o).Some? ==>
                plan == Err(PlanningFault(reg, now, o).value) && db.View() == old(db.View())
      ensures !trigger.OtherTrigger? && o.runId !in old(db.runs) && PlanningFault(reg, now, o).None? ==>
                && plan.Ok? && IsRouting(reg, o.asset, o.policy, routed)
                && FreshIds(old(db.tasks), plan.value.taskIds, Assignments(o.policy.requirements, routed))
                && db.View() == Planned(old(db.View()), o, now, routed, plan.value.taskIds)
                && var run := PlannedRun(o, now, routed);
                   plan.value == OrchestrationPlan(o.runId, plan.value.taskIds, run.missingRequired, run.missingOptional, run.status)
    {
      hide FreshIds, Planned, IsTaskList, PlannedRun, IsRoute, Assignments;
      routed := [];
      if trigger.OtherTrigger? {
        return Err(InvalidTrigger), routed;
      }
      if o.runId in db.runs {
        var existing := db.runs[o.runId];
        var taskIds := StoredTasks(o.runId);
        return Ok(OrchestrationPlan(o.runId, taskIds, existing.missingRequired, existing.missingOptional, existing.status)), routed;
      }
      if o.snapshotId !in reg.snapshots {
        return Err(SnapshotNotFound), routed;
      }
      if !reg.snapshots[o.snapshotId].isOpen || reg.snapshots[o.snapshotId].expiresAt <= now {
        return Err(SnapshotNotEligible), routed;
      }
      var created;
      created, routed := PlanNew(reg, now, o);
      plan := Ok(created);
    }

    /** Ids that are not taken, standing for freshly generated UUIDs. */
    method DrawIds(taken: set<TaskId>, n: nat) returns (ids: seq<TaskId>)
      ensures |ids| == n && Distinct(ids) && forall i :: 0 <= i < n ==> ids[i] !in taken
    {
      var bound: nat := 0;
      var todo := taken;
      while todo != {}
        invariant todo <= taken
        invariant forall id :: id in taken && id !in todo ==> id < bound
        decreases todo
      {
        var id :| id in todo;
        if bound <= id {
          bound := id + 1;
        }
        todo := todo - {id};
      }
      ids := seq(n, i requires 0 <= i < n => bound + i);
    }

    /** SELECT task_id ... ORDER BY task_id. */
    method StoredTasks(r: RunId) returns (ids: seq<TaskId>)
      ensures IsTaskList(db.tasks, r, ids)
    {
      var keys := map id | id in db.tasks && db.tasks[id].runId == r :: (id as int, 0);
      ids := TakeFirst(keys, |keys|);
      DistinctSize(ids);
      assert |keys| == |keys.Keys|;
      if x :| x in keys.Keys && x !in ids {
        ProperSubset(Elems(ids), keys.Keys, x);
      }
      assert Elems(ids) == keys.Keys;
    }
  }

  lemma ProperSubset<T>(a: set<T>, b: set<T>, x: T)
    requires a <= b && x in b && x !in a
    ensures |a| < |b|
  {
    SubsetSize(a, b - {x});
  }
}
