/** What planning guarantees of a new run. */
module Admission {
  import opened Rows
  import opened Quorum
  import opened Planner
  import opened Ingestion
  import opened Protocol
  import opened Agreement
  import opened Coverage

  ghost predicate StartsPending(tasks: map<TaskId, Task>, r: RunId) {
    forall id :: id in TasksOf(tasks, r) ==> tasks[id].status.Pending? && tasks[id].attempts == 0
  }

  ghost predicate StartsCancelled(tasks: map<TaskId, Task>, r: RunId) {
    forall id :: id in TasksOf(tasks, r) ==> tasks[id].status.Cancelled?
  }

  lemma NewTasksStart(s: System, o: Order, routed: seq<seq<AgentId>>, ids: seq<TaskId>)
    requires Shape(s) && o.runId !in s.db.runs && |routed| == |o.policy.requirements|
    requires FreshIds(s.db.tasks, ids, Assignments(o.policy.requirements, routed))
    ensures var db' := Planned(s.db, o, s.now, routed, ids);
            if db'.runs[o.runId].missingRequired == [] then StartsPending(db'.tasks, o.runId)
            else StartsCancelled(db'.tasks, o.runId)
  {
    var db' := Planned(s.db, o, s.now, routed, ids);
    forall id | id in TasksOf(db'.tasks, o.runId) ensures id !in s.db.tasks {
      assert id in s.db.tasks ==> TaskShape(s.db, s.db.tasks[id]);
    }
  }

  /** A run is critical from the start, with every task cancelled, if and only if the router found
      too few agents for some required capability; otherwise it is dispatching, every task is
      pending, and each required capability starts with at least its minimum of tasks. */
  lemma PlanIsAdmissible(s: System, reg: Registry, o: Order, routed: seq<seq<AgentId>>, ids: seq<TaskId>)
    requires Tables(s) && ValidPolicy(o.policy) && o.runId !in s.db.runs
    requires IsRouting(reg, o.asset, o.policy, routed)
    requires FreshIds(s.db.tasks, ids, Assignments(o.policy.requirements, routed))
    ensures var db' := Planned(s.db, o, s.now, routed, ids);
            var qs := o.policy.requirements;
            var gap := exists i :: 0 <= i < |qs| && qs[i].required && |routed[i]| < qs[i].minimum;
            && (gap ==> db'.runs[o.runId].status.RunCritical? && StartsCancelled(db'.tasks, o.runId))
            && (!gap ==>
                  && db'.runs[o.runId].status.RunDispatching? && StartsPending(db'.tasks, o.runId)
                  && forall i :: 0 <= i < |qs| && qs[i].required ==>
                       qs[i].minimum <= |CapTasks(db'.tasks, o.runId, qs[i].capability)|)
            && (forall id :: id in TasksOf(db'.tasks, o.runId) ==> TaskShape(db', db'.tasks[id]))
            && UniqueAssignments(db'.tasks)
            && (forall id :: id in s.db.tasks ==> db'.tasks[id] == s.db.tasks[id])
  {
    var qs := o.policy.requirements;
    GapsAreShort(qs, routed, true);
    NewTasksStart(s, o, routed, ids);
    PlanShapesTasks(s, o, routed, ids);
    PlanKeepsUniqueness(s, reg, o, routed, ids);
    hide StartsPending, StartsCancelled, TaskShape, UniqueAssignments, Tables, ValidPolicy;
    forall i | 0 <= i < |qs| ensures |routed[i]| <= |CapTasks(Planned(s.db, o, s.now, routed, ids).tasks, o.runId, qs[i].capability)| {
      PlannedCapTasks(s, o, routed, ids, i);
    }
  }
}
