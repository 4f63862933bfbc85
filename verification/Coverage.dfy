/** From verdicts to stored signals of distinct agents. */
module Coverage {
  import opened Rows
  import opened Dispatch
  import Ingestion
  import opened Quorum
  import opened Planner
  import opened Protocol
  import opened Agreement
  import opened Verdicts

  /** The agents with a stored signal for a task of run `r` with capability `c`. */
  ghost function SignalAgents(db: Db, r: RunId, c: Capability): set<AgentId> {
    set m | m in db.signals && db.signals[m].task.Some? && db.signals[m].task.value.runId == r
      && db.signals[m].task.value.taskId in db.tasks
      && db.tasks[db.signals[m].task.value.taskId].capability == c
      :: db.signals[m].agentId
  }

  /** With no optional gap, every optional capability was planned with enough tasks. */
  ghost predicate RunCovered(db: Db, r: RunId)
    requires r in db.runs
  {
    db.runs[r].missingOptional == [] ==>
      forall i :: 0 <= i < |db.runs[r].policy.requirements| ==>
        EnoughPlanned(db, r, db.runs[r].policy.requirements[i])
  }

  ghost predicate EnoughPlanned(db: Db, r: RunId, q: Requirement) {
    !q.required ==> q.minimum <= |CapTasks(db.tasks, r, q.capability)|
  }

  ghost predicate Covered(s: System) {
    forall r :: r in s.db.runs ==> RunCovered(s.db, r)
  }

  lemma NewTaskAt(s: System, o: Order, routed: seq<seq<AgentId>>, ids: seq<TaskId>, k: nat)
    requires |routed| == |o.policy.requirements|
    requires FreshIds(s.db.tasks, ids, Assignments(o.policy.requirements, routed)) && k < |ids|
    ensures var tasks' := Planned(s.db, o, s.now, routed, ids).tasks;
            var c := Assignments(o.policy.requirements, routed)[k].requirement.capability;
            ids[k] in CapTasks(tasks', o.runId, c)
  {
  }

  /** Planning adds at least one task per routed agent. */
  lemma PlannedCapTasks(s: System, o: Order, routed: seq<seq<AgentId>>, ids: seq<TaskId>, i: nat)
    requires |routed| == |o.policy.requirements| && i < |routed|
    requires FreshIds(s.db.tasks, ids, Assignments(o.policy.requirements, routed))
    ensures |routed[i]| <= |CapTasks(Planned(s.db, o, s.now, routed, ids).tasks, o.runId, o.policy.requirements[i].capability)|
  {
    hide Planned;
    var qs := o.policy.requirements;
    var mine := CapTasks(Planned(s.db, o, s.now, routed, ids).tasks, o.runId, qs[i].capability);
    AssignmentBlock(qs, routed, i);
    var from := Offset(qs, routed, i);
    var block := ids[from..from + |routed[i]|];
    forall j | 0 <= j < |block| ensures block[j] in mine {
      assert Assignments(qs, routed)[from + j] == Assignment(qs[i], routed[i][j]);
      NewTaskAt(s, o, routed, ids, from + j);
    }
    DistinctSize(block);
    SubsetSize(Elems(block), mine);
  }

  lemma PlannedRunIsCovered(s: System, o: Order, routed: seq<seq<AgentId>>, ids: seq<TaskId>)
    requires |routed| == |o.policy.requirements|
    requires FreshIds(s.db.tasks, ids, Assignments(o.policy.requirements, routed))
    ensures RunCovered(Planned(s.db, o, s.now, routed, ids), o.runId)
  {
    var db' := Planned(s.db, o, s.now, routed, ids);
    var qs := o.policy.requirements;
    GapsAreShort(qs, routed, false);
    forall i | 0 <= i < |qs| && db'.runs[o.runId].missingOptional == [] ensures EnoughPlanned(db', o.runId, qs[i]) {
      PlannedCapTasks(s, o, routed, ids, i);
    }
  }

  lemma CoverageStays(now: Time, db: Db, db': Db, r: RunId)
    requires RowsEvolve(now, db, db') && r in db.runs && RunCovered(db, r)
    ensures r in db'.runs && RunCovered(db', r)
  {
    var qs := db.runs[r].policy.requirements;
    forall i | 0 <= i < |qs| && db.runs[r].missingOptional == [] ensures EnoughPlanned(db', r, qs[i]) {
      assert EnoughPlanned(db, r, qs[i]);
      SameTasks(now, db, db', r, qs[i].capability);
    }
  }

  lemma StepKeepsCovered(cfg: Settings, s: System, step: Step)
    requires Tables(s) && Covered(s) && Enabled(cfg, s, step)
    ensures Covered(Apply(cfg, s, step))
  {
    StepEvolves(cfg, s, step);
    var s' := Apply(cfg, s, step);
    if step.Plan? {
      PlannedRunIsCovered(s, step.order, step.routed, step.ids);
    }
    hide RowsEvolve, RunCovered, Tables, Planned, FreshIds, IsRouting, ValidPolicy, DoClaim, DoRecord, DoIngest, DoEvaluate;
    forall r | r in s'.db.runs ensures RunCovered(s'.db, r) {
      if r in s.db.runs {
        CoverageStays(s.now, s.db, s'.db, r);
      }
    }
  }

  // ---------- signals of distinct agents ----------

  ghost function AgentsOf(tasks: map<TaskId, Task>, ids: set<TaskId>): set<AgentId>
    requires ids <= tasks.Keys
  {
    set id | id in ids :: tasks[id].agentId
  }

  /** Tasks with pairwise different agents have as many agents as tasks. */
  lemma {:induction false} AgentsAreAsMany(tasks: map<TaskId, Task>, ids: set<TaskId>)
    requires ids <= tasks.Keys
    requires forall i, j :: i in ids && j in ids && i != j ==> tasks[i].agentId != tasks[j].agentId
    ensures |AgentsOf(tasks, ids)| == |ids|
    decreases |ids|
  {
    if ids != {} {
      var id :| id in ids;
      var rest := ids - {id};
      AgentsAreAsMany(tasks, rest);
      assert AgentsOf(tasks, ids) == AgentsOf(tasks, rest) + {tasks[id].agentId};
    }
  }

  /** Received tasks are witnessed by as many signals of distinct agents. */
  lemma ReceivedMeansSignals(s: System, r: RunId, c: Capability)
    requires Tables(s)
    ensures |Received(s.db.tasks, r, c)| <= |SignalAgents(s.db, r, c)|
  {
    var ids := Received(s.db.tasks, r, c);
    AgentsAreAsMany(s.db.tasks, ids);
    forall a | a in AgentsOf(s.db.tasks, ids) ensures a in SignalAgents(s.db, r, c) {
      var id :| id in ids && s.db.tasks[id].agentId == a;
      assert TaskAnsweredBy(s, id);
      var m :| m in s.db.signals && s.db.signals[m].task.Some? && s.db.signals[m].task.value.taskId == id;
      assert SignalMatches(s.db, s.db.signals[m]);
    }
    SubsetSize(AgentsOf(s.db.tasks, ids), SignalAgents(s.db, r, c));
  }

  ghost predicate TaskAnsweredBy(s: System, id: TaskId) {
    Ingestion.TaskAnswered(s.db.signals, id)
  }

  /** A run judged FULL or DEGRADED has enough signals of distinct agents for every required
      capability, and a FULL run for every capability. */
  lemma OutcomeMeansSignals(s: System, r: RunId, q: Requirement)
    requires Tables(s) && Judged(s) && Covered(s)
    requires r in s.db.runs && q in s.db.runs[r].policy.requirements
    requires || s.db.runs[r].outcome == Some(OutcomeFull)
             || (s.db.runs[r].outcome == Some(OutcomeDegraded) && q.required)
    ensures q.minimum <= |SignalAgents(s.db, r, q.capability)|
  {
    assert RunJudged(s, r) && RunCovered(s.db, r);
    assert !Short(s.db.tasks, r, q);
    if !q.required {
      assert EnoughPlanned(s.db, r, q);
      assert Received(s.db.tasks, r, q.capability) == CapTasks(s.db.tasks, r, q.capability) by {
        assert AllReceived(s.db.tasks, r);
      }
    }
    ReceivedMeansSignals(s, r, q.capability);
  }
}
