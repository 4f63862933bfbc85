/** Building runs of the protocol step by step. */
module Scenarios {
  import opened Rows
  import opened Dispatch
  import Ingestion
  import opened Recovery
  import opened Planner
  import opened Protocol
  import opened Agreement
  import opened Theorems
  import opened DispatchWorkers

  // ---------- extending a run ----------

  /** A run of the protocol that ends in `s`. */
  ghost predicate LeadsTo(cfg: Settings, backoff: Backoff, b: seq<System>, steps: seq<Step>, s: System) {
    Behaviour(cfg, b, steps) && Patient(b, steps, backoff) && b[|b| - 1] == s
  }

  /** Some run of the protocol ends in `s`. */
  ghost predicate Reachable(cfg: Settings, backoff: Backoff, s: System) {
    exists b, steps :: LeadsTo(cfg, backoff, b, steps, s)
  }

  lemma InitIsReachable(cfg: Settings, backoff: Backoff, s: System)
    requires Init(s)
    ensures Reachable(cfg, backoff, s)
  {
    assert LeadsTo(cfg, backoff, [s], [], s);
  }

  lemma StepIsReachable(cfg: Settings, backoff: Backoff, s: System, step: Step)
    requires Reachable(cfg, backoff, s) && Enabled(cfg, s, step) && StepIsPatient(s, step, backoff)
    ensures Reachable(cfg, backoff, Apply(cfg, s, step))
  {
    var b, steps := RunAndStep(cfg, backoff, s, step);
    assert LeadsTo(cfg, backoff, b, steps, Apply(cfg, s, step));
    hide Behaviour, Patient, Enabled, Apply;
  }

  /** The clock advances. */
  lemma Elapse(cfg: Settings, backoff: Backoff, s: System, dt: nat)
    requires Reachable(cfg, backoff, s)
    ensures Reachable(cfg, backoff, s.(now := s.now + dt))
  {
    hide Reachable;
    assert Enabled(cfg, s, Tick(dt)) && Apply(cfg, s, Tick(dt)) == s.(now := s.now + dt);
    StepIsReachable(cfg, backoff, s, Tick(dt));
  }

  lemma BehaviourHasStates(cfg: Settings, b: seq<System>, steps: seq<Step>)
    requires Behaviour(cfg, b, steps)
    ensures |b| >= 1
  {
  }

  /** A number above all numbers of a finite set. */
  lemma {:induction false} Fresh(taken: set<nat>) returns (n: nat)
    ensures forall k :: k in taken ==> k < n
    decreases |taken|
  {
    if taken == {} {
      n := 0;
    } else {
      var x :| x in taken;
      var rest := Fresh(taken - {x});
      n := if rest <= x then x + 1 else rest;
      forall k | k in taken ensures k < n {
        assert k == x || k in taken - {x};
      }
    }
  }

  lemma RunTo(cfg: Settings, backoff: Backoff, s: System) returns (b: seq<System>, steps: seq<Step>)
    requires Reachable(cfg, backoff, s)
    ensures Behaviour(cfg, b, steps) && Patient(b, steps, backoff) && |b| >= 1 && b[|b| - 1] == s
  {
    hide Behaviour, Patient;
    b, steps :| LeadsTo(cfg, backoff, b, steps, s);
    BehaviourHasStates(cfg, b, steps);
  }

  /** A run that ends with the given step. */
  lemma RunAndStep(cfg: Settings, backoff: Backoff, s: System, step: Step) returns (b: seq<System>, steps: seq<Step>)
    requires Reachable(cfg, backoff, s) && Enabled(cfg, s, step) && StepIsPatient(s, step, backoff)
    ensures Behaviour(cfg, b, steps) && |steps| >= 1
    ensures steps[|steps| - 1] == step && b[|b| - 2] == s && b[|b| - 1] == Apply(cfg, s, step)
    ensures Patient(b, steps, backoff)
  {
    hide Enabled, Apply, StepIsPatient, Init;
    var b0, steps0 := RunTo(cfg, backoff, s);
    b, steps := b0 + [Apply(cfg, s, step)], steps0 + [step];
    forall i | 0 <= i < |steps| ensures Enabled(cfg, b[i], steps[i]) && b[i + 1] == Apply(cfg, b[i], steps[i]) {
      if i < |steps0| {
        assert b[i] == b0[i] && b[i + 1] == b0[i + 1] && steps[i] == steps0[i];
      }
    }
  }

  lemma ReachableTables(cfg: Settings, backoff: Backoff, s: System)
    requires ValidSettings(cfg) && Reachable(cfg, backoff, s)
    ensures Tables(s)
  {
    hide Behaviour, Good, Tables;
    var b, steps := RunTo(cfg, backoff, s);
    EveryStateIsGood(cfg, b, steps, |b| - 1);
    GoodTables(cfg, s);
  }

  // ---------- planning a run of one task ----------

  const AGENT: AgentId := 7

  /** One agent that may send signals, and a snapshot that is open now. */
  function RegistryAt(now: Time): Ingestion.Registry {
    Ingestion.Registry(map[AGENT := Ingestion.AgentRow(true, {Ingestion.SIGNAL_INGESTION, 1}, 1, {1}, {})], {AGENT},
                       map[0 := Ingestion.Snapshot(true, now, now + 1)])
  }

  /** One agent, and the same timeout for dispatch, signal and collection. */
  function OneTaskPolicy(timeout: int): Policy {
    Policy([Requirement(1, false, false, 1, Some(1))], timeout, timeout, timeout)
  }

  function PlanOne(now: Time, r: RunId, id: TaskId, timeout: int): Step {
    Plan(RegistryAt(now), Order(r, 0, 1, OneTaskPolicy(timeout)), [[AGENT]], [id])
  }

  function NewTask(r: RunId, now: Time, timeout: int): Task {
    Task(r, 0, AGENT, 1, 1, 50, now, now + timeout, now + timeout, Pending, 0, now, None, None, None)
  }

  function NewRun(now: Time, timeout: int): Run {
    Run(0, 1, RunDispatching, None, now, now + timeout, None, OneTaskPolicy(timeout), [], [])
  }

  lemma RouteOne(now: Time, timeout: int)
    ensures var p := OneTaskPolicy(timeout);
            && IsRouting(RegistryAt(now), 1, p, [[AGENT]])
            && Assignments(p.requirements, [[AGENT]]) == [Assignment(p.requirements[0], AGENT)]
            && Gaps(p.requirements, [[AGENT]], true) == [] && Gaps(p.requirements, [[AGENT]], false) == []
  {
    var p := OneTaskPolicy(timeout);
    assert RouteKeys(RegistryAt(now), 1, 1) == map[AGENT := (AGENT as int, 0)];
    assert IsRoute(RegistryAt(now), 1, p.requirements[0], [AGENT]);
    assert p.requirements[..0] == [];
  }

  lemma PlanOneIsEnabled(cfg: Settings, s: System, r: RunId, id: TaskId, timeout: int)
    requires 1 <= timeout && r !in s.db.runs && id !in s.db.tasks
    ensures Enabled(cfg, s, PlanOne(s.now, r, id, timeout))
  {
    hide IsRouting, Assignments;
    RouteOne(s.now, timeout);
    assert [id][0] == id;
  }

  lemma PlannedOne(db: Db, now: Time, r: RunId, id: TaskId, timeout: int)
    requires 1 <= timeout && r !in db.runs && id !in db.tasks
    ensures var o := Order(r, 0, 1, OneTaskPolicy(timeout));
            && FreshIds(db.tasks, [id], Assignments(o.policy.requirements, [[AGENT]]))
            && Planned(db, o, now, [[AGENT]], [id]) ==
               db.(tasks := db.tasks[id := NewTask(r, now, timeout)], runs := db.runs[r := NewRun(now, timeout)])
  {
    RouteOne(now, timeout);
    hide Assignments, Gaps, IsRouting;
    var o, ids := Order(r, 0, 1, OneTaskPolicy(timeout)), [id];
    var xs := Assignments(o.policy.requirements, [[AGENT]]);
    var added := PlannedTasks(o, now, false, ids, xs);
    assert ids[0] == id;
    assert added == map[id := NewTask(r, now, timeout)];
    assert db.tasks + added == db.tasks[id := NewTask(r, now, timeout)];
  }

  lemma PlanOneTask(cfg: Settings, s: System, r: RunId, id: TaskId, timeout: int)
    requires 1 <= timeout && r !in s.db.runs && id !in s.db.tasks
    ensures Enabled(cfg, s, PlanOne(s.now, r, id, timeout))
    ensures var s' := Apply(cfg, s, PlanOne(s.now, r, id, timeout));
            && s'.now == s.now && s'.inflight == s.inflight
            && s'.db == s.db.(tasks := s.db.tasks[id := NewTask(r, s.now, timeout)], runs := s.db.runs[r := NewRun(s.now, timeout)])
  {
    hide Enabled, Planned, Assignments, FreshIds;
    PlanOneIsEnabled(cfg, s, r, id, timeout);
    PlannedOne(s.db, s.now, r, id, timeout);
  }

  // ---------- claiming one task ----------

  function ClaimOne(s: System, w: WorkerId, id: TaskId): Step {
    Claim(w, {AGENT}, [id], s.db.tasks.Keys - {id})
  }

  function StartedTask(cfg: Settings, now: Time, w: WorkerId, t: Task): Task {
    t.(status := Dispatching, attempts := t.attempts + 1, leaseOwner := Some(w), leaseUntil := Some(now + cfg.lease))
  }

  function ProbedAgent(st: AgentState): AgentState {
    if st.circuit.Open? then st.(circuit := HalfOpen) else st
  }

  ghost predicate Startable(s: System, id: TaskId) {
    && id in s.db.tasks && Claimable(s.db.tasks[id], s.now)
    && s.db.tasks[id].agentId == AGENT
    && s.db.tasks[id].runId in s.db.runs && !ClaimRefused(s.db.runs[s.db.tasks[id].runId].status)
    && !CoolingDown(StateOf(s.db.agents, AGENT), s.now)
  }

  lemma SelectOne(cfg: Settings, s: System, id: TaskId)
    requires ValidSettings(cfg) && id in s.db.tasks && Claimable(s.db.tasks[id], s.now)
    ensures IsFirst(ClaimKeys(s.db.tasks, s.now, s.db.tasks.Keys - {id}), cfg.batchSize, [id])
  {
    hide Claimable, KeyLess;
    var keys := ClaimKeys(s.db.tasks, s.now, s.db.tasks.Keys - {id});
    assert [id][0] == id;
    assert keys.Keys == {id};
  }

  lemma ClaimOneTask(cfg: Settings, s: System, w: WorkerId, id: TaskId)
    requires ValidSettings(cfg) && Startable(s, id) && Batch(s, w) == []
    ensures Enabled(cfg, s, ClaimOne(s, w, id))
    ensures var s', t := Apply(cfg, s, ClaimOne(s, w, id)), s.db.tasks[id];
            && s'.now == s.now && s'.inflight == s.inflight[w := [CommandFor(cfg, s.now, id, t)]]
            && s'.db == s.db.(tasks := s.db.tasks[id := StartedTask(cfg, s.now, w, t)],
                              agents := s.db.agents[AGENT := ProbedAgent(StateOf(s.db.agents, AGENT))])
  {
    var t := s.db.tasks[id];
    SelectOne(cfg, s, id);
    assert ClaimOutcomeOf(s.db, {AGENT}, s.now, t).Started?;
    assert [id][..0] == [];
    assert Commands(cfg, s.db, {AGENT}, s.now, [id]) == [CommandFor(cfg, s.now, id, t)];
    ClaimedOnlyOne(cfg, s, w, id);
    assert Elems([id]) == {id} by { assert [id][0] == id; }
    hide IsFirst, Claimed, ClaimOutcomeOf, Commands, CommandFor, ClaimKeys, CoolingDown;
  }

  lemma ClaimedOnlyOne(cfg: Settings, s: System, w: WorkerId, id: TaskId)
    requires Startable(s, id)
    ensures Claimed(cfg, s.db, w, {AGENT}, s.now, {id}) ==
            s.db.(tasks := s.db.tasks[id := StartedTask(cfg, s.now, w, s.db.tasks[id])],
                  agents := s.db.agents[AGENT := ProbedAgent(StateOf(s.db.agents, AGENT))])
  {
    var t := s.db.tasks[id];
    assert ClaimedTask(cfg, s.db, w, {AGENT}, s.now, t) == StartedTask(cfg, s.now, w, t);
    assert ClaimOutcomeOf(s.db, {AGENT}, s.now, t).Started?;
    ClaimedNone(cfg, s.db, w, {AGENT}, s.now);
    ClaimOneMore(cfg, s.db, w, {AGENT}, s.now, {}, id);
    assert {} + {id} == {id};
    hide Claimed, ClaimedTask, ClaimOutcomeOf, CoolingDown;
    var after := Claimed(cfg, s.db, w, {AGENT}, s.now, {id});
    ClaimTouchesTwoTables(cfg, s.db, w, {AGENT}, s.now, {id});
  }

  lemma ClaimTouchesTwoTables(cfg: Settings, db: Db, w: WorkerId, endpoints: set<AgentId>, now: Time, ids: set<TaskId>)
    requires ids <= db.tasks.Keys
    ensures var db' := Claimed(cfg, db, w, endpoints, now, ids); db' == db.(tasks := db'.tasks, agents := db'.agents)
  {
    hide ClaimedTask, ClaimedAgent;
  }

  // ---------- results ----------

  /** Worker `w` is about to record a result of the attempt that it still holds. */
  ghost predicate Recording(s: System, w: WorkerId, id: TaskId) {
    && Batch(s, w) != [] && Batch(s, w)[0].taskId == id && Batch(s, w)[0].agentId == AGENT
    && ResultApplies(s.db, w, Batch(s, w)[0])
  }

  lemma RecordOne(cfg: Settings, s: System, w: WorkerId, id: TaskId, res: DispatchResult)
    requires Recording(s, w, id)
    ensures Enabled(cfg, s, Record(w, res))
    ensures var s', r := Apply(cfg, s, Record(w, res)), Batch(s, w)[0].runId;
            && s'.now == s.now && s'.inflight == s.inflight[w := Batch(s, w)[1..]]
            && s'.db == s.db.(
                 tasks := s.db.tasks[id := TaskAfterResult(cfg, s.db.agents[AGENT], s.db.tasks[id], s.now, res)],
                 agents := s.db.agents[AGENT := AgentAfterResult(cfg, s.db.agents[AGENT], s.now, res)],
                 runs := if res.disposition.Accepted? then s.db.runs[r := s.db.runs[r].(status := RunCollecting)] else s.db.runs)
  {
    hide TaskAfterResult, AgentAfterResult, CanRetry;
  }

  // ---------- repair of one run ----------

  function RepairOne(s: System, r: RunId): Step {
    Reconcile([r], s.db.runs.Keys - {r}, 1)
  }

  lemma RepairOneRun(cfg: Settings, s: System, r: RunId)
    requires r in s.db.runs && Recoverable(s.db.runs[r].status)
    ensures Enabled(cfg, s, RepairOne(s, r))
    ensures var s' := Apply(cfg, s, RepairOne(s, r));
            && s'.now == s.now && s'.inflight == s.inflight
            && s'.db.tasks.Keys == s.db.tasks.Keys && s'.db.runs.Keys == s.db.runs.Keys && s'.db.agents == s.db.agents
            && s'.db.runs[r] == RepairedRun(s.db.runs[r])
            && forall id :: id in s.db.tasks && s.db.tasks[id].runId == r ==>
                 s'.db.tasks[id] == RepairedTask(SignalledTasks(s.db.signals, r), s.now, id, s.db.tasks[id])
  {
    hide RepairedTask, RepairedRun, SignalledTasks, KeyLess, Recoverable;
    var keys := RecoveryKeys(s.db.runs, s.db.runs.Keys - {r});
    assert [r][0] == r;
    assert keys.Keys == {r};
    assert IsFirst(keys, 1, [r]);
    assert Elems([r]) == {r};
  }
}
