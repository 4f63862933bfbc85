/** What planning a run writes. */
module Planner {
  import opened Rows
  import opened Ingestion

  // ---------- routing ----------

  predicate Routable(reg: Registry, asset: Asset, c: Capability, a: AgentId)
    requires a in reg.agents
  {
    reg.agents[a].enabled && a in reg.endpoints && c in reg.agents[a].capabilities && asset in reg.agents[a].supportedAssets
  }

  ghost function RouteKeys(reg: Registry, asset: Asset, c: Capability): map<nat, (int, int)> {
    map a | a in reg.agents && Routable(reg, asset, c, a) :: (a as int, 0)
  }

  ghost function RouteLimit(reg: Registry, asset: Asset, q: Requirement): nat {
    if q.maxAgents.Some? then q.maxAgents.value else |RouteKeys(reg, asset, q.capability)|
  }

  /** `agents` is the router's answer for one requirement. */
  ghost predicate IsRoute(reg: Registry, asset: Asset, q: Requirement, agents: seq<AgentId>) {
    IsFirst(RouteKeys(reg, asset, q.capability), RouteLimit(reg, asset, q), agents)
  }

  ghost predicate IsRouting(reg: Registry, asset: Asset, p: Policy, routed: seq<seq<AgentId>>) {
    && |routed| == |p.requirements|
    && forall i :: 0 <= i < |routed| ==> IsRoute(reg, asset, p.requirements[i], routed[i])
  }

  // ---------- assignments ----------

  datatype Assignment = Assignment(requirement: Requirement, agentId: AgentId)

  function AssignAll(q: Requirement, agents: seq<AgentId>): seq<Assignment> {
    seq(|agents|, j requires 0 <= j < |agents| => Assignment(q, agents[j]))
  }

  function Assignments(qs: seq<Requirement>, routed: seq<seq<AgentId>>): seq<Assignment>
    requires |qs| == |routed|
  {
    if qs == [] then [] else
      var n := |qs| - 1;
      Assignments(qs[..n], routed[..n]) + AssignAll(qs[n], routed[n])
  }

  /** The capabilities with fewer routed agents than their minimum, among the required
      (or the optional) requirements, in policy order. */
  function Gaps(qs: seq<Requirement>, routed: seq<seq<AgentId>>, required: bool): seq<Capability>
    requires |qs| == |routed|
  {
    if qs == [] then [] else
      var n := |qs| - 1;
      Gaps(qs[..n], routed[..n], required)
      + (if |routed[n]| < qs[n].minimum && qs[n].required == required then [qs[n].capability] else [])
  }

  // ---------- rows ----------

  datatype Order = Order(runId: RunId, snapshotId: SnapshotId, asset: Asset, policy: Policy)

  /** The snapshot of the order is open and current. */
  predicate Eligible(reg: Registry, now: Time, o: Order) {
    o.snapshotId in reg.snapshots && reg.snapshots[o.snapshotId].isOpen && now < reg.snapshots[o.snapshotId].expiresAt
  }

  function PlannedRun(o: Order, now: Time, routed: seq<seq<AgentId>>): Run
    requires |routed| == |o.policy.requirements|
  {
    var missingRequired := Gaps(o.policy.requirements, routed, true);
    var doomed := missingRequired != [];
    Run(o.snapshotId, o.asset,
        if doomed then RunCritical else RunDispatching,
        if doomed then Some(OutcomeInsufficient) else None,
        now, now + o.policy.collectionTimeout,
        if doomed then Some(now) else None,
        o.policy, missingRequired, Gaps(o.policy.requirements, routed, false))
  }

  function Min(a: int, b: int): int { if a <= b then a else b }

  function PlannedTask(o: Order, now: Time, doomed: bool, x: Assignment): Task {
    Task(o.runId, o.snapshotId, x.agentId, o.asset, x.requirement.capability,
         if x.requirement.critical then 100 else 50,
         now, now + o.policy.dispatchTimeout,
         Min(now + o.policy.signalTimeout, now + o.policy.collectionTimeout),
         if doomed then Cancelled else Pending, 0, now, None, None, None)
  }

  /** Task ids are fresh UUIDs, one for each assignment. */
  predicate FreshIds(tasks: map<TaskId, Task>, ids: seq<TaskId>, xs: seq<Assignment>) {
    |ids| == |xs| && Distinct(ids) && forall i :: 0 <= i < |ids| ==> ids[i] !in tasks
  }

  ghost function PlannedTasks(o: Order, now: Time, doomed: bool, ids: seq<TaskId>, xs: seq<Assignment>): map<TaskId, Task>
    requires |ids| == |xs| && Distinct(ids)
  {
    map i | 0 <= i < |ids| :: ids[i] := PlannedTask(o, now, doomed, xs[i])
  }

  /** The database after planning a run that does not exist yet. */
  ghost function Planned(db: Db, o: Order, now: Time, routed: seq<seq<AgentId>>, ids: seq<TaskId>): Db
    requires |routed| == |o.policy.requirements|
    requires FreshIds(db.tasks, ids, Assignments(o.policy.requirements, routed))
  {
    var run := PlannedRun(o, now, routed);
    db.(
      runs := db.runs[o.runId := run],
      tasks := db.tasks + PlannedTasks(o, now, run.missingRequired != [], ids, Assignments(o.policy.requirements, routed)))
  }

  // ---------- facts about assignments and gaps ----------

  lemma {:induction false} AssignmentOrigin(qs: seq<Requirement>, routed: seq<seq<AgentId>>, k: nat) returns (i: nat, j: nat)
    requires |qs| == |routed| && k < |Assignments(qs, routed)|
    ensures i < |qs| && j < |routed[i]|
    ensures Assignments(qs, routed)[k] == Assignment(qs[i], routed[i][j])
  {
    var n := |qs| - 1;
    var before := Assignments(qs[..n], routed[..n]);
    if k < |before| {
      i, j := AssignmentOrigin(qs[..n], routed[..n], k);
    } else {
      i, j := n, k - |before|;
    }
  }

  /** No two assignments share both capability and agent. */
  lemma {:induction false} AssignmentsAreUnique(qs: seq<Requirement>, routed: seq<seq<AgentId>>, k: nat, l: nat)
    requires |qs| == |routed|
    requires forall i, j :: 0 <= i < j < |qs| ==> qs[i].capability != qs[j].capability
    requires forall i :: 0 <= i < |routed| ==> Distinct(routed[i])
    requires k < l < |Assignments(qs, routed)|
    ensures var xs := Assignments(qs, routed);
            xs[k].requirement.capability != xs[l].requirement.capability || xs[k].agentId != xs[l].agentId
  {
    var n := |qs| - 1;
    var before := Assignments(qs[..n], routed[..n]);
    if l < |before| {
      AssignmentsAreUnique(qs[..n], routed[..n], k, l);
    } else if k < |before| {
      var i, j := AssignmentOrigin(qs[..n], routed[..n], k);
    }
  }

  /** Where the assignments of requirement `i` start. */
  function Offset(qs: seq<Requirement>, routed: seq<seq<AgentId>>, i: nat): nat
    requires |qs| == |routed| && i <= |qs|
  {
    |Assignments(qs[..i], routed[..i])|
  }

  lemma {:induction false} AssignmentBlock(qs: seq<Requirement>, routed: seq<seq<AgentId>>, i: nat)
    requires |qs| == |routed| && i < |qs|
    ensures Offset(qs, routed, i) + |routed[i]| <= |Assignments(qs, routed)|
    ensures forall j :: 0 <= j < |routed[i]| ==>
              Assignments(qs, routed)[Offset(qs, routed, i) + j] == Assignment(qs[i], routed[i][j])
  {
    var n := |qs| - 1;
    if i < n {
      AssignmentBlock(qs[..n], routed[..n], i);
      assert qs[..n][..i] == qs[..i] && routed[..n][..i] == routed[..i];
    }
  }

  lemma {:induction false} GapsAreShort(qs: seq<Requirement>, routed: seq<seq<AgentId>>, required: bool)
    requires |qs| == |routed|
    ensures Gaps(qs, routed, required) != [] <==>
            exists i :: 0 <= i < |qs| && |routed[i]| < qs[i].minimum && qs[i].required == required
  {
    if qs != [] {
      var n := |qs| - 1;
      GapsAreShort(qs[..n], routed[..n], required);
      if i :| 0 <= i < |qs| && |routed[i]| < qs[i].minimum && qs[i].required == required {
        assert i < n ==> |routed[..n][i]| < qs[..n][i].minimum && qs[..n][i].required == required;
      }
      if j :| 0 <= j < n && |routed[..n][j]| < qs[..n][j].minimum && qs[..n][j].required == required {
        assert |routed[j]| < qs[j].minimum && qs[j].required == required;
      }
    }
  }
}
