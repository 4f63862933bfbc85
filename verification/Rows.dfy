/** The rows that the orchestrator and the hub keep in the database, as values.
    Identifiers (UUIDs and names) are natural numbers: only their equality matters and, for the
    router, the order of agent ids. A time is a number of clock ticks (a tick is the resolution
    of the clock), and so is every duration. */
module Rows {
  type Time = int
  type RunId = nat
  type TaskId = nat
  type SnapshotId = nat
  type MessageId = nat
  type AgentId = nat
  type WorkerId = nat
  type Capability = nat
  type Asset = nat
  type NonceText = nat

  datatype Option<+T> = None | Some(value: T)
  datatype Result<+T, +E> = Ok(value: T) | Err(error: E)

  // ---------- tasks ----------

  datatype TaskStatus =
    | Pending | Dispatching | Acknowledged | WaitingSignal | SignalReceived
    | Retry | TimedOut | Failed | Cancelled | Skipped

  /** The status of a task that ended without a signal. */
  predicate Lost(st: TaskStatus) {
    st.TimedOut? || st.Failed? || st.Cancelled? || st.Skipped?
  }

  predicate Terminal(st: TaskStatus) {
    st.SignalReceived? || Lost(st)
  }

  datatype Task = Task(
    runId: RunId,
    snapshotId: SnapshotId,
    agentId: AgentId,
    asset: Asset,
    capability: Capability,
    priority: nat,
    createdAt: Time,
    dispatchDeadline: Time,
    signalDeadline: Time,
    status: TaskStatus,
    attempts: nat,
    dispatchAfter: Time,
    leaseOwner: Option<WorkerId>,
    leaseUntil: Option<Time>,
    signalReceivedAt: Option<Time>)

  /** The columns that are written once, when the task is planned. */
  predicate SameIdentity(t: Task, t': Task) {
    && t'.runId == t.runId
    && t'.snapshotId == t.snapshotId
    && t'.agentId == t.agentId
    && t'.asset == t.asset
    && t'.capability == t.capability
    && t'.priority == t.priority
    && t'.createdAt == t.createdAt
    && t'.dispatchDeadline == t.dispatchDeadline
    && t'.signalDeadline == t.signalDeadline
  }

  // ---------- runs ----------

  datatype Requirement = Requirement(
    capability: Capability,
    required: bool,
    critical: bool,
    minimum: nat,
    maxAgents: Option<nat>)

  datatype Policy = Policy(
    requirements: seq<Requirement>,
    collectionTimeout: int,
    dispatchTimeout: int,
    signalTimeout: int)

  /** What the policy model validates before a policy object exists. */
  predicate ValidPolicy(p: Policy) {
    && 1 <= |p.requirements|
    && (forall i :: 0 <= i < |p.requirements| ==> ValidRequirement(p.requirements[i]))
    && (forall i, j :: 0 <= i < j < |p.requirements| ==>
          p.requirements[i].capability != p.requirements[j].capability)
    && 1 <= p.dispatchTimeout <= p.signalTimeout <= p.collectionTimeout
  }

  predicate ValidRequirement(q: Requirement) {
    1 <= q.minimum && (q.maxAgents.Some? ==> 1 <= q.maxAgents.value)
  }

  datatype RunStatus =
    | RunCreated | RunDispatching | RunCollecting
    | RunFull | RunDegraded | RunCritical
    | RunFailed | RunTimedOut | RunCancelled

  datatype Outcome = OutcomeFull | OutcomeDegraded | OutcomeInsufficient

  datatype Run = Run(
    snapshotId: SnapshotId,
    asset: Asset,
    status: RunStatus,
    outcome: Option<Outcome>,
    createdAt: Time,
    collectionDeadline: Time,
    completedAt: Option<Time>,
    policy: Policy,
    missingRequired: seq<Capability>,
    missingOptional: seq<Capability>)

  predicate SamePlan(r: Run, r': Run) {
    && r'.snapshotId == r.snapshotId
    && r'.asset == r.asset
    && r'.createdAt == r.createdAt
    && r'.collectionDeadline == r.collectionDeadline
    && r'.policy == r.policy
    && r'.missingRequired == r.missingRequired
    && r'.missingOptional == r.missingOptional
  }

  /** The statuses at which the evaluator answers from the stored row. */
  predicate Settled(st: RunStatus) {
    st.RunFull? || st.RunDegraded? || st.RunCritical? || st.RunFailed? || st.RunCancelled?
  }

  // ---------- agents, signals ----------

  datatype Circuit = Closed | Open | HalfOpen

  datatype AgentState = AgentState(failures: nat, circuit: Circuit, openUntil: Option<Time>)

  /** The row that a claim adds for an agent it has never seen. */
  const FRESH_AGENT := AgentState(0, Closed, None)

  datatype TaskRef = TaskRef(taskId: TaskId, runId: RunId)

  datatype Signal = Signal(
    agentId: AgentId,
    snapshotId: SnapshotId,
    task: Option<TaskRef>,
    asset: Asset,
    receivedAt: Time)

  datatype NonceKey = NonceKey(agentId: AgentId, nonce: NonceText)

  // ---------- the database ----------

  datatype Db = Db(
    runs: map<RunId, Run>,
    tasks: map<TaskId, Task>,
    agents: map<AgentId, AgentState>,
    signals: map<MessageId, Signal>,
    nonces: set<NonceKey>)

  // ---------- ordered, limited selection ----------

  predicate KeyLess(a: (int, int), b: (int, int)) {
    a.0 < b.0 || (a.0 == b.0 && a.1 < b.1)
  }

  predicate Distinct<T(==)>(s: seq<T>) {
    forall i, j :: 0 <= i < j < |s| ==> s[i] != s[j]
  }

  /** `rows` is what ORDER BY key LIMIT limit may return: ties come in any order. */
  ghost predicate IsFirst(keys: map<nat, (int, int)>, limit: nat, rows: seq<nat>) {
    && Distinct(rows)
    && |rows| <= limit
    && (forall i :: 0 <= i < |rows| ==> rows[i] in keys)
    && (forall i, j :: 0 <= i < j < |rows| ==> !KeyLess(keys[rows[j]], keys[rows[i]]))
    && (forall id :: id in keys && id !in rows ==>
          |rows| == limit && forall i :: 0 <= i < |rows| ==> !KeyLess(keys[id], keys[rows[i]]))
  }

  ghost function Elems<T>(s: seq<T>): set<T> { set x | x in s }

  lemma SubsetSize<T>(a: set<T>, b: set<T>)
    requires a <= b
    ensures |a| <= |b|
  {
    assert b == a + (b - a);
  }

  lemma {:induction false} DistinctSize<T>(s: seq<T>)
    requires Distinct(s)
    ensures |Elems(s)| == |s|
  {
    if s != [] {
      var n := |s| - 1;
      DistinctSize(s[..n]);
      assert Elems(s) == Elems(s[..n]) + {s[n]};
    }
  }

  /** The rows that may come before `id`: those whose key is not greater. */
  ghost function Rivals(keys: map<nat, (int, int)>, id: nat): set<nat>
    requires id in keys
  {
    set k | k in keys && k != id && !KeyLess(keys[id], keys[k])
  }

  /** A row with fewer than `limit` rivals is selected. */
  lemma EarlyRowIsSelected(keys: map<nat, (int, int)>, limit: nat, rows: seq<nat>, id: nat)
    requires IsFirst(keys, limit, rows)
    requires id in keys && |Rivals(keys, id)| < limit
    ensures id in rows
  {
    if id !in rows {
      DistinctSize(rows);
      SubsetSize(Elems(rows), Rivals(keys, id));
    }
  }
}
