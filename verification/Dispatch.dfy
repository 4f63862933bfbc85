/** What one transaction of the dispatch worker does to the database, row by row. */
module Dispatch {
  import opened Rows

  datatype Settings = Settings(
    batchSize: nat,
    lease: int,
    maxAttempts: nat,
    threshold: nat,
    openFor: int)

  /** The ranges that the service configuration enforces. */
  predicate ValidSettings(cfg: Settings) {
    1 <= cfg.batchSize && 1 <= cfg.lease && 1 <= cfg.maxAttempts && 1 <= cfg.threshold && 1 <= cfg.openFor
  }

  /** A command in a worker's hands. The stored command does not carry `attempt` and `leaseUntil`:
      they record which attempt sent it and are only read by the specifications. */
  datatype Command = Command(taskId: TaskId, runId: RunId, agentId: AgentId, attempt: nat, leaseUntil: Time)

  datatype Disposition = Accepted | Retryable | Permanent

  /** What the transport answers, with the delay that the random backoff draws if it is needed. */
  datatype DispatchResult = DispatchResult(disposition: Disposition, delay: nat)

  // ---------- claim ----------

  predicate Claimable(t: Task, now: Time) {
    && (|| ((t.status.Pending? || t.status.Retry?) && t.dispatchAfter <= now)
        || (t.status.Dispatching? && t.leaseUntil.Some? && t.leaseUntil.value < now))
    && now < t.dispatchDeadline
  }

  function ClaimKey(t: Task): (int, int) {
    var priority: int := t.priority;
    (-priority, t.createdAt)
  }

  /** The rows that a claim may lock: claimable, and not locked by another transaction. */
  function ClaimKeys(tasks: map<TaskId, Task>, now: Time, locked: set<TaskId>): map<nat, (int, int)> {
    map id | id in tasks && id !in locked && Claimable(tasks[id], now) :: ClaimKey(tasks[id])
  }

  /** The run statuses that cancel a claimed task. */
  predicate ClaimRefused(st: RunStatus) {
    Settled(st) || st.RunTimedOut?
  }

  function StateOf(agents: map<AgentId, AgentState>, a: AgentId): AgentState {
    if a in agents then agents[a] else FRESH_AGENT
  }

  predicate CoolingDown(st: AgentState, now: Time) {
    st.circuit.Open? && st.openUntil.Some? && now < st.openUntil.value
  }

  datatype ClaimOutcome = RunOver | NoEndpoint | Deferred | Started

  function ClaimOutcomeOf(db: Db, endpoints: set<AgentId>, now: Time, t: Task): ClaimOutcome {
    if t.runId !in db.runs || ClaimRefused(db.runs[t.runId].status) then RunOver
    else if t.agentId !in endpoints then NoEndpoint
    else if CoolingDown(StateOf(db.agents, t.agentId), now) then Deferred
    else Started
  }

  function ClaimedTask(cfg: Settings, db: Db, w: WorkerId, endpoints: set<AgentId>, now: Time, t: Task): Task {
    match ClaimOutcomeOf(db, endpoints, now, t)
    case RunOver => t.(status := Cancelled)
    case NoEndpoint => t.(status := Failed)
    case Deferred => t.(status := Retry, dispatchAfter := StateOf(db.agents, t.agentId).openUntil.value)
    case Started =>
      t.(status := Dispatching, attempts := t.attempts + 1,
         leaseOwner := Some(w), leaseUntil := Some(now + cfg.lease))
  }

  /** Does the claim of `ids` start a dispatch to agent `a`? */
  ghost predicate StartsOn(db: Db, endpoints: set<AgentId>, now: Time, ids: set<TaskId>, a: AgentId)
    requires ids <= db.tasks.Keys
  {
    exists id :: id in ids && db.tasks[id].agentId == a && ClaimOutcomeOf(db, endpoints, now, db.tasks[id]).Started?
  }

  ghost function ClaimedAgent(db: Db, endpoints: set<AgentId>, now: Time, ids: set<TaskId>, a: AgentId): AgentState
    requires ids <= db.tasks.Keys
  {
    var st := StateOf(db.agents, a);
    if st.circuit.Open? && StartsOn(db, endpoints, now, ids, a) then st.(circuit := HalfOpen) else st
  }

  /** The database after the claim of `ids`: every row is a function of the rows before the claim,
      so the order in which the transaction visits them does not matter. */
  ghost function Claimed(cfg: Settings, db: Db, w: WorkerId, endpoints: set<AgentId>, now: Time, ids: set<TaskId>): Db
    requires ids <= db.tasks.Keys
  {
    var touched := set id | id in ids :: db.tasks[id].agentId;
    db.(
      tasks := map id | id in db.tasks ::
        if id in ids then ClaimedTask(cfg, db, w, endpoints, now, db.tasks[id]) else db.tasks[id],
      agents := map a | a in db.agents.Keys + touched :: ClaimedAgent(db, endpoints, now, ids, a))
  }

  function CommandFor(cfg: Settings, now: Time, id: TaskId, t: Task): Command {
    Command(id, t.runId, t.agentId, t.attempts + 1, now + cfg.lease)
  }

  /** The commands of a claim, in the order of the claimed rows. */
  function Commands(cfg: Settings, db: Db, endpoints: set<AgentId>, now: Time, rows: seq<TaskId>): seq<Command>
    requires forall i :: 0 <= i < |rows| ==> rows[i] in db.tasks
  {
    if rows == [] then [] else
      var id := rows[|rows| - 1];
      Commands(cfg, db, endpoints, now, rows[..|rows| - 1])
      + (if ClaimOutcomeOf(db, endpoints, now, db.tasks[id]).Started?
         then [CommandFor(cfg, now, id, db.tasks[id])] else [])
  }

  /** The commands are those of the started tasks, one each. */
  lemma {:induction false} CommandsAreStarts(
    cfg: Settings, db: Db, endpoints: set<AgentId>, now: Time, rows: seq<TaskId>)
    requires forall i :: 0 <= i < |rows| ==> rows[i] in db.tasks
    requires Distinct(rows)
    ensures var cs := Commands(cfg, db, endpoints, now, rows);
            && (forall c :: c in cs ==> c.taskId in rows && IsStart(cfg, db, endpoints, now, c))
            && (forall i, j :: 0 <= i < j < |cs| ==> cs[i].taskId != cs[j].taskId)
            && (forall id :: id in rows && ClaimOutcomeOf(db, endpoints, now, db.tasks[id]).Started?
                  ==> CommandFor(cfg, now, id, db.tasks[id]) in cs)
  {
    if rows != [] {
      var n := |rows| - 1;
      CommandsAreStarts(cfg, db, endpoints, now, rows[..n]);
      assert rows == rows[..n] + [rows[n]];
      assert rows[n] !in rows[..n];
    }
  }

  predicate IsStart(cfg: Settings, db: Db, endpoints: set<AgentId>, now: Time, c: Command) {
    && c.taskId in db.tasks
    && ClaimOutcomeOf(db, endpoints, now, db.tasks[c.taskId]).Started?
    && c == CommandFor(cfg, now, c.taskId, db.tasks[c.taskId])
  }

  // ---------- result ----------

  /** A result is dropped unless its task is still dispatching under the worker's own lease. */
  predicate ResultApplies(db: Db, w: WorkerId, c: Command) {
    && c.taskId in db.tasks
    && c.agentId in db.agents
    && c.runId in db.runs
    && db.tasks[c.taskId].status.Dispatching?
    && db.tasks[c.taskId].leaseOwner == Some(w)
  }

  function AgentAfterResult(cfg: Settings, st: AgentState, now: Time, res: DispatchResult): AgentState {
    if res.disposition.Accepted? then AgentState(0, Closed, None)
    else if st.failures + 1 >= cfg.threshold then AgentState(st.failures + 1, Open, Some(now + cfg.openFor))
    else st.(failures := st.failures + 1)
  }

  predicate CanRetry(cfg: Settings, t: Task, now: Time, res: DispatchResult) {
    res.disposition.Retryable? && t.attempts < cfg.maxAttempts && now < t.dispatchDeadline
  }

  function RetryAt(st: AgentState, now: Time, res: DispatchResult): Time {
    if st.circuit.Open? && st.openUntil.Some? && now + res.delay < st.openUntil.value then st.openUntil.value
    else now + res.delay
  }

  function TaskAfterResult(cfg: Settings, st: AgentState, t: Task, now: Time, res: DispatchResult): Task {
    var released := t.(leaseOwner := None, leaseUntil := None);
    if res.disposition.Accepted? then released.(status := WaitingSignal)
    else if CanRetry(cfg, t, now, res) then
      released.(status := Retry, dispatchAfter := RetryAt(AgentAfterResult(cfg, st, now, res), now, res))
    else released.(status := Failed)
  }

  function Recorded(cfg: Settings, db: Db, w: WorkerId, now: Time, c: Command, res: DispatchResult): Db {
    if !ResultApplies(db, w, c) then db else
      db.(
        tasks := db.tasks[c.taskId :=
          TaskAfterResult(cfg, db.agents[c.agentId], db.tasks[c.taskId], now, res)],
        agents := db.agents[c.agentId := AgentAfterResult(cfg, db.agents[c.agentId], now, res)],
        runs := if res.disposition.Accepted?
                then db.runs[c.runId := db.runs[c.runId].(status := RunCollecting)] else db.runs)
  }

  // ---------- dispatch deadlines ----------

  predicate Overdue(t: Task, now: Time) {
    (t.status.Pending? || t.status.Retry? || t.status.Dispatching?) && t.dispatchDeadline <= now
  }

  function ExpiredTask(t: Task): Task {
    t.(status := TimedOut, leaseOwner := None, leaseUntil := None)
  }

  function OverdueTasks(db: Db, now: Time, locked: set<TaskId>): set<TaskId> {
    set id | id in db.tasks && id !in locked && Overdue(db.tasks[id], now)
  }

  function Expired(db: Db, now: Time, locked: set<TaskId>): Db {
    db.(tasks := map id | id in db.tasks ::
      if id !in locked && Overdue(db.tasks[id], now) then ExpiredTask(db.tasks[id]) else db.tasks[id])
  }
}
