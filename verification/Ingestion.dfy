/** The hub's signal ingestion: one transaction that stores a nonce and a signal and completes a task. */
module Ingestion {
  import opened Rows

  datatype AgentRow = AgentRow(
    enabled: bool,
    capabilities: set<Capability>,
    protocol: nat,
    supportedAssets: set<Asset>,
    supportedEvidence: set<nat>)

  datatype Snapshot = Snapshot(isOpen: bool, createdAt: Time, expiresAt: Time)

  /** The registry tables. Operators may change them at any time. */
  datatype Registry = Registry(
    agents: map<AgentId, AgentRow>,
    endpoints: set<AgentId>,
    snapshots: map<SnapshotId, Snapshot>)

  /** The capability named "signal_ingestion". */
  const SIGNAL_INGESTION: Capability := 0

  datatype Envelope = Envelope(
    messageId: MessageId,
    agentId: AgentId,
    protocol: nat,
    snapshotId: SnapshotId,
    task: Option<TaskRef>,
    asset: Asset,
    evidence: set<nat>,
    dataTime: Time,
    analysisTime: Time,
    ttl: int)

  datatype Rejection =
    | TtlExceedsMaximum | InvalidTimestamps | SignalExpired
    | UnknownAgent | AgentDisabled | AgentNotAuthorized
    | UnsupportedProtocol | UnsupportedAsset | UnsupportedEvidence
    | UnknownSnapshot | SnapshotNotOpen | SnapshotTimeMismatch
    | ReplayOrDuplicate
    | TaskUnknown | TaskAgentMismatch | TaskRunMismatch | TaskSnapshotMismatch | TaskAssetMismatch
    | TaskExpired | DuplicateTaskResult | TaskNotAccepting | TaskNotDispatched
    | DuplicateMessage

  /** The guards on the envelope itself, before any transaction. */
  function EnvelopeFault(maxTtl: int, now: Time, e: Envelope): Option<Rejection> {
    if e.ttl > maxTtl then Some(TtlExceedsMaximum)
    else if e.analysisTime > now || e.dataTime > e.analysisTime then Some(InvalidTimestamps)
    else if e.analysisTime + e.ttl < now then Some(SignalExpired)
    else None
  }

  /** The guards on the registry. */
  function RegistryFault(reg: Registry, now: Time, e: Envelope): Option<Rejection> {
    if e.agentId !in reg.agents then Some(UnknownAgent) else
    var agent := reg.agents[e.agentId];
    if !agent.enabled then Some(AgentDisabled)
    else if SIGNAL_INGESTION !in agent.capabilities then Some(AgentNotAuthorized)
    else if agent.protocol != e.protocol then Some(UnsupportedProtocol)
    else if agent.supportedAssets != {} && e.asset !in agent.supportedAssets then Some(UnsupportedAsset)
    else if agent.supportedEvidence != {} && !(e.evidence <= agent.supportedEvidence) then Some(UnsupportedEvidence)
    else if e.snapshotId !in reg.snapshots then Some(UnknownSnapshot) else
    var snapshot := reg.snapshots[e.snapshotId];
    if !snapshot.isOpen || snapshot.expiresAt <= now then Some(SnapshotNotOpen)
    else if e.analysisTime < snapshot.createdAt || e.analysisTime > snapshot.expiresAt then Some(SnapshotTimeMismatch)
    else None
  }

  /** The guards on the task that the signal answers. */
  function TaskFault(tasks: map<TaskId, Task>, now: Time, e: Envelope): Option<Rejection> {
    if e.task.None? then None
    else if e.task.value.taskId !in tasks then Some(TaskUnknown) else
    var t := tasks[e.task.value.taskId];
    if t.agentId != e.agentId then Some(TaskAgentMismatch)
    else if t.runId != e.task.value.runId then Some(TaskRunMismatch)
    else if t.snapshotId != e.snapshotId then Some(TaskSnapshotMismatch)
    else if t.asset != e.asset then Some(TaskAssetMismatch)
    else if t.signalDeadline <= now || t.status.TimedOut? then Some(TaskExpired)
    else if t.status.SignalReceived? then Some(DuplicateTaskResult)
    else if t.status.Cancelled? || t.status.Failed? || t.status.Skipped? then Some(TaskNotAccepting)
    else if !(t.status.Dispatching? || t.status.Acknowledged? || t.status.WaitingSignal?) then Some(TaskNotDispatched)
    else None
  }

  /** Does a stored signal carry this task id? The index on the column makes it unique. */
  ghost predicate TaskAnswered(signals: map<MessageId, Signal>, id: TaskId) {
    exists m :: m in signals && signals[m].task.Some? && signals[m].task.value.taskId == id
  }

  ghost function Fault(db: Db, reg: Registry, maxTtl: int, now: Time, e: Envelope, nonce: NonceText): Option<Rejection> {
    if EnvelopeFault(maxTtl, now, e).Some? then EnvelopeFault(maxTtl, now, e)
    else if RegistryFault(reg, now, e).Some? then RegistryFault(reg, now, e)
    else if NonceKey(e.agentId, nonce) in db.nonces then Some(ReplayOrDuplicate)
    else if TaskFault(db.tasks, now, e).Some? then TaskFault(db.tasks, now, e)
    else if e.messageId in db.signals then Some(DuplicateMessage)
    else if e.task.Some? && TaskAnswered(db.signals, e.task.value.taskId) then Some(ReplayOrDuplicate)
    else None
  }

  function StoredSignal(now: Time, e: Envelope): Signal {
    Signal(e.agentId, e.snapshotId, e.task, e.asset, now)
  }

  function CompletedTask(t: Task, now: Time): Task {
    t.(status := SignalReceived, signalReceivedAt := Some(now), leaseOwner := None, leaseUntil := None)
  }

  /** The database after an ingestion: unchanged when any guard fails. */
  ghost function Ingested(db: Db, reg: Registry, maxTtl: int, now: Time, e: Envelope, nonce: NonceText): Db {
    if Fault(db, reg, maxTtl, now, e, nonce).Some? then db else
      db.(
        nonces := db.nonces + {NonceKey(e.agentId, nonce)},
        signals := db.signals[e.messageId := StoredSignal(now, e)],
        tasks := if e.task.None? then db.tasks
                 else db.tasks[e.task.value.taskId := CompletedTask(db.tasks[e.task.value.taskId], now)])
  }

  /** The signal answers this task: it is the agent's, of the same run, snapshot and asset, before the
      deadline, and the task is still open. */
  predicate Answers(t: Task, e: Envelope, now: Time)
    requires e.task.Some?
  {
    && t.agentId == e.agentId && t.runId == e.task.value.runId
    && t.snapshotId == e.snapshotId && t.asset == e.asset
    && now < t.signalDeadline && !Terminal(t.status)
  }

  /** The envelope is fresh: its times are in order, and its lifetime is allowed and not over. */
  predicate Fresh(maxTtl: int, now: Time, e: Envelope) {
    e.ttl <= maxTtl && e.dataTime <= e.analysisTime <= now <= e.analysisTime + e.ttl
  }

  /** The agent may send this signal about this snapshot now. */
  predicate Authorised(reg: Registry, now: Time, e: Envelope) {
    && e.agentId in reg.agents && e.snapshotId in reg.snapshots
    && var agent, snapshot := reg.agents[e.agentId], reg.snapshots[e.snapshotId];
    && agent.enabled && SIGNAL_INGESTION in agent.capabilities && agent.protocol == e.protocol
    && (e.asset in agent.supportedAssets || agent.supportedAssets == {})
    && (e.evidence <= agent.supportedEvidence || agent.supportedEvidence == {})
    && snapshot.isOpen && snapshot.createdAt <= e.analysisTime <= now < snapshot.expiresAt
  }

  /** A signal is accepted exactly when it is fresh and authorised, its nonce and message id are new, and
      it is the first answer to a task of its own that has been dispatched and is still open. */
  lemma AcceptedIff(db: Db, reg: Registry, maxTtl: int, now: Time, e: Envelope, nonce: NonceText)
    ensures Fault(db, reg, maxTtl, now, e, nonce).None? <==>
            && Fresh(maxTtl, now, e) && Authorised(reg, now, e)
            && NonceKey(e.agentId, nonce) !in db.nonces && e.messageId !in db.signals
            && (e.task.Some? ==>
                  && e.task.value.taskId in db.tasks && !TaskAnswered(db.signals, e.task.value.taskId)
                  && var t := db.tasks[e.task.value.taskId];
                     Answers(t, e, now) && !t.status.Pending? && !t.status.Retry?)
  {
    hide TaskAnswered, EnvelopeFault, RegistryFault, TaskFault, Fresh, Authorised, Answers;
    FreshIff(maxTtl, now, e);
    if EnvelopeFault(maxTtl, now, e).None? {
      AuthorisedIff(reg, maxTtl, now, e);
    }
    AnswersIff(db.tasks, now, e);
  }

  lemma FreshIff(maxTtl: int, now: Time, e: Envelope)
    ensures EnvelopeFault(maxTtl, now, e).None? <==> Fresh(maxTtl, now, e)
  {
  }

  lemma AuthorisedIff(reg: Registry, maxTtl: int, now: Time, e: Envelope)
    requires EnvelopeFault(maxTtl, now, e).None?
    ensures RegistryFault(reg, now, e).None? <==> Authorised(reg, now, e)
  {
  }

  lemma AnswersIff(tasks: map<TaskId, Task>, now: Time, e: Envelope)
    ensures TaskFault(tasks, now, e).None? <==>
            (e.task.Some? ==>
               && e.task.value.taskId in tasks
               && var t := tasks[e.task.value.taskId];
                  Answers(t, e, now) && !t.status.Pending? && !t.status.Retry?)
  {
  }

  // ---------- which rejection ----------

  /** What a rejection says about the agent of the signal. */
  predicate SaysOfAgent(x: Rejection, agent: AgentRow, e: Envelope) {
    match x
    case AgentDisabled => !agent.enabled
    case AgentNotAuthorized => SIGNAL_INGESTION !in agent.capabilities
    case UnsupportedProtocol => agent.protocol != e.protocol
    case UnsupportedAsset => agent.supportedAssets != {} && e.asset !in agent.supportedAssets
    case UnsupportedEvidence => agent.supportedEvidence != {} && exists x :: x in e.evidence && x !in agent.supportedEvidence
    case _ => false
  }

  /** What a rejection says about the task of the signal. */
  predicate SaysOfTask(x: Rejection, t: Task, now: Time, e: Envelope)
    requires e.task.Some?
  {
    match x
    case TaskAgentMismatch => t.agentId != e.agentId
    case TaskRunMismatch => t.runId != e.task.value.runId
    case TaskSnapshotMismatch => t.snapshotId != e.snapshotId
    case TaskAssetMismatch => t.asset != e.asset
    case TaskExpired => t.signalDeadline <= now || t.status == TimedOut
    case DuplicateTaskResult => t.status == SignalReceived
    case TaskNotAccepting => t.status == Cancelled || t.status == Failed || t.status == Skipped
    case TaskNotDispatched => t.status == Pending || t.status == Retry
    case _ => false
  }

  /** What a rejection says about the signal. The index on the task id of a signal is not part of it. */
  predicate Says(x: Rejection, db: Db, reg: Registry, maxTtl: int, now: Time, e: Envelope, nonce: NonceText) {
    match x
    case TtlExceedsMaximum => maxTtl < e.ttl
    case InvalidTimestamps => !(e.dataTime <= e.analysisTime <= now)
    case SignalExpired => e.analysisTime + e.ttl < now
    case UnknownAgent => e.agentId !in reg.agents
    case UnknownSnapshot => e.snapshotId !in reg.snapshots
    case SnapshotNotOpen =>
      e.snapshotId in reg.snapshots && !(reg.snapshots[e.snapshotId].isOpen && now < reg.snapshots[e.snapshotId].expiresAt)
    case SnapshotTimeMismatch =>
      && e.snapshotId in reg.snapshots
      && !(reg.snapshots[e.snapshotId].createdAt <= e.analysisTime <= reg.snapshots[e.snapshotId].expiresAt)
    case ReplayOrDuplicate => NonceKey(e.agentId, nonce) in db.nonces
    case TaskUnknown => e.task.Some? && e.task.value.taskId !in db.tasks
    case DuplicateMessage => e.messageId in db.signals
    case _ =>
      || (e.agentId in reg.agents && SaysOfAgent(x, reg.agents[e.agentId], e))
      || (e.task.Some? && e.task.value.taskId in db.tasks && SaysOfTask(x, db.tasks[e.task.value.taskId], now, e))
  }

  /** The order in which the rejections are looked for. */
  const PRECEDENCE: seq<Rejection> := [
    TtlExceedsMaximum, InvalidTimestamps, SignalExpired,
    UnknownAgent, AgentDisabled, AgentNotAuthorized, UnsupportedProtocol, UnsupportedAsset, UnsupportedEvidence,
    UnknownSnapshot, SnapshotNotOpen, SnapshotTimeMismatch,
    ReplayOrDuplicate,
    TaskUnknown, TaskAgentMismatch, TaskRunMismatch, TaskSnapshotMismatch, TaskAssetMismatch,
    TaskExpired, DuplicateTaskResult, TaskNotAccepting, TaskNotDispatched,
    DuplicateMessage]

  lemma AgentStage(db: Db, reg: Registry, maxTtl: int, now: Time, e: Envelope, nonce: NonceText, i: nat)
    requires 4 <= i <= 8
    ensures Says(PRECEDENCE[i], db, reg, maxTtl, now, e, nonce) <==>
            e.agentId in reg.agents && SaysOfAgent(PRECEDENCE[i], reg.agents[e.agentId], e)
  {
    assert PRECEDENCE[i] in PRECEDENCE[4..9];
  }

  lemma TaskStage(db: Db, reg: Registry, maxTtl: int, now: Time, e: Envelope, nonce: NonceText, i: nat)
    requires 14 <= i <= 21
    ensures Says(PRECEDENCE[i], db, reg, maxTtl, now, e, nonce) <==>
            && e.task.Some? && e.task.value.taskId in db.tasks
            && SaysOfTask(PRECEDENCE[i], db.tasks[e.task.value.taskId], now, e)
  {
    assert PRECEDENCE[i] in PRECEDENCE[14..22];
  }

  /** A rejected signal is given the first rejection that is true of it. If none is, it is a duplicate when
      its task has another signal, and is accepted otherwise. */
  lemma RejectionIsFirst(db: Db, reg: Registry, maxTtl: int, now: Time, e: Envelope, nonce: NonceText, k: nat)
    requires k <= |PRECEDENCE| && forall i :: 0 <= i < k ==> !Says(PRECEDENCE[i], db, reg, maxTtl, now, e, nonce)
    ensures var fault := Fault(db, reg, maxTtl, now, e, nonce);
            && (k < |PRECEDENCE| && Says(PRECEDENCE[k], db, reg, maxTtl, now, e, nonce) ==> fault == Some(PRECEDENCE[k]))
            && (k == |PRECEDENCE| ==>
                  fault == if e.task.Some? && TaskAnswered(db.signals, e.task.value.taskId) then Some(ReplayOrDuplicate) else None)
  {
    hide TaskAnswered, RegistryFault, TaskFault;
    assert
      && PRECEDENCE[0].TtlExceedsMaximum? && PRECEDENCE[1].InvalidTimestamps? && PRECEDENCE[2].SignalExpired?
      && PRECEDENCE[12].ReplayOrDuplicate? && PRECEDENCE[22].DuplicateMessage?;
    if 3 <= k {
      RegistryRejection(db, reg, maxTtl, now, e, nonce, k);
    }
    if 13 <= k {
      TaskRejection(db, reg, maxTtl, now, e, nonce, k);
    }
  }

  lemma RegistryRejection(db: Db, reg: Registry, maxTtl: int, now: Time, e: Envelope, nonce: NonceText, k: nat)
    requires 3 <= k <= |PRECEDENCE| && forall i :: 0 <= i < k ==> !Says(PRECEDENCE[i], db, reg, maxTtl, now, e, nonce)
    ensures k < 12 && Says(PRECEDENCE[k], db, reg, maxTtl, now, e, nonce) ==> RegistryFault(reg, now, e) == Some(PRECEDENCE[k])
    ensures 12 <= k ==> RegistryFault(reg, now, e).None?
  {
    forall i | 4 <= i <= 8 && i < k && e.agentId in reg.agents ensures !SaysOfAgent(PRECEDENCE[i], reg.agents[e.agentId], e) {
      AgentStage(db, reg, maxTtl, now, e, nonce, i);
    }
    if 4 <= k <= 8 {
      AgentStage(db, reg, maxTtl, now, e, nonce, k);
    }
    if e.agentId in reg.agents {
      AgentRejection(reg, now, e, k);
    }
    assert PRECEDENCE[3].UnknownAgent? && PRECEDENCE[9].UnknownSnapshot? && PRECEDENCE[10].SnapshotNotOpen?;
    assert PRECEDENCE[11].SnapshotTimeMismatch?;
    hide SaysOfAgent, SaysOfTask;
  }

  lemma AgentRejection(reg: Registry, now: Time, e: Envelope, k: nat)
    requires e.agentId in reg.agents
    requires forall i :: 4 <= i <= 8 && i < k ==> !SaysOfAgent(PRECEDENCE[i], reg.agents[e.agentId], e)
    ensures 4 <= k <= 8 && SaysOfAgent(PRECEDENCE[k], reg.agents[e.agentId], e) ==> RegistryFault(reg, now, e) == Some(PRECEDENCE[k])
    ensures 9 <= k ==>
              var fault := RegistryFault(reg, now, e);
              fault.None? || fault.value.UnknownSnapshot? || fault.value.SnapshotNotOpen? || fault.value.SnapshotTimeMismatch?
  {
    assert PRECEDENCE[4].AgentDisabled? && PRECEDENCE[5].AgentNotAuthorized? && PRECEDENCE[6].UnsupportedProtocol?;
    assert PRECEDENCE[7].UnsupportedAsset? && PRECEDENCE[8].UnsupportedEvidence?;
    hide Says, SaysOfTask;
  }

  lemma TaskRejection(db: Db, reg: Registry, maxTtl: int, now: Time, e: Envelope, nonce: NonceText, k: nat)
    requires 13 <= k <= |PRECEDENCE| && forall i :: 0 <= i < k ==> !Says(PRECEDENCE[i], db, reg, maxTtl, now, e, nonce)
    ensures k < 22 && Says(PRECEDENCE[k], db, reg, maxTtl, now, e, nonce) ==> TaskFault(db.tasks, now, e) == Some(PRECEDENCE[k])
    ensures 22 <= k ==> TaskFault(db.tasks, now, e).None?
  {
    forall i | 14 <= i <= 21 && i < k && e.task.Some? && e.task.value.taskId in db.tasks
      ensures !SaysOfTask(PRECEDENCE[i], db.tasks[e.task.value.taskId], now, e)
    {
      TaskStage(db, reg, maxTtl, now, e, nonce, i);
    }
    if 14 <= k <= 21 {
      TaskStage(db, reg, maxTtl, now, e, nonce, k);
    }
    if e.task.Some? && e.task.value.taskId in db.tasks {
      OpenTaskRejection(db.tasks, now, e, k);
    }
    assert PRECEDENCE[13].TaskUnknown?;
    hide SaysOfAgent, SaysOfTask;
  }

  lemma OpenTaskRejection(tasks: map<TaskId, Task>, now: Time, e: Envelope, k: nat)
    requires e.task.Some? && e.task.value.taskId in tasks
    requires forall i :: 14 <= i <= 21 && i < k ==> !SaysOfTask(PRECEDENCE[i], tasks[e.task.value.taskId], now, e)
    ensures 14 <= k <= 21 && SaysOfTask(PRECEDENCE[k], tasks[e.task.value.taskId], now, e) ==> TaskFault(tasks, now, e) == Some(PRECEDENCE[k])
    ensures 22 <= k ==> TaskFault(tasks, now, e).None?
  {
    assert PRECEDENCE[14].TaskAgentMismatch? && PRECEDENCE[15].TaskRunMismatch?;
    assert PRECEDENCE[16].TaskSnapshotMismatch? && PRECEDENCE[17].TaskAssetMismatch?;
    if 18 <= k {
      StatusRejection(tasks, now, e, k);
    }
  }

  lemma StatusRejection(tasks: map<TaskId, Task>, now: Time, e: Envelope, k: nat)
    requires e.task.Some? && e.task.value.taskId in tasks && 18 <= k
    requires var t := tasks[e.task.value.taskId];
             && t.agentId == e.agentId && t.runId == e.task.value.runId && t.snapshotId == e.snapshotId && t.asset == e.asset
    requires forall i :: 18 <= i <= 21 && i < k ==> !SaysOfTask(PRECEDENCE[i], tasks[e.task.value.taskId], now, e)
    ensures k <= 21 && SaysOfTask(PRECEDENCE[k], tasks[e.task.value.taskId], now, e) ==> TaskFault(tasks, now, e) == Some(PRECEDENCE[k])
    ensures 22 <= k ==> TaskFault(tasks, now, e).None?
  {
    assert PRECEDENCE[18].TaskExpired?;
    if 19 <= k {
      assert PRECEDENCE[19].DuplicateTaskResult? && PRECEDENCE[20].TaskNotAccepting? && PRECEDENCE[21].TaskNotDispatched?;
    }
  }
}
