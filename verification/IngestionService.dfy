/** Signal ingestion, guard by guard, inside a transaction that rolls back when a guard fails. */
module IngestionServices {
  import opened Rows
  import opened Ingestion
  import opened Store

  class SignalIngestionService {
    const maxTtl: int

    constructor (maxTtl: int)
      ensures this.maxTtl == maxTtl
    {
      this.maxTtl := maxTtl;
    }

    /** Accepts a signal or explains why not. */
    method Ingest(db: Database, reg: Registry, now: Time, e: Envelope, nonce: NonceText) returns (fault: Option<Rejection>)
      modifies db
      ensures fault == Fault(old(db.View()), reg, maxTtl, now, e, nonce)
      ensures db.View() == Ingested(old(db.View()), reg, maxTtl, now, e, nonce)
    {
      hide RegistryFault, TaskFault;
      if e.ttl > maxTtl {
        return Some(TtlExceedsMaximum);
      }
      if e.analysisTime > now || e.dataTime > e.analysisTime {
        return Some(InvalidTimestamps);
      }
      if e.analysisTime + e.ttl < now {
        return Some(SignalExpired);
      }
      // the transaction works on the tables and restores them when it fails
      var signals, nonces, tasks := db.signals, db.nonces, db.tasks;
      fault := Transact(db, reg, now, e, nonce);
      if fault.Some? {
        db.signals, db.nonces, db.tasks := signals, nonces, tasks;
      }
    }

    /** The body of the transaction: on a failure the tables hold what was written before it. */
    method Transact(db: Database, reg: Registry, now: Time, e: Envelope, nonce: NonceText) returns (fault: Option<Rejection>)
      requires EnvelopeFault(maxTtl, now, e).None?
      modifies db
      ensures fault == Fault(old(db.View()), reg, maxTtl, now, e, nonce)
      ensures fault.None? ==> db.View() == Ingested(old(db.View()), reg, maxTtl, now, e, nonce)
      ensures db.View().(signals := old(db.signals), nonces := old(db.nonces), tasks := old(db.tasks)) == old(db.View())
    {
      fault := CheckRegistry(reg, now, e);
      if fault.Some? {
        return;
      }
      var key := NonceKey(e.agentId, nonce);
      if key in db.nonces {
        return Some(ReplayOrDuplicate);
      }
      db.nonces := db.nonces + {key};
      if e.task.Some? {
        fault := CheckTask(db, now, e, e.task.value);
        if fault.Some? {
          return;
        }
      }
      hide TaskFault, RegistryFault;
      if e.messageId in db.signals {
        return Some(DuplicateMessage);
      }
      if e.task.Some? && exists m :: m in db.signals && db.signals[m].task.Some? && db.signals[m].task.value.taskId == e.task.value.taskId {
        return Some(ReplayOrDuplicate);
      }
      db.signals := db.signals[e.messageId := StoredSignal(now, e)];
      if e.task.Some? {
        var task := db.tasks[e.task.value.taskId];
        db.tasks := db.tasks[e.task.value.taskId := task.(
          status := SignalReceived, signalReceivedAt := Some(now), leaseOwner := None, leaseUntil := None)];
      }
      fault := None;
    }

    method CheckRegistry(reg: Registry, now: Time, e: Envelope) returns (fault: Option<Rejection>)
      ensures fault == RegistryFault(reg, now, e)
    {
      if e.agentId !in reg.agents {
        return Some(UnknownAgent);
      }
      var agent := reg.agents[e.agentId];
      if !agent.enabled {
        return Some(AgentDisabled);
      }
      if SIGNAL_INGESTION !in agent.capabilities {
        return Some(AgentNotAuthorized);
      }
      if agent.protocol != e.protocol {
        return Some(UnsupportedProtocol);
      }
      if agent.supportedAssets != {} && e.asset !in agent.supportedAssets {
        return Some(UnsupportedAsset);
      }
      if agent.supportedEvidence != {} && !(e.evidence <= agent.supportedEvidence) {
        return Some(UnsupportedEvidence);
      }
      if e.snapshotId !in reg.snapshots {
        return Some(UnknownSnapshot);
      }
      var snapshot := reg.snapshots[e.snapshotId];
      if !snapshot.isOpen || snapshot.expiresAt <= now {
        return Some(SnapshotNotOpen);
      }
      if e.analysisTime < snapshot.createdAt || e.analysisTime > snapshot.expiresAt {
        return Some(SnapshotTimeMismatch);
      }
      fault := None;
    }

    method CheckTask(db: Database, now: Time, e: Envelope, ref: TaskRef) returns (fault: Option<Rejection>)
      requires e.task == Some(ref)
      ensures fault == TaskFault(db.tasks, now, e)
      ensures fault.None? ==> ref.taskId in db.tasks
    {
      if ref.taskId !in db.tasks {
        return Some(TaskUnknown);
      }
      var task := db.tasks[ref.taskId];
      if task.agentId != e.agentId {
        return Some(TaskAgentMismatch);
      }
      if task.runId != ref.runId {
        return Some(TaskRunMismatch);
      }
      if task.snapshotId != e.snapshotId {
        return Some(TaskSnapshotMismatch);
      }
      if task.asset != e.asset {
        return Some(TaskAssetMismatch);
      }
      if task.signalDeadline <= now || task.status.TimedOut? {
        return Some(TaskExpired);
      }
      if task.status.SignalReceived? {
        return Some(DuplicateTaskResult);
      }
      if task.status.Cancelled? || task.status.Failed? || task.status.Skipped? {
        return Some(TaskNotAccepting);
      }
      if !(task.status.Dispatching? || task.status.Acknowledged? || task.status.WaitingSignal?) {
        return Some(TaskNotDispatched);
      }
      fault := None;
    }
  }
}
