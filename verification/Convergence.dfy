/** What a reconciliation leaves behind, whatever table it finds. */
module Convergence {
  import opened Rows
  import opened Recovery

  /** A repaired task: nothing is left to repair. */
  predicate Repaired(signalled: set<TaskId>, now: Time, id: TaskId, t: Task) {
    && (id in signalled ==> t.status.SignalReceived?)
    && (t.status.Dispatching? && t.leaseUntil.Some? ==> now < t.leaseUntil.value)
    && (t.status.Acknowledged? || t.status.WaitingSignal? ==> now < t.signalDeadline)
  }

  /** What a repair may not touch. */
  predicate RepairRespects(signalled: set<TaskId>, now: Time, id: TaskId, t: Task, t': Task) {
    && SameIdentity(t, t')
    && t'.attempts == t.attempts
    // a live lease, or one without an end, is left alone
    && (id !in signalled && t.status.Dispatching? && (t.leaseUntil.Some? ==> now < t.leaseUntil.value) ==> t' == t)
    && (t'.status.Dispatching? ==> t' == t)
    && (t'.status.SignalReceived? && !t.status.SignalReceived? ==> id in signalled)
    // only an interrupted dispatch before its deadline is tried again
    && (t'.status.Retry? && t' != t ==> t.status.Dispatching? && now < t.dispatchDeadline && t'.leaseOwner == None)
    && (t' != t ==> t'.status.SignalReceived? || t'.status.Retry? || t'.status.TimedOut?)
  }

  lemma RepairConverges(signalled: set<TaskId>, now: Time, id: TaskId, t: Task)
    ensures var t' := RepairedTask(signalled, now, id, t);
            && Repaired(signalled, now, id, t')
            && RepairRespects(signalled, now, id, t, t')
            && (t' == t <==> Repaired(signalled, now, id, t))
  {
  }

  /** From any table, consistent or not: every task of a selected run is repaired, no other row
      changes, no selected run stays TIMED_OUT, and a second pass over any of these runs at the same
      time changes nothing. */
  lemma ReconcileConverges(db: Db, now: Time, selected: set<RunId>, again: set<RunId>)
    requires again <= selected
    ensures var db' := Reconciled(db, now, selected);
            && db'.signals == db.signals && db'.nonces == db.nonces && db'.agents == db.agents
            && db'.tasks.Keys == db.tasks.Keys && db'.runs.Keys == db.runs.Keys
            && (forall id :: id in db.tasks && db.tasks[id].runId in selected ==>
                  var signalled := SignalledTasks(db.signals, db.tasks[id].runId);
                  Repaired(signalled, now, id, db'.tasks[id]) && RepairRespects(signalled, now, id, db.tasks[id], db'.tasks[id]))
            && (forall id :: id in db.tasks && db.tasks[id].runId !in selected ==> db'.tasks[id] == db.tasks[id])
            && (forall r :: r in db.runs && r in selected ==> !db'.runs[r].status.RunTimedOut?)
            && Reconciled(db', now, again) == db'
  {
    var db' := Reconciled(db, now, selected);
    var db2 := Reconciled(db', now, again);
    forall id | id in db.tasks
      ensures db2.tasks[id] == db'.tasks[id]
      ensures db.tasks[id].runId in selected ==>
        var signalled := SignalledTasks(db.signals, db.tasks[id].runId);
        Repaired(signalled, now, id, db'.tasks[id]) && RepairRespects(signalled, now, id, db.tasks[id], db'.tasks[id])
    {
      var signalled := SignalledTasks(db.signals, db.tasks[id].runId);
      RepairConverges(signalled, now, id, db.tasks[id]);
      RepairConverges(signalled, now, id, db'.tasks[id]);
    }
    hide Repaired, RepairRespects, RepairedTask, SignalledTasks;
    assert db2.tasks == db'.tasks;
    assert db2.runs == db'.runs;
  }
}
