/** Restart reconciliation, row by row. */
module Recovery {
  import opened Rows

  /** The runs that a reconciliation selects from. */
  predicate Recoverable(st: RunStatus) {
    st.RunCreated? || st.RunDispatching? || st.RunCollecting? || st.RunTimedOut?
  }

  function RecoveryKeys(runs: map<RunId, Run>, locked: set<RunId>): map<nat, (int, int)> {
    map r | r in runs && r !in locked && Recoverable(runs[r].status) :: (runs[r].createdAt, 0)
  }

  /** The tasks of run `r` for which a signal is stored. */
  function SignalledTasks(signals: map<MessageId, Signal>, r: RunId): set<TaskId> {
    set m | m in signals && signals[m].task.Some? && signals[m].task.value.runId == r
      :: signals[m].task.value.taskId
  }

  function RepairedTask(signalled: set<TaskId>, now: Time, id: TaskId, t: Task): Task {
    if id in signalled && !t.status.SignalReceived? then
      t.(status := SignalReceived,
         signalReceivedAt := if t.signalReceivedAt.Some? then t.signalReceivedAt else Some(now),
         leaseOwner := None, leaseUntil := None)
    else if t.status.Dispatching? && t.leaseUntil.Some? && t.leaseUntil.value <= now then
      t.(status := if now < t.dispatchDeadline then Retry else TimedOut,
         dispatchAfter := now, leaseOwner := None, leaseUntil := None)
    else if (t.status.Acknowledged? || t.status.WaitingSignal?) && t.signalDeadline <= now then
      t.(status := TimedOut)
    else t
  }

  function RepairedRun(run: Run): Run {
    if run.status.RunTimedOut? then run.(status := RunCollecting) else run
  }

  /** The database after the repair of the selected runs. */
  ghost function Reconciled(db: Db, now: Time, selected: set<RunId>): Db {
    db.(
      tasks := map id | id in db.tasks ::
        if db.tasks[id].runId in selected
        then RepairedTask(SignalledTasks(db.signals, db.tasks[id].runId), now, id, db.tasks[id])
        else db.tasks[id],
      runs := map r | r in db.runs :: if r in selected then RepairedRun(db.runs[r]) else db.runs[r])
  }

  /** Is the run reported as recovered? */
  ghost predicate Recovers(db: Db, now: Time, r: RunId)
    requires r in db.runs
  {
    || db.runs[r].status.RunTimedOut?
    || exists id :: id in db.tasks && db.tasks[id].runId == r
         && RepairedTask(SignalledTasks(db.signals, r), now, id, db.tasks[id]) != db.tasks[id]
  }

  /** The recovered runs, in the order in which they were selected. */
  ghost function RecoveredRuns(db: Db, now: Time, rows: seq<RunId>): seq<RunId>
    requires forall i :: 0 <= i < |rows| ==> rows[i] in db.runs
  {
    if rows == [] then [] else
      var n := |rows| - 1;
      RecoveredRuns(db, now, rows[..n]) + (if Recovers(db, now, rows[n]) then [rows[n]] else [])
  }
}
