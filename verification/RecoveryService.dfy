/** Restart reconciliation, as the loops of its transaction, followed by an evaluation of each run. */
module RecoveryServices {
  import opened Rows
  import opened Recovery
  import opened Quorum
  import opened Store
  import opened Evaluator

  /** The database after evaluating the runs one after the other at the given times. */
  ghost function EvaluatedAll(db: Db, rows: seq<RunId>, times: seq<Time>): Db
    requires |times| == |rows|
    requires forall i :: 0 <= i < |rows| ==> rows[i] in db.runs
    ensures EvaluatedAll(db, rows, times).runs.Keys == db.runs.Keys
  {
    if rows == [] then db else
      var n := |rows| - 1;
      Evaluated(EvaluatedAll(db, rows[..n], times[..n]), rows[n], times[n])
  }

  lemma SelectedRuns(runs: map<RunId, Run>, locked: set<RunId>, limit: nat, rows: seq<RunId>)
    requires IsFirst(RecoveryKeys(runs, locked), limit, rows)
    ensures Distinct(rows) && forall i :: 0 <= i < |rows| ==> rows[i] in runs
  {
  }

  class RecoveryService {
    const db: Database
    const clock: Clock
    const evaluator: CompletenessEvaluator
    const batchSize: nat

    constructor (db: Database, clock: Clock, evaluator: CompletenessEvaluator, batchSize: nat)
      requires evaluator.db == db
      ensures this.db == db && this.clock == clock && this.evaluator == evaluator && this.batchSize == batchSize
    {
      this.db, this.clock, this.evaluator, this.batchSize := db, clock, evaluator, batchSize;
    }

    /** One turn of the inner loop. */
    method RepairTask(now: Time, id: TaskId, signalled: set<TaskId>) returns (changed: bool)
      requires id in db.tasks
      modifies db
      ensures db.View() == old(db.View()).(tasks := old(db.tasks)[id := RepairedTask(signalled, now, id, old(db.tasks[id]))])
      ensures changed <==> db.tasks[id] != old(db.tasks[id])
    {
      var task := db.tasks[id];
      changed := false;
      if id in signalled && !task.status.SignalReceived? {
        task := task.(status := SignalReceived,
                      signalReceivedAt := if task.signalReceivedAt.Some? then task.signalReceivedAt else Some(now));
        task := task.(leaseOwner := None, leaseUntil := None);
        changed := true;
      } else if task.status.Dispatching? && task.leaseUntil.Some? && task.leaseUntil.value <= now {
        task := task.(status := if task.dispatchDeadline > now then Retry else TimedOut);
        task := task.(dispatchAfter := now, leaseOwner := None, leaseUntil := None);
        changed := true;
      } else if (task.status.Acknowledged? || task.status.WaitingSignal?) && task.signalDeadline <= now {
        task := task.(status := TimedOut);
        changed := true;
      }
      db.tasks := db.tasks[id := task];
    }

    /** The inner loop: repairs the tasks `ids`. */
    method RepairTasks(now: Time, ids: set<TaskId>, signalled: set<TaskId>) returns (changed: bool)
      requires ids <= db.tasks.Keys
      modifies db
      ensures db.View() == old(db.View()).(tasks := db.tasks) && db.tasks.Keys == old(db.tasks).Keys
      ensures forall id :: id in old(db.tasks) ==>
                db.tasks[id] == (if id in ids then RepairedTask(signalled, now, id, old(db.tasks)[id]) else old(db.tasks)[id])
      ensures changed <==> exists id :: id in ids && RepairedTask(signalled, now, id, old(db.tasks)[id]) != old(db.tasks)[id]
    {
      hide RepairedTask;
      ghost var tasks0 := db.tasks;
      ghost var moved: set<TaskId> := {};
      changed := false;
      var todo := ids;
      while todo != {}
        invariant todo <= ids
        invariant db.View() == old(db.View()).(tasks := db.tasks) && db.tasks.Keys == tasks0.Keys
        invariant forall id :: id in tasks0 ==>
                    db.tasks[id] == (if id in ids && id !in todo then RepairedTask(signalled, now, id, tasks0[id]) else tasks0[id])
        invariant forall id :: id in moved <==>
                    id in ids && id !in todo && RepairedTask(signalled, now, id, tasks0[id]) != tasks0[id]
        invariant changed <==> moved != {}
        decreases todo
      {
        var id :| id in todo;
        var c := RepairTask(now, id, signalled);
        if c {
          changed := true;
          moved := moved + {id};
        }
        todo := todo - {id};
      }
      if changed {
        assert exists id :: id in moved;
      }
    }

    /** Repairs one run. */
    method RepairRun(now: Time, r: RunId) returns (recovered: bool)
      requires r in db.runs
      modifies db
      ensures db.View() == Reconciled(old(db.View()), now, {r})
      ensures recovered <==> Recovers(old(db.View()), now, r)
    {
      hide RepairedTask, SignalledTasks;
      ghost var db0 := db.View();
      var ids := set id | id in db.tasks && db.tasks[id].runId == r;
      var changed := RepairTasks(now, ids, SignalledTasks(db.signals, r));
      recovered := changed || db.runs[r].status.RunTimedOut?;
      if db.runs[r].status.RunTimedOut? {
        db.runs := db.runs[r := db.runs[r].(status := RunCollecting)];
      }
      assert db.tasks == Reconciled(db0, now, {r}).tasks;
      assert db.runs == Reconciled(db0, now, {r}).runs;
    }

    /** Repairs the selected runs in one transaction, then evaluates each of them. */
    method Reconcile(locked: set<RunId>)
      returns (recovered: seq<RunId>, ghost rows: seq<RunId>, ghost at: Time, ghost times: seq<Time>)
      requires evaluator.db == db
      modifies db, clock
      ensures old(clock.time) <= at && Readings(at, times, clock.time)
      ensures IsFirst(RecoveryKeys(old(db.runs), locked), batchSize, rows)
      ensures |times| == |rows|
      ensures db.View() == EvaluatedAll(Reconciled(old(db.View()), at, Elems(rows)), rows, times)
      ensures recovered == RecoveredRuns(old(db.View()), at, rows)
    {
      hide IsFirst, Reconciled, RecoveryKeys, Evaluated, RecoveredRuns, Report;
      var now := clock.Now();
      at := now;
      var runs := TakeFirst(RecoveryKeys(db.runs, locked), batchSize);
      rows := runs;
      SelectedRuns(db.runs, locked, batchSize, rows);
      recovered := Repair(now, runs);
      times := EvaluateRuns(runs);
    }

    /** Evaluates the runs one after the other, each in a transaction of its own. */
    method EvaluateRuns(rows: seq<RunId>) returns (ghost times: seq<Time>)
      requires evaluator.db == db && forall i :: 0 <= i < |rows| ==> rows[i] in db.runs
      modifies db, clock
      ensures |times| == |rows| && Readings(old(clock.time), times, clock.time)
      ensures db.View() == EvaluatedAll(old(db.View()), rows, times)
    {
      hide Evaluated, Report, Readings;
      NoReading(clock.time);
      ghost var repaired := db.View();
      times := [];
      for i := 0 to |rows|
        invariant |times| == i && Readings(old(clock.time), times, clock.time)
        invariant db.View() == EvaluatedAll(repaired, rows[..i], times)
      {
        ghost var before := clock.time;
        var now := clock.Now();
        NextReading(old(clock.time), times, before, now);
        var _ := evaluator.Evaluate(now, rows[i]);
        times := times + [now];
        assert rows[..i + 1][..i] == rows[..i] && times[..i] == times[..|times| - 1];
      }
      assert rows[..|rows|] == rows;
    }

    /** The repairing transaction: each run's repair leaves the other runs' repairs as they were. */
    method Repair(now: Time, rows: seq<RunId>) returns (recovered: seq<RunId>)
      requires Distinct(rows) && forall i :: 0 <= i < |rows| ==> rows[i] in db.runs
      modifies db
      ensures db.View() == Reconciled(old(db.View()), now, Elems(rows)) && db.runs.Keys == old(db.runs.Keys)
      ensures recovered == RecoveredRuns(old(db.View()), now, rows)
    {
      ghost var db0 := db.View();
      recovered := [];
      assert Elems(rows[..0]) == {};
      assert Reconciled(db0, now, {}).tasks == db0.tasks && Reconciled(db0, now, {}).runs == db0.runs;
      for i := 0 to |rows|
        invariant db.View() == Reconciled(db0, now, Elems(rows[..i]))
        invariant recovered == RecoveredRuns(db0, now, rows[..i])
      {
        RepairOneMore(db0, now, Elems(rows[..i]), rows[i]);
        assert Elems(rows[..i + 1]) == Elems(rows[..i]) + {rows[i]};
        hide Recovers;
        var changed := RepairRun(now, rows[i]);
        if changed {
          recovered := recovered + [rows[i]];
        }
        assert rows[..i + 1][..i] == rows[..i] && recovered + [] == recovered;
      }
      assert rows[..|rows|] == rows;
    }
  }

  lemma RepairOneMore(db: Db, now: Time, selected: set<RunId>, r: RunId)
    requires r !in selected && r in db.runs
    ensures var before := Reconciled(db, now, selected);
            && Reconciled(before, now, {r}) == Reconciled(db, now, selected + {r})
            && (Recovers(before, now, r) <==> Recovers(db, now, r))
  {
    hide RepairedTask, SignalledTasks;
    var before := Reconciled(db, now, selected);
    var twice, once := Reconciled(before, now, {r}), Reconciled(db, now, selected + {r});
    forall id | id in db.tasks ensures twice.tasks[id] == once.tasks[id] {
      assert before.tasks[id].runId == db.tasks[id].runId by { RepairKeepsRunId(db, now, id); }
    }
    assert twice.tasks == once.tasks;
    assert twice.runs == once.runs;
    assert before.runs[r] == db.runs[r];
    assert forall id :: id in db.tasks && db.tasks[id].runId == r ==> before.tasks[id] == db.tasks[id];
  }

  lemma RepairKeepsRunId(db: Db, now: Time, id: TaskId)
    requires id in db.tasks
    ensures RepairedTask(SignalledTasks(db.signals, db.tasks[id].runId), now, id, db.tasks[id]).runId == db.tasks[id].runId
  {
  }
}
