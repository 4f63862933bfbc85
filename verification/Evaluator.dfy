/** The completeness evaluator. */
module Evaluator {
  import opened Rows
  import opened Quorum
  import opened Store

  datatype Completeness = Completeness(
    status: RunStatus,
    outcome: Option<Outcome>,
    completed: bool,
    received: nat,
    expected: nat,
    missing: seq<Capability>)

  datatype LookupError = RunNotFound

  /** What an evaluation answers. */
  ghost function Report(db: Db, r: RunId, now: Time): Completeness
    requires r in db.runs
  {
    var run := db.runs[r];
    var received := |set id | id in TasksOf(db.tasks, r) && db.tasks[id].status.SignalReceived?|;
    var expected := |TasksOf(db.tasks, r)|;
    var missing := ShortCapabilities(db.tasks, r, run.policy.requirements);
    if Settled(run.status) then
      Completeness(run.status, run.outcome, run.completedAt.Some?, received, expected, run.missingRequired)
    else match Decide(db.tasks, r, run, now)
      case Some(v) => Completeness(StatusOf(v), Some(OutcomeOf(v)), true, received, expected, missing)
      case None => Completeness(run.status, run.outcome, false, received, expected, missing)
  }

  /** The answer agrees with the run row that the evaluation leaves: its status and outcome, completed
      exactly when it is settled, one expected signal for each task, and as many received as are answered. */
  lemma ReportAgreesWithRow(db: Db, r: RunId, now: Time)
    requires r in db.runs && (Settled(db.runs[r].status) ==> db.runs[r].completedAt.Some?)
    ensures var report, run' := Report(db, r, now), Evaluated(db, r, now).runs[r];
            && report.status == run'.status && report.outcome == run'.outcome
            && (report.completed <==> Settled(run'.status))
            && report.expected == |set id | id in db.tasks && db.tasks[id].runId == r|
            && report.received == |set id | id in db.tasks && db.tasks[id].runId == r && db.tasks[id].status.SignalReceived?|
            && report.missing == if Settled(db.runs[r].status) then db.runs[r].missingRequired
                                 else ShortCapabilities(db.tasks, r, db.runs[r].policy.requirements)
  {
    hide Decide, ShortCapabilities;
    assert TasksOf(db.tasks, r) == set id | id in db.tasks && db.tasks[id].runId == r;
    assert (set id | id in TasksOf(db.tasks, r) && db.tasks[id].status.SignalReceived?)
        == set id | id in db.tasks && db.tasks[id].runId == r && db.tasks[id].status.SignalReceived?;
  }

  datatype Tally = Tally(received: nat, unfinished: nat, lost: bool)

  ghost function ReceivedAmong(tasks: map<TaskId, Task>, ids: set<TaskId>, c: Capability): set<TaskId>
    requires ids <= tasks.Keys
  {
    set id | id in ids && tasks[id].capability == c && tasks[id].status.SignalReceived?
  }

  ghost function UnfinishedAmong(tasks: map<TaskId, Task>, ids: set<TaskId>, c: Capability): set<TaskId>
    requires ids <= tasks.Keys
  {
    set id | id in ids && tasks[id].capability == c && !Terminal(tasks[id].status)
  }

  ghost predicate LostAmong(tasks: map<TaskId, Task>, ids: set<TaskId>, c: Capability)
    requires ids <= tasks.Keys
  {
    exists id :: id in ids && tasks[id].capability == c && Lost(tasks[id].status)
  }

  lemma ReceivedOneMore(tasks: map<TaskId, Task>, ids: set<TaskId>, c: Capability, id: TaskId)
    requires ids <= tasks.Keys && id in tasks && id !in ids
    ensures |ReceivedAmong(tasks, ids + {id}, c)| ==
            |ReceivedAmong(tasks, ids, c)| + (if tasks[id].capability == c && tasks[id].status.SignalReceived? then 1 else 0)
  {
    if tasks[id].capability == c && tasks[id].status.SignalReceived? {
      assert ReceivedAmong(tasks, ids + {id}, c) == ReceivedAmong(tasks, ids, c) + {id};
    } else {
      assert ReceivedAmong(tasks, ids + {id}, c) == ReceivedAmong(tasks, ids, c);
    }
  }

  lemma UnfinishedOneMore(tasks: map<TaskId, Task>, ids: set<TaskId>, c: Capability, id: TaskId)
    requires ids <= tasks.Keys && id in tasks && id !in ids
    ensures |UnfinishedAmong(tasks, ids + {id}, c)| ==
            |UnfinishedAmong(tasks, ids, c)| + (if tasks[id].capability == c && !Terminal(tasks[id].status) then 1 else 0)
  {
    hide Terminal;
    if tasks[id].capability == c && !Terminal(tasks[id].status) {
      assert UnfinishedAmong(tasks, ids + {id}, c) == UnfinishedAmong(tasks, ids, c) + {id};
    } else {
      assert UnfinishedAmong(tasks, ids + {id}, c) == UnfinishedAmong(tasks, ids, c);
    }
  }

  lemma LostOneMore(tasks: map<TaskId, Task>, ids: set<TaskId>, c: Capability, id: TaskId)
    requires ids <= tasks.Keys && id in tasks
    ensures LostAmong(tasks, ids + {id}, c) <==> LostAmong(tasks, ids, c) || (tasks[id].capability == c && Lost(tasks[id].status))
  {
    hide Lost;
  }

  /** Counts the tasks of one capability among `ids`. */
  method CountCapability(tasks: map<TaskId, Task>, ids: set<TaskId>, c: Capability) returns (n: Tally)
    requires ids <= tasks.Keys
    ensures n.received == |ReceivedAmong(tasks, ids, c)|
    ensures n.unfinished == |UnfinishedAmong(tasks, ids, c)|
    ensures n.lost <==> LostAmong(tasks, ids, c)
  {
    hide LostAmong;
    NoneLost(tasks, c);
    assert ReceivedAmong(tasks, {}, c) == {} && UnfinishedAmong(tasks, {}, c) == {};
    hide ReceivedAmong, UnfinishedAmong;
    n := Tally(0, 0, false);
    ghost var seen: set<TaskId> := {};
    var todo := ids;
    while todo != {}
      invariant seen !! todo && seen + todo == ids
      invariant n.received == |ReceivedAmong(tasks, seen, c)| && n.unfinished == |UnfinishedAmong(tasks, seen, c)|
      invariant n.lost <==> LostAmong(tasks, seen, c)
      decreases todo
    {
      var id :| id in todo;
      var task := tasks[id];
      ReceivedOneMore(tasks, seen, c, id);
      UnfinishedOneMore(tasks, seen, c, id);
      LostOneMore(tasks, seen, c, id);
      if task.capability == c {
        if task.status.SignalReceived? {
          n := n.(received := n.received + 1);
        } else if Lost(task.status) {
          n := n.(lost := true);
        } else {
          n := n.(unfinished := n.unfinished + 1);
        }
      }
      todo := todo - {id};
      seen := seen + {id};
    }
    assert seen == ids;
  }

  lemma NoneLost(tasks: map<TaskId, Task>, c: Capability)
    ensures !LostAmong(tasks, {}, c)
  {
  }

  /** What the loop over the requirements finds out about the first of them. */
  ghost predicate Surveyed(tasks: map<TaskId, Task>, r: RunId, qs: seq<Requirement>, missing: seq<Capability>,
                           impossible: bool, criticalFailure: bool) {
    && missing == ShortCapabilities(tasks, r, qs)
    && (impossible <==> exists i :: 0 <= i < |qs| && Hopeless(tasks, r, qs[i]))
    && (criticalFailure <==> exists i :: 0 <= i < |qs| && CriticalLoss(tasks, r, qs[i]))
  }

  lemma SurveyOneMore(tasks: map<TaskId, Task>, r: RunId, qs: seq<Requirement>, n: nat, missing: seq<Capability>,
                      impossible: bool, criticalFailure: bool)
    requires n < |qs| && Surveyed(tasks, r, qs[..n], missing, impossible, criticalFailure)
    ensures Surveyed(tasks, r, qs[..n + 1],
              missing + (if Short(tasks, r, qs[n]) then [qs[n].capability] else []),
              impossible || Hopeless(tasks, r, qs[n]),
              criticalFailure || CriticalLoss(tasks, r, qs[n]))
  {
    var more := qs[..n + 1];
    assert more[..n] == qs[..n] && more[n] == qs[n];
    hide Short, Hopeless, CriticalLoss;
    assert forall i :: 0 <= i < n ==> more[i] == qs[..n][i];
  }

  class CompletenessEvaluator {
    const db: Database

    constructor (db: Database)
      ensures this.db == db
    {
      this.db := db;
    }

    /** Judges one requirement. */
    method Judge(r: RunId, ids: set<TaskId>, q: Requirement) returns (short: bool, impossible: bool, failed: bool)
      requires ids == TasksOf(db.tasks, r)
      ensures short == Short(db.tasks, r, q)
      ensures impossible == Hopeless(db.tasks, r, q)
      ensures failed == CriticalLoss(db.tasks, r, q)
    {
      var n := CountCapability(db.tasks, ids, q.capability);
      assert Received(db.tasks, r, q.capability) == ReceivedAmong(db.tasks, ids, q.capability);
      assert Unfinished(db.tasks, r, q.capability) == UnfinishedAmong(db.tasks, ids, q.capability);
      assert n.lost <==> exists id :: id in CapTasks(db.tasks, r, q.capability) && Lost(db.tasks[id].status);
      short := q.required && n.received < q.minimum;
      impossible := short && n.received + n.unfinished < q.minimum;
      failed := q.critical && n.lost;
    }

    /** Reads the tasks of a run and writes a verdict when they allow one. */
    method Evaluate(now: Time, r: RunId) returns (res: Result<Completeness, LookupError>)
      modifies db
      ensures r !in old(db.runs) ==> res == Err(RunNotFound) && db.View() == old(db.View())
      ensures r in old(db.runs) ==>
                && res == Ok(Report(old(db.View()), r, now))
                && db.View() == Evaluated(old(db.View()), r, now)
    {
      if r !in db.runs {
        return Err(RunNotFound);
      }
      var run := db.runs[r];
      var ids := set id | id in db.tasks && db.tasks[id].runId == r;
      var done := set id | id in ids && db.tasks[id].status.SignalReceived?;
      assert ids == TasksOf(db.tasks, r);
      assert done == set id | id in TasksOf(db.tasks, r) && db.tasks[id].status.SignalReceived?;
      if Settled(run.status) {
        return Ok(Completeness(run.status, run.outcome, run.completedAt.Some?, |done|, |ids|, run.missingRequired));
      }
      hide Decide, ShortCapabilities;
      var verdict, missing := Decision(now, r, ids);
      if verdict.None? {
        return Ok(Completeness(run.status, run.outcome, false, |done|, |ids|, missing));
      }
      var status, outcome := StatusOf(verdict.value), Some(OutcomeOf(verdict.value));
      db.runs := db.runs[r := run.(status := status, outcome := outcome, completedAt := Some(now))];
      res := Ok(Completeness(status, outcome, true, |done|, |ids|, missing));
    }

    /** The branches that choose the verdict. */
    method Decision(now: Time, r: RunId, ids: set<TaskId>) returns (verdict: Option<Verdict>, missing: seq<Capability>)
      requires r in db.runs && ids == TasksOf(db.tasks, r)
      ensures verdict == Decide(db.tasks, r, db.runs[r], now)
      ensures missing == ShortCapabilities(db.tasks, r, db.runs[r].policy.requirements)
    {
      var run := db.runs[r];
      var impossible, criticalFailure;
      missing, impossible, criticalFailure := Survey(r, ids, run.policy.requirements);
      var deadlineReached := now >= run.collectionDeadline;
      var allTerminal := forall id :: id in ids ==> Terminal(db.tasks[id].status);
      var allReceived := forall id :: id in ids ==> db.tasks[id].status.SignalReceived?;
      ShortCapabilitiesNonEmpty(db.tasks, r, run.policy.requirements);
      hide Short, Hopeless, CriticalLoss, ShortCapabilities;
      if missing != [] && (impossible || deadlineReached || allTerminal) {
        verdict := Some(Critical);
      } else if criticalFailure {
        verdict := Some(Critical);
      } else if allReceived && run.missingOptional == [] {
        verdict := Some(Full);
      } else if allTerminal || deadlineReached {
        verdict := Some(Degraded);
      } else {
        verdict := None;
      }
    }

    /** The loop over the requirements of the policy. */
    method Survey(r: RunId, ids: set<TaskId>, qs: seq<Requirement>)
      returns (missing: seq<Capability>, impossible: bool, criticalFailure: bool)
      requires ids == TasksOf(db.tasks, r)
      ensures Surveyed(db.tasks, r, qs, missing, impossible, criticalFailure)
    {
      missing, impossible, criticalFailure := [], false, false;
      for i := 0 to |qs|
        invariant Surveyed(db.tasks, r, qs[..i], missing, impossible, criticalFailure)
      {
        var short, hopeless, failed := Judge(r, ids, qs[i]);
        SurveyOneMore(db.tasks, r, qs, i, missing, impossible, criticalFailure);
        hide Surveyed;
        if short {
          missing := missing + [qs[i].capability];
          if hopeless {
            impossible := true;
          }
        }
        if failed {
          criticalFailure := true;
        }
        assert missing + [] == missing;
      }
      assert qs[..|qs|] == qs;
    }
  }
}
