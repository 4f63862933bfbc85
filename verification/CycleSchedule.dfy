/** A cycle of the service is a segment of the protocol that follows the schedule of one worker. */
module CycleSchedules {
  import opened Rows
  import opened Dispatch
  import opened Recovery
  import opened Quorum
  import opened Protocol
  import opened Store
  import opened DispatchWorkers
  import opened RecoveryServices
  import opened OrchestratorServices
  import opened Finality

  /** `b` goes from `b[0]` through `steps`, on the schedule of worker `w`. */
  ghost predicate Segment(cfg: Settings, w: WorkerId, b: seq<System>, steps: seq<Step>) {
    && |b| == |steps| + 1
    && (forall i :: 0 <= i < |steps| ==> Enabled(cfg, b[i], steps[i]) && b[i + 1] == Apply(cfg, b[i], steps[i]))
    && OneWorkerSchedule(b, steps, w)
  }

  ghost predicate Leads(cfg: Settings, w: WorkerId, b: seq<System>, steps: seq<Step>, s: System, s': System) {
    Segment(cfg, w, b, steps) && b[0] == s && b[|b| - 1] == s'
  }

  /** Some segment leads from `s` to `s'`. */
  ghost predicate Follows(cfg: Settings, w: WorkerId, s: System, s': System) {
    exists b, steps :: Leads(cfg, w, b, steps, s, s')
  }

  lemma NoStep(cfg: Settings, w: WorkerId, s: System)
    ensures Follows(cfg, w, s, s)
  {
    assert Leads(cfg, w, [s], [], s, s);
  }

  /** A step that the schedule allows. */
  ghost predicate OnSchedule(s: System, step: Step, w: WorkerId) {
    (step.Claim? ==> step.w == w) && (step.Evaluate? ==> Batch(s, w) == [])
  }

  lemma OneMoreStep(cfg: Settings, w: WorkerId, s: System, s1: System, step: Step)
    requires Follows(cfg, w, s, s1) && Enabled(cfg, s1, step) && OnSchedule(s1, step, w)
    ensures Follows(cfg, w, s, Apply(cfg, s1, step))
  {
    hide Enabled, Apply;
    var b, steps :| Leads(cfg, w, b, steps, s, s1);
    var b', steps' := b + [Apply(cfg, s1, step)], steps + [step];
    forall i | 0 <= i < |steps'|
      ensures Enabled(cfg, b'[i], steps'[i]) && b'[i + 1] == Apply(cfg, b'[i], steps'[i]) && OnSchedule(b'[i], steps'[i], w)
    {
      if i < |steps| {
        assert b'[i] == b[i] && b'[i + 1] == b[i + 1] && steps'[i] == steps[i];
      }
    }
    assert Leads(cfg, w, b', steps', s, Apply(cfg, s1, step));
  }

  lemma Wait(cfg: Settings, w: WorkerId, s: System, s1: System, until: Time)
    requires Follows(cfg, w, s, s1) && s1.now <= until
    ensures Follows(cfg, w, s, s1.(now := until))
  {
    hide Follows;
    var dt: nat := until - s1.now;
    assert Enabled(cfg, s1, Tick(dt)) && Apply(cfg, s1, Tick(dt)) == s1.(now := until);
    OneMoreStep(cfg, w, s, s1, Tick(dt));
  }

  /** The service has reached these tables at this time, with these commands still to be worked off. */
  ghost predicate At(s: System, now: Time, db: Db, w: WorkerId, batch: seq<Command>) {
    s.now == now && s.db == db && Batch(s, w) == batch
  }

  lemma ExpireStep(cfg: Settings, w: WorkerId, s: System, s1: System) returns (s2: System)
    requires Follows(cfg, w, s, s1)
    ensures Follows(cfg, w, s, s2) && At(s2, s1.now, Expired(s1.db, s1.now, {}), w, Batch(s1, w))
  {
    hide Follows;
    assert Enabled(cfg, s1, Expire({}));
    OneMoreStep(cfg, w, s, s1, Expire({}));
    s2 := Apply(cfg, s1, Expire({}));
  }

  lemma ClaimStep(cfg: Settings, w: WorkerId, s: System, s1: System, endpoints: set<AgentId>, rows: seq<TaskId>) returns (s2: System)
    requires Follows(cfg, w, s, s1) && Batch(s1, w) == []
    requires IsFirst(ClaimKeys(s1.db.tasks, s1.now, {}), cfg.batchSize, rows)
    ensures Elems(rows) <= s1.db.tasks.Keys && forall i :: 0 <= i < |rows| ==> rows[i] in s1.db.tasks
    ensures Follows(cfg, w, s, s2)
    ensures At(s2, s1.now, Claimed(cfg, s1.db, w, endpoints, s1.now, Elems(rows)), w, Commands(cfg, s1.db, endpoints, s1.now, rows))
  {
    hide Follows, IsFirst, Claimed, Commands, ClaimKeys;
    SelectedTasks(s1.db.tasks, s1.now, {}, cfg.batchSize, rows);
    var step := Claim(w, endpoints, rows, {});
    assert Enabled(cfg, s1, step);
    OneMoreStep(cfg, w, s, s1, step);
    s2 := Apply(cfg, s1, step);
  }

  lemma RecordStep(cfg: Settings, w: WorkerId, s: System, s1: System, res: DispatchResult) returns (s2: System)
    requires Follows(cfg, w, s, s1) && Batch(s1, w) != []
    ensures Follows(cfg, w, s, s2)
    ensures At(s2, s1.now, Recorded(cfg, s1.db, w, s1.now, Batch(s1, w)[0], res), w, Batch(s1, w)[1..])
  {
    hide Follows, TaskAfterResult, AgentAfterResult, CanRetry;
    assert Enabled(cfg, s1, Record(w, res));
    OneMoreStep(cfg, w, s, s1, Record(w, res));
    s2 := Apply(cfg, s1, Record(w, res));
  }

  lemma RecoverStep(cfg: Settings, w: WorkerId, s: System, s1: System, rows: seq<RunId>, limit: nat) returns (s2: System)
    requires Follows(cfg, w, s, s1) && IsFirst(RecoveryKeys(s1.db.runs, {}), limit, rows)
    ensures Follows(cfg, w, s, s2) && At(s2, s1.now, Reconciled(s1.db, s1.now, Elems(rows)), w, Batch(s1, w))
  {
    hide Follows, IsFirst, Reconciled;
    assert Enabled(cfg, s1, Reconcile(rows, {}, limit));
    OneMoreStep(cfg, w, s, s1, Reconcile(rows, {}, limit));
    s2 := Apply(cfg, s1, Reconcile(rows, {}, limit));
  }

  lemma EvaluateStep(cfg: Settings, w: WorkerId, s: System, s1: System, r: RunId) returns (s2: System)
    requires Follows(cfg, w, s, s1) && Batch(s1, w) == [] && r in s1.db.runs
    ensures Follows(cfg, w, s, s2) && At(s2, s1.now, Evaluated(s1.db, r, s1.now), w, [])
  {
    hide Follows, Written;
    assert Enabled(cfg, s1, Evaluate(r));
    OneMoreStep(cfg, w, s, s1, Evaluate(r));
    s2 := Apply(cfg, s1, Evaluate(r));
  }

  /** Working off the first `n` commands, one recorded result after the other. */
  lemma {:induction false} RecordSteps(cfg: Settings, w: WorkerId, s: System, s1: System, results: (TaskId, nat) -> DispatchResult,
                                       commands: seq<Command>, times: seq<Time>, n: nat, end: Time) returns (s2: System)
    requires Follows(cfg, w, s, s1) && Batch(s1, w) == commands && |times| == |commands| && n <= |commands|
    requires Readings(s1.now, times, end)
    ensures Follows(cfg, w, s, s2) && s2.now <= end
    ensures s2.now == if n == 0 then s1.now else times[n - 1]
    ensures s2.db == RecordedAll(cfg, w, results, s1.db, commands[..n], times[..n]) && Batch(s2, w) == commands[n..]
  {
    hide Follows, Recorded;
    if n == 0 {
      s2 := s1;
    } else {
      var s3 := RecordSteps(cfg, w, s, s1, results, commands, times, n - 1, end);
      Wait(cfg, w, s, s3, times[n - 1]);
      s2 := RecordStep(cfg, w, s, s3.(now := times[n - 1]), results(commands[n - 1].taskId, commands[n - 1].attempt));
      assert commands[..n][..n - 1] == commands[..n - 1] && times[..n][..n - 1] == times[..n - 1];
      assert commands[n - 1..][1..] == commands[n..];
    }
  }

  /** Evaluating the first `n` of the selected runs. */
  lemma {:induction false} EvaluateSteps(cfg: Settings, w: WorkerId, s: System, s1: System, rows: seq<RunId>, times: seq<Time>, n: nat, end: Time)
    returns (s2: System)
    requires Follows(cfg, w, s, s1) && Batch(s1, w) == [] && |times| == |rows| && n <= |rows|
    requires Readings(s1.now, times, end) && forall i :: 0 <= i < |rows| ==> rows[i] in s1.db.runs
    ensures Follows(cfg, w, s, s2) && s2.now <= end
    ensures s2.now == if n == 0 then s1.now else times[n - 1]
    ensures s2.db == EvaluatedAll(s1.db, rows[..n], times[..n]) && Batch(s2, w) == []
  {
    hide Follows, Evaluated;
    if n == 0 {
      s2 := s1;
    } else {
      var s3 := EvaluateSteps(cfg, w, s, s1, rows, times, n - 1, end);
      Wait(cfg, w, s, s3, times[n - 1]);
      s2 := EvaluateStep(cfg, w, s, s3.(now := times[n - 1]), rows[n - 1]);
      assert rows[..n][..n - 1] == rows[..n - 1] && times[..n][..n - 1] == times[..n - 1];
    }
  }

  /** The dispatching half of a cycle. */
  lemma DispatchSegment(t: Trace, results: (TaskId, nat) -> DispatchResult, s: System, end: Time) returns (s1: System)
    requires RecoveryFits(t, results) && InOrder(t, s.now, end) && s.db == t.found && Batch(s, t.worker) == []
    ensures Follows(t.cfg, t.worker, s, s1) && At(s1, t.repairedAt, AfterDispatch(t, results), t.worker, [])
  {
    hide Follows, Expired, Claimed, Commands, RecordedAll, IsFirst;
    var w := t.worker;
    NoStep(t.cfg, w, s);
    Wait(t.cfg, w, s, s, t.expiredAt);
    var s2 := ExpireStep(t.cfg, w, s, s.(now := t.expiredAt));
    Wait(t.cfg, w, s, s2, t.claimedAt);
    var s3 := ClaimStep(t.cfg, w, s, s2.(now := t.claimedAt), t.endpoints, t.claimed);
    var commands := Batch(s3, w);
    var s4 := RecordSteps(t.cfg, w, s, s3, results, commands, t.recordedAt, |commands|, t.repairedAt);
    assert commands[..|commands|] == commands && t.recordedAt[..|commands|] == t.recordedAt;
    Wait(t.cfg, w, s, s4, t.repairedAt);
    s1 := s4.(now := t.repairedAt);
  }

  /** A cycle is a sequence of protocol steps on the schedule of its worker: expire, claim, record each
      result, reconcile, evaluate each selected run, evaluate the run, with the clock in between. What is
      proved of every run of the protocol therefore holds of cycles, and after a cycle nothing of the
      worker is in flight. */
  lemma CycleIsASegment(t: Trace, results: (TaskId, nat) -> DispatchResult, s: System, end: Time) returns (s': System)
    requires RecoveryFits(t, results) && InOrder(t, s.now, end) && t.run in AfterRecovery(t, results).runs
    requires s.db == t.found && Batch(s, t.worker) == []
    ensures Follows(t.cfg, t.worker, s, s')
    ensures s'.db == AfterCycle(t, results) && s'.now == t.judgedAt && Batch(s', t.worker) == []
  {
    hide Follows, AfterDispatch, Reconciled, EvaluatedAll, Evaluated, IsFirst;
    var w := t.worker;
    var s1 := DispatchSegment(t, results, s, end);
    SelectedRuns(s1.db.runs, {}, t.batchSize, t.selected);
    RepairKeepsRuns(s1.db, s1.now, Elems(t.selected));
    var s2 := RecoverStep(t.cfg, w, s, s1, t.selected, t.batchSize);
    var s3 := EvaluateSteps(t.cfg, w, s, s2, t.selected, t.evaluatedAt, |t.selected|, t.judgedAt);
    assert t.selected[..|t.selected|] == t.selected && t.evaluatedAt[..|t.selected|] == t.evaluatedAt;
    Wait(t.cfg, w, s, s3, t.judgedAt);
    s' := EvaluateStep(t.cfg, w, s, s3.(now := t.judgedAt), t.run);
  }

  lemma Concatenation(cfg: Settings, w: WorkerId, b: seq<System>, steps: seq<Step>, c: seq<System>, more: seq<Step>)
    requires Segment(cfg, w, b, steps) && Segment(cfg, w, c, more) && b[|b| - 1] == c[0]
    ensures Segment(cfg, w, b + c[1..], steps + more)
  {
    hide Enabled, Apply;
    var d, all := b + c[1..], steps + more;
    forall i | 0 <= i < |all|
      ensures Enabled(cfg, d[i], all[i]) && d[i + 1] == Apply(cfg, d[i], all[i]) && OnSchedule(d[i], all[i], w)
    {
      if i < |steps| {
        assert d[i] == b[i] && d[i + 1] == b[i + 1] && all[i] == steps[i];
      } else {
        var j := i - |steps|;
        assert d[i] == c[j] && d[i + 1] == c[j + 1] && all[i] == more[j];
      }
    }
  }

  /** A run that is finished after some cycles of the only worker has the same status after more of them,
      with signals, planning and crashes in between. */
  lemma FinishedRunsSurviveCycles(cfg: Settings, w: WorkerId, s0: System, s: System, s': System, r: RunId)
    requires ValidSettings(cfg) && Init(s0) && Follows(cfg, w, s0, s) && Follows(cfg, w, s, s')
    requires r in s.db.runs && Settled(s.db.runs[r].status)
    ensures r in s'.db.runs && s'.db.runs[r].status == s.db.runs[r].status
  {
    hide Enabled, Apply, OneWorkerSchedule, Init;
    var b, steps :| Leads(cfg, w, b, steps, s0, s);
    var c, more :| Leads(cfg, w, c, more, s, s');
    Concatenation(cfg, w, b, steps, c, more);
    var d := b + c[1..];
    assert d[0] == b[0] && d[|b| - 1] == s && d[|d| - 1] == s';
    OneWorkerIsFinal(cfg, d, steps + more, w, |b| - 1, |d| - 1, r);
  }
}
