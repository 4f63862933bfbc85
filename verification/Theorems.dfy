/** What holds of every run of the protocol: any number of workers, any interleaving, any crash. */
module Theorems {
  import opened Rows
  import opened Dispatch
  import Ingestion
  import opened Quorum
  import opened Planner
  import opened Protocol
  import opened Agreement
  import opened Leases
  import opened Attempts
  import opened Circuits
  import opened Verdicts
  import opened Coverage

  ghost predicate Good(cfg: Settings, s: System) {
    Tables(s) && Leasing(s) && Counted(cfg, NO_BACKOFF, s) && CircuitsRefine(cfg, s) && Judged(s) && Covered(s)
  }

  lemma InitIsGood(cfg: Settings, s: System)
    requires Init(s)
    ensures Good(cfg, s)
  {
  }

  lemma StepKeepsGood(cfg: Settings, s: System, step: Step)
    requires ValidSettings(cfg) && Good(cfg, s) && Enabled(cfg, s, step)
    ensures Good(cfg, Apply(cfg, s, step))
  {
    hide Tables, Leasing, Counted, CircuitsRefine, Judged, Covered, Enabled, Apply;
    StepKeepsTables(cfg, s, step);
    StepKeepsLeasing(cfg, s, step);
    StepKeepsCounts(cfg, NO_BACKOFF, s, step);
    StepKeepsCircuits(cfg, s, step);
    StepKeepsJudged(cfg, s, step);
    StepKeepsCovered(cfg, s, step);
  }

  /** The invariant of the protocol. */
  lemma {:induction false} EveryStateIsGood(cfg: Settings, b: seq<System>, steps: seq<Step>, i: nat)
    requires ValidSettings(cfg) && Behaviour(cfg, b, steps) && i < |b|
    ensures Good(cfg, b[i])
  {
    hide Good, Apply, Enabled;
    if i == 0 {
      InitIsGood(cfg, b[0]);
    } else {
      EveryStateIsGood(cfg, b, steps, i - 1);
      StepKeepsGood(cfg, b[i - 1], steps[i - 1]);
    }
  }

  // ---------- what never changes again ----------

  /** Along a run nothing planned is forgotten, and an ended task keeps its row for ever. */
  lemma {:induction false} EndedTasksStay(cfg: Settings, b: seq<System>, steps: seq<Step>, i: nat, j: nat, id: TaskId)
    requires ValidSettings(cfg) && Behaviour(cfg, b, steps) && i <= j < |b|
    requires id in b[i].db.tasks && Terminal(b[i].db.tasks[id].status)
    ensures id in b[j].db.tasks && b[j].db.tasks[id] == b[i].db.tasks[id]
    decreases j
  {
    hide Good, Apply, Enabled;
    if i < j {
      EndedTasksStay(cfg, b, steps, i, j - 1, id);
      EveryStateIsGood(cfg, b, steps, j - 1);
      assert Tables(b[j - 1]) by { GoodTables(cfg, b[j - 1]); }
      StepEvolves(cfg, b[j - 1], steps[j - 1]);
    }
  }

  lemma GoodTables(cfg: Settings, s: System)
    requires Good(cfg, s)
    ensures Tables(s)
  {
  }

  // ---------- signals, tasks and nonces ----------

  /** A task is SIGNAL_RECEIVED exactly when one stored signal carries its id, and that signal is
      the task's: same agent, run, snapshot and asset, and earlier than the signal deadline. */
  lemma ReceivedIffOneSignal(cfg: Settings, b: seq<System>, steps: seq<Step>, i: nat, id: TaskId)
    requires ValidSettings(cfg) && Behaviour(cfg, b, steps) && i < |b| && id in b[i].db.tasks
    ensures var db := b[i].db;
            db.tasks[id].status.SignalReceived? <==>
            exists m ::
              && m in db.signals
              && db.signals[m].task == Some(TaskRef(id, db.tasks[id].runId))
              && db.signals[m].agentId == db.tasks[id].agentId
              && db.signals[m].snapshotId == db.tasks[id].snapshotId
              && db.signals[m].asset == db.tasks[id].asset
              && db.signals[m].receivedAt < db.tasks[id].signalDeadline
              && (forall m' :: m' in db.signals && db.signals[m'].task.Some? && db.signals[m'].task.value.taskId == id
                    ==> m' == m)
  {
    hide Behaviour, Shape, NoncesAgree, Leasing, Counted, CircuitsRefine, Judged, Covered;
    EveryStateIsGood(cfg, b, steps, i);
    if b[i].db.tasks[id].status.SignalReceived? {
      AnsweredOnce(b[i].db, id);
    }
  }

  lemma AnsweredOnce(db: Db, id: TaskId)
    requires SignalsAgree(db) && id in db.tasks && db.tasks[id].status.SignalReceived?
    ensures exists m ::
              && m in db.signals && SignalMatches(db, db.signals[m])
              && db.signals[m].task == Some(TaskRef(id, db.tasks[id].runId))
              && (forall m' :: m' in db.signals && db.signals[m'].task.Some? && db.signals[m'].task.value.taskId == id
                    ==> m' == m)
  {
    assert Ingestion.TaskAnswered(db.signals, id);
    var m :| m in db.signals && db.signals[m].task.Some? && db.signals[m].task.value.taskId == id;
    assert SignalMatches(db, db.signals[m]);
    forall m' | m' in db.signals && db.signals[m'].task.Some? && db.signals[m'].task.value.taskId == id ensures m' == m {
      assert SameTask(db.signals[m], db.signals[m']);
    }
  }

  /** Every accepted signal used up exactly one nonce of its agent, and no nonce was used otherwise. */
  lemma NoncesMatchSignals(cfg: Settings, b: seq<System>, steps: seq<Step>, i: nat)
    requires ValidSettings(cfg) && Behaviour(cfg, b, steps) && i < |b|
    ensures NoncesAgree(b[i].db, b[i].history.nonceOf)
    ensures |b[i].db.nonces| == |b[i].db.signals|
  {
    EveryStateIsGood(cfg, b, steps, i);
    BijectionSize(b[i].history.nonceOf, b[i].db.nonces);
    assert |b[i].history.nonceOf| == |b[i].history.nonceOf.Keys| && |b[i].db.signals| == |b[i].db.signals.Keys|;
  }

  lemma {:induction false} BijectionSize<K, V>(m: map<K, V>, vs: set<V>)
    requires forall k :: k in m ==> m[k] in vs
    requires forall k, k' :: k in m && k' in m && k != k' ==> m[k] != m[k']
    requires forall v :: v in vs ==> exists k :: k in m && m[k] == v
    ensures |m.Keys| == |vs|
    decreases |vs|
  {
    if vs == {} {
      assert m.Keys == {};
    } else {
      var v :| v in vs;
      var k :| k in m && m[k] == v;
      var m' := m - {k};
      forall v' | v' in vs - {v} ensures exists k' :: k' in m' && m'[k'] == v' {
        var k' :| k' in m && m[k'] == v';
        assert k' in m' && m'[k'] == v';
      }
      BijectionSize(m', vs - {v});
      assert m.Keys == m'.Keys + {k};
    }
  }

  // ---------- verdicts ----------

  /** The verdicts written for a run only grow at the end. */
  lemma {:induction false} VerdictsAreAppended(cfg: Settings, b: seq<System>, steps: seq<Step>, i: nat, j: nat, r: RunId)
    requires ValidSettings(cfg) && Behaviour(cfg, b, steps) && i <= j < |b| && r in b[i].db.runs
    ensures r in b[j].db.runs && VerdictsOf(b[i].history, r) <= VerdictsOf(b[j].history, r)
    decreases j
  {
    hide Good, RowsEvolve;
    if i < j {
      VerdictsAreAppended(cfg, b, steps, i, j - 1, r);
      OneStepAppends(cfg, b[j - 1], steps[j - 1], r);
    }
  }

  lemma OneStepAppends(cfg: Settings, s: System, step: Step, r: RunId)
    requires Enabled(cfg, s, step) && r in s.db.runs
    ensures r in Apply(cfg, s, step).db.runs
    ensures VerdictsOf(s.history, r) <= VerdictsOf(Apply(cfg, s, step).history, r)
  {
    hide IsFirst, Decide, Ingestion.Fault, IsRoute, ValidPolicy;
  }

  /** Verdicts never improve: FULL stays FULL, CRITICAL stays CRITICAL and DEGRADED can only become
      CRITICAL, although an acknowledgement can set a finished run back to collecting. */
  lemma VerdictsNeverImprove(cfg: Settings, b: seq<System>, steps: seq<Step>, i: nat, j: nat, r: RunId, v: Verdict, v': Verdict)
    requires ValidSettings(cfg) && Behaviour(cfg, b, steps) && i <= j < |b|
    requires r in b[i].db.runs && b[i].db.runs[r].outcome == Some(OutcomeOf(v))
    requires r in b[j].db.runs && b[j].db.runs[r].outcome == Some(OutcomeOf(v'))
    ensures MayFollow(v, v')
  {
    hide Behaviour, Tables, Leasing, Counted, CircuitsRefine, Covered, Locked;
    EveryStateIsGood(cfg, b, steps, i);
    EveryStateIsGood(cfg, b, steps, j);
    VerdictsAreAppended(cfg, b, steps, i, j, r);
    assert RunJudged(b[i], r) && RunJudged(b[j], r);
    var vs, vs' := VerdictsOf(b[i].history, r), VerdictsOf(b[j].history, r);
    assert vs'[|vs| - 1] == vs[|vs| - 1] == v && vs'[|vs'| - 1] == v';
  }

  /** Once a run has an outcome it always has one. */
  lemma OutcomesStay(cfg: Settings, b: seq<System>, steps: seq<Step>, i: nat, j: nat, r: RunId)
    requires ValidSettings(cfg) && Behaviour(cfg, b, steps) && i <= j < |b|
    requires r in b[i].db.runs && b[i].db.runs[r].outcome.Some?
    ensures r in b[j].db.runs && b[j].db.runs[r].outcome.Some?
  {
    hide Behaviour, Tables, Leasing, Counted, CircuitsRefine, Covered, Locked;
    EveryStateIsGood(cfg, b, steps, i);
    EveryStateIsGood(cfg, b, steps, j);
    VerdictsAreAppended(cfg, b, steps, i, j, r);
    assert RunJudged(b[i], r) && RunJudged(b[j], r);
  }

  /** Quorum soundness: FULL and DEGRADED runs hold, for every required capability, at least the
      minimum number of stored signals of distinct agents; FULL runs hold it for every capability. */
  lemma QuorumIsSound(cfg: Settings, b: seq<System>, steps: seq<Step>, i: nat, r: RunId, q: Requirement)
    requires ValidSettings(cfg) && Behaviour(cfg, b, steps) && i < |b|
    requires r in b[i].db.runs && q in b[i].db.runs[r].policy.requirements
    requires || b[i].db.runs[r].outcome == Some(OutcomeFull)
             || (b[i].db.runs[r].outcome == Some(OutcomeDegraded) && q.required)
    ensures q.minimum <= |SignalAgents(b[i].db, r, q.capability)|
  {
    EveryStateIsGood(cfg, b, steps, i);
    hide Behaviour, Tables, Judged, Covered;
    OutcomeMeansSignals(b[i], r, q);
  }

  // ---------- leases and attempts ----------

  /** At most one command of a task has an unexpired lease, and no two were sent by one attempt. */
  lemma OneLiveCommand(
    cfg: Settings, b: seq<System>, steps: seq<Step>, i: nat, w: WorkerId, k: nat, w': WorkerId, k': nat)
    requires ValidSettings(cfg) && Behaviour(cfg, b, steps) && i < |b|
    requires k < |Batch(b[i], w)| && k' < |Batch(b[i], w')| && (w, k) != (w', k')
    requires Batch(b[i], w)[k].taskId == Batch(b[i], w')[k'].taskId
    ensures !(Live(Batch(b[i], w)[k], b[i].now) && Live(Batch(b[i], w')[k'], b[i].now))
    ensures Batch(b[i], w)[k].attempt != Batch(b[i], w')[k'].attempt
  {
    hide Behaviour, Tables, Counted, CircuitsRefine, Judged, Covered, CommandsFit, LeasesHeld;
    EveryStateIsGood(cfg, b, steps, i);
    var s := b[i];
    assert w != w';
    assert Apart(s.now, s.inflight[w][k], s.inflight[w'][k']);
  }

  /** Results are fenced: recording a result changes the database only if the task is still on the
      very attempt that sent the command, under the lease of that attempt. */
  lemma ResultsAreFenced(cfg: Settings, b: seq<System>, steps: seq<Step>, i: nat)
    requires ValidSettings(cfg) && Behaviour(cfg, b, steps) && i < |steps| && steps[i].Record?
    ensures Batch(b[i], steps[i].w) != []
    ensures var c := Batch(b[i], steps[i].w)[0];
            && c.taskId in b[i].db.tasks
            && (OnAttempt(b[i].db.tasks[c.taskId], steps[i].w, c) <==> ResultApplies(b[i].db, steps[i].w, c))
            && (!OnAttempt(b[i].db.tasks[c.taskId], steps[i].w, c) ==> b[i + 1].db == b[i].db)
            && (OnAttempt(b[i].db.tasks[c.taskId], steps[i].w, c) ==>
                  !b[i + 1].db.tasks[c.taskId].status.Dispatching? && b[i + 1].db.tasks[c.taskId].attempts == c.attempt)
            && (forall id :: id in b[i].db.tasks && id != c.taskId ==> b[i + 1].db.tasks[id] == b[i].db.tasks[id])
  {
    hide Good, Enabled, Apply;
    EveryStateIsGood(cfg, b, steps, i);
    OneResultIsFenced(cfg, b[i], steps[i]);
  }

  lemma OneResultIsFenced(cfg: Settings, s: System, step: Step)
    requires Good(cfg, s) && Enabled(cfg, s, step) && step.Record?
    ensures Batch(s, step.w) != []
    ensures var c, s' := Batch(s, step.w)[0], Apply(cfg, s, step);
            && c.taskId in s.db.tasks
            && (OnAttempt(s.db.tasks[c.taskId], step.w, c) <==> ResultApplies(s.db, step.w, c))
            && (!OnAttempt(s.db.tasks[c.taskId], step.w, c) ==> s'.db == s.db)
            && s'.db.tasks.Keys == s.db.tasks.Keys
            && (OnAttempt(s.db.tasks[c.taskId], step.w, c) ==>
                  !s'.db.tasks[c.taskId].status.Dispatching? && s'.db.tasks[c.taskId].attempts == c.attempt)
            && (forall id :: id in s.db.tasks && id != c.taskId ==> s'.db.tasks[id] == s.db.tasks[id])
  {
    hide Good, RetryAt, AgentAfterResult, CanRetry;
    GoodLeasing(cfg, s);
    GoodTables(cfg, s);
    var c := s.inflight[step.w][0];
    assert CommandFits(s, step.w, c);
    assert TaskShape(s.db, s.db.tasks[c.taskId]);
    assert Apply(cfg, s, step) == DoRecord(cfg, s, step.w, step.res);
    hide CommandsFit, Tables, TaskShape;
  }

  lemma GoodLeasing(cfg: Settings, s: System)
    requires Good(cfg, s)
    ensures CommandsFit(s)
  {
  }

  /** The attempts of a task: results schedule at most maxAttempts - 1 retries, and every attempt
      above the maximum had to outwait the lease of the one before. */
  lemma AttemptsAreBounded(cfg: Settings, b: seq<System>, steps: seq<Step>, i: nat, id: TaskId)
    requires ValidSettings(cfg) && Behaviour(cfg, b, steps) && i < |b| && id in b[i].db.tasks
    ensures var t := b[i].db.tasks[id];
            && RetriesOf(b[i].history, id) <= cfg.maxAttempts - 1
            && (t.attempts > cfg.maxAttempts ==>
                  (t.attempts - cfg.maxAttempts) * cfg.lease < t.dispatchDeadline - t.createdAt)
  {
    hide Behaviour, Tables, Leasing, CircuitsRefine, Judged, Covered;
    EveryStateIsGood(cfg, b, steps, i);
    assert TaskCounted(cfg, NO_BACKOFF, b[i], id);
    StartedInTime(cfg, b[i], id);
  }

  lemma StartedInTime(cfg: Settings, s: System, id: TaskId)
    requires ValidSettings(cfg) && id in s.db.tasks && TaskCounted(cfg, NO_BACKOFF, s, id)
    ensures var t := s.db.tasks[id];
            && RetriesOf(s.history, id) <= cfg.maxAttempts - 1
            && (t.attempts > cfg.maxAttempts ==> (t.attempts - cfg.maxAttempts) * cfg.lease < t.dispatchDeadline - t.createdAt)
  {
    hide StartOf, EarliestStart;
    var t := s.db.tasks[id];
    if t.attempts > cfg.maxAttempts {
      EarliestStartAbove(cfg, NO_BACKOFF, t.attempts);
      EarliestStartNonNegative(cfg, NO_BACKOFF, cfg.maxAttempts);
    }
  }

  // ---------- circuits ----------

  /** The circuit of every agent is the one its results call for, in every state; and a claim that
      dispatches to an agent with too many failures in a row comes after the cooldown. */
  lemma CircuitsFollowResults(cfg: Settings, b: seq<System>, steps: seq<Step>, i: nat, a: AgentId)
    requires ValidSettings(cfg) && Behaviour(cfg, b, steps) && i < |b|
    ensures a in b[i].db.agents ==>
              && b[i].db.agents[a].failures == TrailingFailures(ResultsOf(b[i].history, a))
              && (b[i].db.agents[a].circuit.Closed? <==> TrailingFailures(ResultsOf(b[i].history, a)) < cfg.threshold)
    ensures i < |steps| && steps[i].Claim? && TrailingFailures(ResultsOf(b[i].history, a)) >= cfg.threshold ==>
              forall c :: c in Batch(b[i + 1], steps[i].w) && c.agentId == a ==>
                var rs := ResultsOf(b[i].history, a);
                rs != [] && rs[|rs| - 1].at + cfg.openFor <= b[i].now
  {
    EveryStateIsGood(cfg, b, steps, i);
    if i < |steps| && steps[i].Claim? && TrailingFailures(ResultsOf(b[i].history, a)) >= cfg.threshold {
      var step := steps[i];
      ClaimSends(cfg, b[i], step.w, step.endpoints, step.rows, step.locked);
      assert b[i + 1] == DoClaim(cfg, b[i], step.w, step.endpoints, step.rows);
      hide Behaviour, Tables, Leasing, Counted, Judged, Covered, Enabled, Apply, ClaimOutcomeOf, CircuitRefines;
      forall c | c in Batch(b[i + 1], step.w) && c.agentId == a
        ensures var rs := ResultsOf(b[i].history, a); rs != [] && rs[|rs| - 1].at + cfg.openFor <= b[i].now
      {
        DispatchRespectsCooldown(cfg, b[i], step.endpoints, b[i].db.tasks[c.taskId]);
      }
    }
  }
}
