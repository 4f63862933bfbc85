/** Exactly how many attempts the settings allow. A claim never looks at the maximum. */
module AttemptLimits {
  import opened Rows
  import opened Dispatch
  import opened Recovery
  import opened Protocol
  import opened Agreement
  import opened Leases
  import opened Attempts
  import opened Theorems
  import opened Scenarios

  // ---------- one step ----------

  /** A step takes a task above the maximum if and only if it is a claim that starts one more attempt of
      a task that already used up the maximum. */
  lemma ExceededIffClaimed(cfg: Settings, s: System, step: Step, id: TaskId)
    requires Good(cfg, s) && Enabled(cfg, s, step)
    requires id in s.db.tasks && s.db.tasks[id].attempts <= cfg.maxAttempts
    ensures id in Apply(cfg, s, step).db.tasks
    ensures Apply(cfg, s, step).db.tasks[id].attempts > cfg.maxAttempts <==>
              && step.Claim? && id in step.rows
              && s.db.tasks[id].attempts == cfg.maxAttempts
              && ClaimOutcomeOf(s.db, step.endpoints, s.now, s.db.tasks[id]).Started?
  {
    hide Good, Tables, Passive, Enabled, Apply, ClaimOutcomeOf;
    GoodTables(cfg, s);
    if step.Claim? {
      ClaimExceeds(cfg, s, step, id);
    } else if step.Record? {
      RecordKeepsAttempts(cfg, s, step, id);
    } else {
      OtherStepsArePassive(cfg, s, step);
      PassiveKeepsAttempts(s, Apply(cfg, s, step), id);
    }
  }

  lemma ClaimExceeds(cfg: Settings, s: System, step: Step, id: TaskId)
    requires step.Claim? && Enabled(cfg, s, step) && id in s.db.tasks
    ensures id in Apply(cfg, s, step).db.tasks
    ensures Apply(cfg, s, step).db.tasks[id].attempts == s.db.tasks[id].attempts +
            (if id in step.rows && ClaimOutcomeOf(s.db, step.endpoints, s.now, s.db.tasks[id]).Started? then 1 else 0)
  {
    hide ClaimOutcomeOf, ClaimedAgent, Commands, Claimable, KeyLess;
  }

  lemma RecordKeepsAttempts(cfg: Settings, s: System, step: Step, id: TaskId)
    requires step.Record? && Enabled(cfg, s, step) && id in s.db.tasks
    ensures id in Apply(cfg, s, step).db.tasks && Apply(cfg, s, step).db.tasks[id].attempts == s.db.tasks[id].attempts
  {
    hide AgentAfterResult, RetryAt, CanRetry;
  }

  lemma PassiveKeepsAttempts(s: System, s': System, id: TaskId)
    requires Passive(s, s') && id in s.db.tasks
    ensures id in s'.db.tasks && s'.db.tasks[id].attempts == s.db.tasks[id].attempts
  {
    assert PassiveTask(s.now, s.db.tasks[id], s'.db.tasks[id]);
  }

  // ---------- an upper bound for every run ----------

  lemma {:induction false} EveryStateIsCounted(cfg: Settings, backoff: Backoff, b: seq<System>, steps: seq<Step>, i: nat)
    requires ValidSettings(cfg) && Behaviour(cfg, b, steps) && Patient(b, steps, backoff) && i < |b|
    ensures Counted(cfg, backoff, b[i])
  {
    hide Good, Apply, Enabled, StepIsPatient, Counted;
    if i == 0 {
      NothingCounted(cfg, backoff, b[0]);
    } else {
      EveryStateIsCounted(cfg, backoff, b, steps, i - 1);
      EveryStateIsGood(cfg, b, steps, i - 1);
      GoodTables(cfg, b[i - 1]);
      StepKeepsCounts(cfg, backoff, b[i - 1], steps[i - 1]);
    }
  }

  lemma NothingCounted(cfg: Settings, backoff: Backoff, s: System)
    requires Init(s)
    ensures Counted(cfg, backoff, s)
  {
  }

  lemma {:induction false} LaterAttemptsStartLater(cfg: Settings, backoff: Backoff, n: nat, m: nat)
    requires ValidSettings(cfg) && n <= m
    ensures EarliestStart(cfg, backoff, n) <= EarliestStart(cfg, backoff, m)
    decreases m
  {
    if n < m {
      LaterAttemptsStartLater(cfg, backoff, n, m - 1);
    }
  }

  /** A task with the given window between planning and dispatch deadline is on attempt `n` or a later one. */
  ghost predicate Attempted(s: System, id: TaskId, window: int, n: nat) {
    id in s.db.tasks && s.db.tasks[id].attempts >= n
    && s.db.tasks[id].dispatchDeadline - s.db.tasks[id].createdAt == window
  }

  lemma AttemptsTakeTime(cfg: Settings, backoff: Backoff, b: seq<System>, steps: seq<Step>, i: nat, id: TaskId, window: int, n: nat)
    requires ValidSettings(cfg) && Behaviour(cfg, b, steps) && Patient(b, steps, backoff) && i < |b|
    requires 1 <= n && Attempted(b[i], id, window, n)
    ensures EarliestStart(cfg, backoff, n) < window
  {
    EveryStateIsCounted(cfg, backoff, b, steps, i);
    hide Behaviour, Patient, EarliestStart, Gap;
    assert TaskCounted(cfg, backoff, b[i], id);
    LaterAttemptsStartLater(cfg, backoff, n, b[i].db.tasks[id].attempts);
  }

  // ---------- and a run that reaches it ----------

  /** Worker 1 has just started attempt `n` of task 0, as early as possible. */
  ghost predicate JustStarted(cfg: Settings, backoff: Backoff, s: System, window: int, n: nat) {
    && s.now == EarliestStart(cfg, backoff, n)
    && 0 in s.db.runs && s.db.runs[0].status in {RunDispatching, RunCollecting}
    && 0 in s.db.tasks
    && (var t := s.db.tasks[0];
        && t.runId == 0 && t.agentId == AGENT
        && t.createdAt == 0 && t.dispatchDeadline == window
        && t.status.Dispatching? && t.attempts == n
        && t.leaseOwner == Some(1) && t.leaseUntil == Some(s.now + cfg.lease)
        && Batch(s, 1) == [Command(0, 0, AGENT, n, s.now + cfg.lease)])
    && AGENT in s.db.agents && !s.db.agents[AGENT].circuit.Open?
    && (cfg.threshold > 1 ==> s.db.agents[AGENT].failures == 0)
  }

  /** Task 0 waits for its next attempt: the gap is over and nothing is in flight. */
  ghost predicate Waiting(cfg: Settings, s: System, now: Time, window: int, n: nat) {
    && s.now == now && now < window
    && 0 in s.db.runs && s.db.runs[0].status in {RunDispatching, RunCollecting}
    && 0 in s.db.tasks
    && (var t := s.db.tasks[0];
        && t.runId == 0 && t.agentId == AGENT
        && t.createdAt == 0 && t.dispatchDeadline == window
        && (t.status.Pending? || t.status.Retry?) && t.dispatchAfter <= now && t.attempts == n)
    && Batch(s, 1) == []
    && !CoolingDown(StateOf(s.db.agents, AGENT), now)
    && (cfg.threshold > 1 ==> !StateOf(s.db.agents, AGENT).circuit.Open? && StateOf(s.db.agents, AGENT).failures == 0)
  }

  lemma StartNow(cfg: Settings, backoff: Backoff, s: System, window: int, n: nat) returns (s': System)
    requires ValidSettings(cfg) && Reachable(cfg, backoff, s)
    requires Waiting(cfg, s, EarliestStart(cfg, backoff, n + 1), window, n)
    ensures Reachable(cfg, backoff, s') && JustStarted(cfg, backoff, s', window, n + 1)
  {
    hide Reachable, Apply, Enabled, EarliestStart;
    ClaimOneTask(cfg, s, 1, 0);
    StepIsReachable(cfg, backoff, s, ClaimOne(s, 1, 0));
    s' := Apply(cfg, s, ClaimOne(s, 1, 0));
  }

  /** The signals of a reachable state complete no task, so a repair of an expired lease retries it. */
  lemma RepairRetries(cfg: Settings, backoff: Backoff, s: System)
    requires ValidSettings(cfg) && Reachable(cfg, backoff, s)
    requires 0 in s.db.tasks && s.db.tasks[0].status.Dispatching? && s.db.tasks[0].runId == 0
    requires s.db.tasks[0].leaseUntil == Some(s.now) && s.now < s.db.tasks[0].dispatchDeadline
    ensures RepairedTask(SignalledTasks(s.db.signals, 0), s.now, 0, s.db.tasks[0]) ==
            s.db.tasks[0].(status := Retry, dispatchAfter := s.now, leaseOwner := None, leaseUntil := None)
  {
    hide Reachable, SignalledTasks, Tables;
    ReachableTables(cfg, backoff, s);
    RepairKeepsSignals(s, 0);
  }

  /** The worker crashes, its lease runs out and a recovery sets the task back to RETRY. */
  lemma AfterTheLease(cfg: Settings, backoff: Backoff, s: System, window: int, n: nat) returns (s': System)
    requires ValidSettings(cfg) && Reachable(cfg, backoff, s) && JustStarted(cfg, backoff, s, window, n)
    requires s.now + cfg.lease < window
    ensures Reachable(cfg, backoff, s') && Waiting(cfg, s', s.now + cfg.lease, window, n)
  {
    var s1 := s.(inflight := s.inflight[1 := []]);
    assert Enabled(cfg, s, Crash(1)) && Apply(cfg, s, Crash(1)) == s1;
    StepIsReachable(cfg, backoff, s, Crash(1));
    var s2 := s1.(now := s1.now + cfg.lease);
    assert Enabled(cfg, s1, Tick(cfg.lease)) && Apply(cfg, s1, Tick(cfg.lease)) == s2;
    StepIsReachable(cfg, backoff, s1, Tick(cfg.lease));
    hide Reachable, Apply, Enabled, EarliestStart;
    RepairRetries(cfg, backoff, s2);
    RepairOneRun(cfg, s2, 0);
    StepIsReachable(cfg, backoff, s2, RepairOne(s2, 0));
    s' := Apply(cfg, s2, RepairOne(s2, 0));
  }

  /** An acknowledgement of another task of the agent closes the circuit and resets its failures. */
  lemma AnotherTaskSucceeds(cfg: Settings, backoff: Backoff, s: System) returns (s': System)
    requires ValidSettings(cfg) && Reachable(cfg, backoff, s)
    requires Batch(s, 1) == [] && AGENT in s.db.agents && !s.db.agents[AGENT].circuit.Open?
    ensures Reachable(cfg, backoff, s') && s'.now == s.now && Batch(s', 1) == []
    ensures AGENT in s'.db.agents && s'.db.agents[AGENT] == AgentState(0, Closed, None)
    ensures forall id :: id in s.db.tasks ==> id in s'.db.tasks && s'.db.tasks[id] == s.db.tasks[id]
    ensures forall r :: r in s.db.runs ==> r in s'.db.runs && s'.db.runs[r] == s.db.runs[r]
  {
    hide Reachable, Apply, Enabled;
    var r := Fresh(s.db.runs.Keys);
    var id := Fresh(s.db.tasks.Keys);
    PlanOneTask(cfg, s, r, id, 1);
    StepIsReachable(cfg, backoff, s, PlanOne(s.now, r, id, 1));
    var s1 := Apply(cfg, s, PlanOne(s.now, r, id, 1));
    ClaimOneTask(cfg, s1, 1, id);
    StepIsReachable(cfg, backoff, s1, ClaimOne(s1, 1, id));
    var s2 := Apply(cfg, s1, ClaimOne(s1, 1, id));
    var res := DispatchResult(Accepted, 0);
    RecordOne(cfg, s2, 1, id, res);
    StepIsReachable(cfg, backoff, s2, Record(1, res));
    s' := Apply(cfg, s2, Record(1, res));
  }

  /** The attempt fails, the retry is scheduled as early as possible, and its time comes. */
  lemma AfterAFailure(cfg: Settings, backoff: Backoff, s: System, window: int, n: nat) returns (s': System)
    requires ValidSettings(cfg) && Reachable(cfg, backoff, s) && JustStarted(cfg, backoff, s, window, n)
    requires n < cfg.maxAttempts
    requires var wait := Greatest(backoff(n), if cfg.threshold == 1 then cfg.openFor else 0); s.now + wait < window
    ensures var wait := Greatest(backoff(n), if cfg.threshold == 1 then cfg.openFor else 0);
            Reachable(cfg, backoff, s') && Waiting(cfg, s', s.now + wait, window, n)
  {
    hide Reachable, Apply, Enabled, EarliestStart;
    var wait := Greatest(backoff(n), if cfg.threshold == 1 then cfg.openFor else 0);
    var res := DispatchResult(Retryable, backoff(n));
    RecordOne(cfg, s, 1, 0, res);
    StepIsReachable(cfg, backoff, s, Record(1, res));
    var s1 := Apply(cfg, s, Record(1, res));
    var s2 := s1;
    if cfg.threshold > 1 {
      s2 := AnotherTaskSucceeds(cfg, backoff, s1);
    }
    Elapse(cfg, backoff, s2, wait);
    s' := s2.(now := s2.now + wait);
  }

  lemma {:induction false} AttemptIsReached(cfg: Settings, backoff: Backoff, window: int, n: nat) returns (s: System)
    requires ValidSettings(cfg) && 1 <= n && EarliestStart(cfg, backoff, n) < window
    ensures Reachable(cfg, backoff, s) && JustStarted(cfg, backoff, s, window, n)
  {
    hide Reachable, JustStarted, Waiting, Gap;
    if n == 1 {
      s := FirstAttempt(cfg, backoff, window);
    } else {
      GapChoice(cfg, backoff, n - 1);
      LaterAttemptsStartLater(cfg, backoff, n - 1, n);
      s := AttemptIsReached(cfg, backoff, window, n - 1);
      assert EarliestStart(cfg, backoff, n) == s.now + Gap(cfg, backoff, n - 1) by { TimeOfStart(cfg, backoff, s, window, n - 1); }
      if Gap(cfg, backoff, n - 1) == cfg.lease {
        s := AfterTheLease(cfg, backoff, s, window, n - 1);
      } else {
        s := AfterAFailure(cfg, backoff, s, window, n - 1);
      }
      s := StartNow(cfg, backoff, s, window, n - 1);
    }
  }

  lemma GapChoice(cfg: Settings, backoff: Backoff, n: nat)
    ensures || Gap(cfg, backoff, n) == cfg.lease
            || (n < cfg.maxAttempts && Gap(cfg, backoff, n) == Greatest(backoff(n), if cfg.threshold == 1 then cfg.openFor else 0))
  {
  }

  lemma TimeOfStart(cfg: Settings, backoff: Backoff, s: System, window: int, n: nat)
    requires JustStarted(cfg, backoff, s, window, n)
    ensures s.now == EarliestStart(cfg, backoff, n)
  {
  }

  lemma FirstAttempt(cfg: Settings, backoff: Backoff, window: int) returns (s: System)
    requires ValidSettings(cfg) && 0 < window
    ensures Reachable(cfg, backoff, s) && JustStarted(cfg, backoff, s, window, 1)
  {
    var s0 := System(0, Db(map[], map[], map[], map[], {}), map[], History(map[], map[], map[], map[], map[]));
    InitIsReachable(cfg, backoff, s0);
    hide Reachable, Apply, Enabled;
    PlanOneTask(cfg, s0, 0, 0, window);
    StepIsReachable(cfg, backoff, s0, PlanOne(s0.now, 0, 0, window));
    var s1 := Apply(cfg, s0, PlanOne(s0.now, 0, 0, window));
    s := StartNow(cfg, backoff, s1, window, 0);
  }

  // ---------- the exact limit ----------

  /** In some run of the protocol with these settings a task with this window reaches attempt `n`. */
  ghost predicate CanAttempt(cfg: Settings, backoff: Backoff, window: int, n: nat) {
    exists s, id :: Reachable(cfg, backoff, s) && Attempted(s, id, window, n)
  }

  /** Attempt `n` is possible exactly when its earliest start is within the dispatch window. */
  lemma AttemptsPossible(cfg: Settings, backoff: Backoff, window: int, n: nat)
    requires ValidSettings(cfg) && 1 <= n
    ensures CanAttempt(cfg, backoff, window, n) <==> EarliestStart(cfg, backoff, n) < window
  {
    if EarliestStart(cfg, backoff, n) < window {
      var s := AttemptIsReached(cfg, backoff, window, n);
      assert Attempted(s, 0, window, n);
    }
    if CanAttempt(cfg, backoff, window, n) {
      var s, id :| Reachable(cfg, backoff, s) && Attempted(s, id, window, n);
      var b, steps := RunTo(cfg, backoff, s);
      AttemptsTakeTime(cfg, backoff, b, steps, |b| - 1, id, window, n);
    }
  }

  /** The maximum can be exceeded exactly when the dispatch window is longer than the shortest time for
      all allowed attempts and the lease of the last one. */
  lemma MaximumExceededIff(cfg: Settings, backoff: Backoff, window: int)
    requires ValidSettings(cfg)
    ensures CanAttempt(cfg, backoff, window, cfg.maxAttempts + 1) <==>
              EarliestStart(cfg, backoff, cfg.maxAttempts) + cfg.lease < window
  {
    hide CanAttempt, EarliestStart, Gap;
    AttemptsPossible(cfg, backoff, window, cfg.maxAttempts + 1);
    EarliestStartAbove(cfg, backoff, cfg.maxAttempts + 1);
  }

  /** The same for a backoff that does not grow. */
  lemma MaximumExceededConstant(cfg: Settings, backoff: Backoff, delay: nat, window: int)
    requires ValidSettings(cfg) && forall n :: backoff(n) == delay
    ensures CanAttempt(cfg, backoff, window, cfg.maxAttempts + 1) <==>
              (cfg.maxAttempts - 1) * Gap(cfg, backoff, 0) + cfg.lease < window
  {
    hide CanAttempt;
    MaximumExceededIff(cfg, backoff, window);
    EarliestStartConstant(cfg, backoff, delay, cfg.maxAttempts);
  }

  /** A dispatch window within one lease keeps every task at or below the maximum, in every state. */
  lemma ShortWindowKeepsMaximum(cfg: Settings, b: seq<System>, steps: seq<Step>, i: nat, id: TaskId)
    requires ValidSettings(cfg) && Behaviour(cfg, b, steps) && i < |b| && id in b[i].db.tasks
    requires b[i].db.tasks[id].dispatchDeadline - b[i].db.tasks[id].createdAt <= cfg.lease
    ensures b[i].db.tasks[id].attempts <= cfg.maxAttempts
  {
    AnyRunIsPatient(cfg, b, steps);
    hide Behaviour, Patient, EarliestStart, Gap;
    var t := b[i].db.tasks[id];
    if t.attempts > cfg.maxAttempts {
      AttemptsTakeTime(cfg, NO_BACKOFF, b, steps, i, id, t.dispatchDeadline - t.createdAt, cfg.maxAttempts + 1);
      EarliestStartAbove(cfg, NO_BACKOFF, cfg.maxAttempts + 1);
      EarliestStartNonNegative(cfg, NO_BACKOFF, cfg.maxAttempts);
    }
  }

  lemma AnyRunIsPatient(cfg: Settings, b: seq<System>, steps: seq<Step>)
    requires Behaviour(cfg, b, steps)
    ensures Patient(b, steps, NO_BACKOFF)
  {
    hide Enabled, Apply, Init;
  }

  /** With one allowed attempt, a lease of one tick and a window of three, a second attempt is made. */
  lemma SecondAttemptExample() returns (b: seq<System>, steps: seq<Step>)
    ensures var cfg := Settings(1, 1, 1, 1, 1);
            && ValidSettings(cfg) && Behaviour(cfg, b, steps)
            && 0 in b[|b| - 1].db.tasks && b[|b| - 1].db.tasks[0].attempts == 2 > cfg.maxAttempts
            && b[|b| - 1].db.tasks[0].dispatchDeadline == 3
  {
    var cfg := Settings(1, 1, 1, 1, 1);
    assert EarliestStart(cfg, NO_BACKOFF, 2) == 1;
    var s := AttemptIsReached(cfg, NO_BACKOFF, 3, 2);
    b, steps := RunTo(cfg, NO_BACKOFF, s);
  }

  // ---------- the backoff of the service ----------

  function Doubled(base: real, attempt: nat): real {
    if attempt <= 1 then base else 2.0 * Doubled(base, attempt - 1)
  }

  /** The delay after an attempt: the base doubles up to the maximum, and `random` picks a share between
      one half and the whole. */
  function DelayAfter(base: real, maximum: real, attempt: nat, random: real): real {
    var grown := Doubled(base, attempt);
    (if maximum <= grown then maximum else grown) * (0.5 + 0.5 * random)
  }

  function DoubledTicks(base: nat, attempt: nat): nat {
    if attempt <= 1 then base else 2 * DoubledTicks(base, attempt - 1)
  }

  /** The least delays, from half the base and half the maximum in ticks. */
  function DoublingBackoff(halfBase: nat, halfMaximum: nat): Backoff {
    n => if halfMaximum <= DoubledTicks(halfBase, n) then halfMaximum else DoubledTicks(halfBase, n)
  }

  lemma {:induction false} DoublingInTicks(halfBase: nat, attempt: nat)
    ensures Doubled(2.0 * halfBase as real, attempt) == 2.0 * DoubledTicks(halfBase, attempt) as real
  {
    if attempt > 1 {
      DoublingInTicks(halfBase, attempt - 1);
    }
  }

  /** No random number gives a shorter delay, and zero gives this one. */
  lemma DoublingIsTheLeastDelay(halfBase: nat, halfMaximum: nat, attempt: nat, random: real)
    requires 0.0 <= random < 1.0
    ensures var least := DoublingBackoff(halfBase, halfMaximum)(attempt) as real;
            var base, maximum := 2.0 * halfBase as real, 2.0 * halfMaximum as real;
            least <= DelayAfter(base, maximum, attempt, random) && least == DelayAfter(base, maximum, attempt, 0.0)
  {
    DoublingInTicks(halfBase, attempt);
    hide Doubled, DoubledTicks;
    var bounded := 2.0 * DoublingBackoff(halfBase, halfMaximum)(attempt) as real;
    assert DelayAfter(2.0 * halfBase as real, 2.0 * halfMaximum as real, attempt, random) == bounded * (0.5 + 0.5 * random);
    ShareOfBound(bounded, random);
  }

  lemma ShareOfBound(bounded: real, random: real)
    requires 0.0 <= bounded && 0.0 <= random
    ensures bounded * 0.5 <= bounded * (0.5 + 0.5 * random)
  {
    assert 0.0 <= bounded * random;
  }

  /** The default settings, in half seconds: five attempts, a lease of 80 seconds, three failures open the
      circuit for 120 seconds, and the backoff doubles from 5 up to 300 seconds. A sixth attempt is possible
      exactly when the dispatch timeout is longer than 117.5 seconds. */
  lemma DefaultSettingsLimit(window: int)
    ensures var cfg := Settings(20, 160, 5, 3, 240);
            ValidSettings(cfg) && (CanAttempt(cfg, DoublingBackoff(5, 300), window, 6) <==> 235 < window)
  {
    var cfg, backoff := Settings(20, 160, 5, 3, 240), DoublingBackoff(5, 300);
    assert DoubledTicks(5, 2) == 10;
    assert DoubledTicks(5, 3) == 20;
    assert DoubledTicks(5, 4) == 40;
    assert backoff(1) == 5 && backoff(2) == 10 && backoff(3) == 20 && backoff(4) == 40;
    assert EarliestStart(cfg, backoff, 2) == 5;
    assert EarliestStart(cfg, backoff, 3) == 15;
    assert EarliestStart(cfg, backoff, 4) == 35;
    assert EarliestStart(cfg, backoff, 5) == 75;
    hide CanAttempt, DoublingBackoff, EarliestStart;
    MaximumExceededIff(cfg, backoff, window);
  }
}
