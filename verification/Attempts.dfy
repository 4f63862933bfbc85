/** How often a task can be dispatched, crashes and expired leases included. */
module Attempts {
  import opened Rows
  import opened Dispatch
  import opened Protocol
  import opened Agreement
  import opened Leases

  function Least(x: int, y: int): int { if x <= y then x else y }
  function Greatest(x: int, y: int): int { if x <= y then y else x }

  /** The least time from the start of attempt `n` to the start of the next one. Below the maximum a
      result may schedule it after the backoff, and after the cooldown when one failure opens the
      circuit; otherwise the lease of attempt `n` has to run out first. */
  function Gap(cfg: Settings, backoff: Backoff, n: nat): int {
    if n < cfg.maxAttempts then Least(cfg.lease, Greatest(backoff(n), if cfg.threshold == 1 then cfg.openFor else 0))
    else cfg.lease
  }

  /** The least time from planning to the start of attempt `n`. */
  function EarliestStart(cfg: Settings, backoff: Backoff, n: nat): int {
    if n <= 1 then 0 else EarliestStart(cfg, backoff, n - 1) + Gap(cfg, backoff, n - 1)
  }

  /** Above the maximum every further attempt takes one lease. */
  lemma {:induction false} EarliestStartAbove(cfg: Settings, backoff: Backoff, n: nat)
    requires ValidSettings(cfg) && cfg.maxAttempts <= n
    ensures EarliestStart(cfg, backoff, n) == EarliestStart(cfg, backoff, cfg.maxAttempts) + (n - cfg.maxAttempts) * cfg.lease
  {
    if n > cfg.maxAttempts {
      EarliestStartAbove(cfg, backoff, n - 1);
      OneMore(n - 1 - cfg.maxAttempts, cfg.lease);
    }
  }

  lemma {:induction false} EarliestStartNonNegative(cfg: Settings, backoff: Backoff, n: nat)
    requires ValidSettings(cfg)
    ensures 0 <= EarliestStart(cfg, backoff, n)
  {
    if n > 1 {
      EarliestStartNonNegative(cfg, backoff, n - 1);
    }
  }

  /** With the same backoff after every attempt, the retries below the maximum in closed form. */
  lemma {:induction false} EarliestStartConstant(cfg: Settings, backoff: Backoff, delay: nat, n: nat)
    requires ValidSettings(cfg) && 1 <= n <= cfg.maxAttempts && forall k :: backoff(k) == delay
    ensures EarliestStart(cfg, backoff, n) == (n - 1) * Gap(cfg, backoff, 0)
  {
    if n > 1 {
      EarliestStartConstant(cfg, backoff, delay, n - 1);
      OneMore(n - 2, Gap(cfg, backoff, 0));
    }
  }

  lemma OneMore(k: int, x: int)
    ensures (k + 1) * x == k * x + x
  {
  }

  /** The latest attempt started no earlier than possible, and the next one has to wait as well. */
  ghost predicate Timely(cfg: Settings, backoff: Backoff, now: Time, t: Task, start: Time) {
    t.attempts >= 1 ==>
      && t.createdAt + EarliestStart(cfg, backoff, t.attempts) <= start <= now
      && start < t.dispatchDeadline
      && (t.status.Dispatching? ==> t.leaseUntil == Some(start + cfg.lease))
      && (t.status.Retry? ==> start + Gap(cfg, backoff, t.attempts) <= Greatest(now, t.dispatchAfter))
  }

  /** Every scheduled retry used up an attempt below the maximum. */
  predicate RetriesCounted(cfg: Settings, t: Task, retries: nat) {
    && retries <= t.attempts
    && retries < cfg.maxAttempts
    && (t.status.Pending? ==> t.attempts == 0)
    && (t.status.Dispatching? ==> retries < t.attempts)
  }

  ghost predicate TaskCounted(cfg: Settings, backoff: Backoff, s: System, id: TaskId)
    requires id in s.db.tasks
  {
    && Timely(cfg, backoff, s.now, s.db.tasks[id], StartOf(s.history, id))
    && RetriesCounted(cfg, s.db.tasks[id], RetriesOf(s.history, id))
  }

  ghost predicate Counted(cfg: Settings, backoff: Backoff, s: System) {
    && (forall id :: id in s.db.tasks ==> TaskCounted(cfg, backoff, s, id))
    && s.history.retries.Keys <= s.db.tasks.Keys
  }

  lemma PassiveTaskIsCounted(cfg: Settings, backoff: Backoff, s: System, s': System, id: TaskId)
    requires ValidSettings(cfg) && s.now <= s'.now
    requires id in s.db.tasks && id in s'.db.tasks && TaskCounted(cfg, backoff, s, id)
    requires PassiveTask(s.now, s.db.tasks[id], s'.db.tasks[id])
    requires StartOf(s'.history, id) == StartOf(s.history, id) && RetriesOf(s'.history, id) == RetriesOf(s.history, id)
    ensures TaskCounted(cfg, backoff, s', id)
  {
  }

  /** An attempt starts: the gap after the one before is over. */
  lemma StartCounts(cfg: Settings, backoff: Backoff, now: Time, t: Task, t': Task, start: Time)
    requires ValidSettings(cfg) && Claimable(t, now) && t.createdAt <= now
    requires Timely(cfg, backoff, now, t, start) && (t.status.Pending? ==> t.attempts == 0)
    requires t'.attempts == t.attempts + 1 && t'.createdAt == t.createdAt && t'.dispatchDeadline == t.dispatchDeadline
    requires t'.status.Dispatching? && t'.leaseUntil == Some(now + cfg.lease)
    ensures Timely(cfg, backoff, now, t', now)
  {
    if t.attempts >= 1 {
      assert Gap(cfg, backoff, t.attempts) <= cfg.lease;
      assert start + Gap(cfg, backoff, t.attempts) <= now;
      assert EarliestStart(cfg, backoff, t'.attempts) == EarliestStart(cfg, backoff, t.attempts) + Gap(cfg, backoff, t.attempts);
    }
  }

  lemma ClaimedTaskIsCounted(
    cfg: Settings, backoff: Backoff, s: System, w: WorkerId, endpoints: set<AgentId>, t: Task, start: Time, retries: nat)
    requires ValidSettings(cfg) && Claimable(t, s.now) && t.createdAt <= s.now
    requires Timely(cfg, backoff, s.now, t, start) && RetriesCounted(cfg, t, retries)
    ensures var t' := ClaimedTask(cfg, s.db, w, endpoints, s.now, t);
            var start' := if ClaimOutcomeOf(s.db, endpoints, s.now, t).Started? then s.now else start;
            Timely(cfg, backoff, s.now, t', start') && RetriesCounted(cfg, t', retries)
  {
    var t' := ClaimedTask(cfg, s.db, w, endpoints, s.now, t);
    if ClaimOutcomeOf(s.db, endpoints, s.now, t).Started? {
      StartCounts(cfg, backoff, s.now, t, t', start);
    }
  }

  lemma ClaimKeepsCount(cfg: Settings, backoff: Backoff, s: System, w: WorkerId, endpoints: set<AgentId>, rows: seq<TaskId>, id: TaskId)
    requires ValidSettings(cfg) && id in s.db.tasks && TaskCounted(cfg, backoff, s, id)
    requires forall i :: 0 <= i < |rows| ==> rows[i] in s.db.tasks && Claimable(s.db.tasks[rows[i]], s.now)
    requires s.db.tasks[id].createdAt <= s.now
    ensures id in DoClaim(cfg, s, w, endpoints, rows).db.tasks
    ensures TaskCounted(cfg, backoff, DoClaim(cfg, s, w, endpoints, rows), id)
  {
    hide StartsOn, Commands, Timely, RetriesCounted, ClaimOutcomeOf, ClaimedTask, ClaimedAgent, Claimable;
    if id in rows {
      ClaimedTaskIsCounted(cfg, backoff, s, w, endpoints, s.db.tasks[id], StartOf(s.history, id), RetriesOf(s.history, id));
    }
  }

  lemma ClaimKeepsKeys(cfg: Settings, db: Db, w: WorkerId, endpoints: set<AgentId>, now: Time, ids: set<TaskId>)
    requires ids <= db.tasks.Keys
    ensures Claimed(cfg, db, w, endpoints, now, ids).tasks.Keys == db.tasks.Keys
  {
    hide ClaimedTask;
  }

  lemma ClaimKeepsCounts(cfg: Settings, backoff: Backoff, s: System, w: WorkerId, endpoints: set<AgentId>, rows: seq<TaskId>, locked: set<TaskId>)
    requires ValidSettings(cfg) && Shape(s) && Counted(cfg, backoff, s)
    requires IsFirst(ClaimKeys(s.db.tasks, s.now, locked), cfg.batchSize, rows)
    ensures Counted(cfg, backoff, DoClaim(cfg, s, w, endpoints, rows))
  {
    hide IsFirst, TaskCounted, Commands, Claimed, ClaimedTask, ClaimedAgent, Claimable, UniqueAssignments, ValidPolicy;
    ClaimSends(cfg, s, w, endpoints, rows, locked);
    assert DoClaim(cfg, s, w, endpoints, rows).db.tasks.Keys == s.db.tasks.Keys by { ClaimKeepsKeys(cfg, s.db, w, endpoints, s.now, Elems(rows)); }
    forall id | id in s.db.tasks ensures TaskCounted(cfg, backoff, DoClaim(cfg, s, w, endpoints, rows), id) {
      assert TaskShape(s.db, s.db.tasks[id]);
      ClaimKeepsCount(cfg, backoff, s, w, endpoints, rows, id);
    }
  }

  lemma RecordKeepsCounts(cfg: Settings, backoff: Backoff, s: System, w: WorkerId, res: DispatchResult)
    requires ValidSettings(cfg) && Counted(cfg, backoff, s) && Batch(s, w) != []
    requires StepIsPatient(s, Record(w, res), backoff)
    ensures Counted(cfg, backoff, DoRecord(cfg, s, w, res))
  {
    hide Timely, RetriesCounted, TaskAfterResult, AgentAfterResult, CanRetry;
    var s', c := DoRecord(cfg, s, w, res), Batch(s, w)[0];
    forall id | id in s'.db.tasks ensures TaskCounted(cfg, backoff, s', id) {
      assert TaskCounted(cfg, backoff, s, id);
      if id == c.taskId && ResultApplies(s.db, w, c) {
        RecordedTaskIsCounted(cfg, backoff, s.db.agents[c.agentId], s.db.tasks[id], s.now, StartOf(s.history, id), RetriesOf(s.history, id), res);
      }
    }
  }

  /** A retry comes after its backoff, and after the cooldown if the failure opened the circuit. */
  lemma RecordedTaskIsCounted(cfg: Settings, backoff: Backoff, st: AgentState, t: Task, now: Time, start: Time, retries: nat, res: DispatchResult)
    requires ValidSettings(cfg) && t.status.Dispatching? && (res.disposition.Retryable? ==> backoff(t.attempts) <= res.delay)
    requires Timely(cfg, backoff, now, t, start) && RetriesCounted(cfg, t, retries)
    ensures var t' := TaskAfterResult(cfg, st, t, now, res);
            Timely(cfg, backoff, now, t', start) && RetriesCounted(cfg, t', if CanRetry(cfg, t, now, res) then retries + 1 else retries)
  {
    hide EarliestStart;
  }

  lemma PassiveKeepsCounts(cfg: Settings, backoff: Backoff, s: System, s': System)
    requires ValidSettings(cfg) && Counted(cfg, backoff, s) && Passive(s, s')
    ensures Counted(cfg, backoff, s')
  {
    forall id | id in s'.db.tasks ensures TaskCounted(cfg, backoff, s', id) {
      if id in s.db.tasks {
        PassiveTaskIsCounted(cfg, backoff, s, s', id);
      }
    }
  }

  lemma StepKeepsCounts(cfg: Settings, backoff: Backoff, s: System, step: Step)
    requires ValidSettings(cfg) && Tables(s) && Counted(cfg, backoff, s) && Enabled(cfg, s, step)
    requires StepIsPatient(s, step, backoff)
    ensures Counted(cfg, backoff, Apply(cfg, s, step))
  {
    hide Tables, Counted, DoPlan, DoClaim, DoRecord, DoIngest, DoEvaluate, IsFirst, Passive;
    match step
    case Claim(w, endpoints, rows, locked) => 
      assert Shape(s) by { TablesHaveShape(s); }
      ClaimKeepsCounts(cfg, backoff, s, w, endpoints, rows, locked);
    case Record(w, res) => RecordKeepsCounts(cfg, backoff, s, w, res);
    case _ =>
      OtherStepsArePassive(cfg, s, step);
      PassiveKeepsCounts(cfg, backoff, s, Apply(cfg, s, step));
  }

  lemma TablesHaveShape(s: System)
    requires Tables(s)
    ensures Shape(s)
  {
  }
}
