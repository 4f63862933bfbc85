/** The completeness rule: what the evaluator reads off the tasks of a run. */
module Quorum {
  import opened Rows

  datatype Verdict = Full | Degraded | Critical

  function StatusOf(v: Verdict): RunStatus {
    match v case Full => RunFull case Degraded => RunDegraded case Critical => RunCritical
  }

  function OutcomeOf(v: Verdict): Outcome {
    match v case Full => OutcomeFull case Degraded => OutcomeDegraded case Critical => OutcomeInsufficient
  }

  ghost function TasksOf(tasks: map<TaskId, Task>, r: RunId): set<TaskId> {
    set id | id in tasks && tasks[id].runId == r
  }

  ghost function CapTasks(tasks: map<TaskId, Task>, r: RunId, c: Capability): set<TaskId> {
    set id | id in tasks && tasks[id].runId == r && tasks[id].capability == c
  }

  ghost function Received(tasks: map<TaskId, Task>, r: RunId, c: Capability): set<TaskId> {
    set id | id in tasks && tasks[id].runId == r && tasks[id].capability == c && tasks[id].status.SignalReceived?
  }

  ghost function Unfinished(tasks: map<TaskId, Task>, r: RunId, c: Capability): set<TaskId> {
    set id | id in tasks && tasks[id].runId == r && tasks[id].capability == c && !Terminal(tasks[id].status)
  }

  ghost predicate Short(tasks: map<TaskId, Task>, r: RunId, q: Requirement) {
    q.required && |Received(tasks, r, q.capability)| < q.minimum
  }

  ghost predicate Hopeless(tasks: map<TaskId, Task>, r: RunId, q: Requirement) {
    Short(tasks, r, q)
    && |Received(tasks, r, q.capability)| + |Unfinished(tasks, r, q.capability)| < q.minimum
  }

  ghost predicate CriticalLoss(tasks: map<TaskId, Task>, r: RunId, q: Requirement) {
    q.critical && exists id :: id in CapTasks(tasks, r, q.capability) && Lost(tasks[id].status)
  }

  ghost predicate AnyShort(tasks: map<TaskId, Task>, r: RunId, p: Policy) {
    exists i :: 0 <= i < |p.requirements| && Short(tasks, r, p.requirements[i])
  }

  ghost predicate AnyHopeless(tasks: map<TaskId, Task>, r: RunId, p: Policy) {
    exists i :: 0 <= i < |p.requirements| && Hopeless(tasks, r, p.requirements[i])
  }

  ghost predicate AnyCriticalLoss(tasks: map<TaskId, Task>, r: RunId, p: Policy) {
    exists i :: 0 <= i < |p.requirements| && CriticalLoss(tasks, r, p.requirements[i])
  }

  ghost predicate AllTerminal(tasks: map<TaskId, Task>, r: RunId) {
    forall id :: id in TasksOf(tasks, r) ==> Terminal(tasks[id].status)
  }

  ghost predicate AllReceived(tasks: map<TaskId, Task>, r: RunId) {
    forall id :: id in TasksOf(tasks, r) ==> tasks[id].status.SignalReceived?
  }

  /** The verdict that the tasks allow now, if any. */
  ghost function Decide(tasks: map<TaskId, Task>, r: RunId, run: Run, now: Time): Option<Verdict> {
    var due := now >= run.collectionDeadline;
    if AnyShort(tasks, r, run.policy)
       && (AnyHopeless(tasks, r, run.policy) || due || AllTerminal(tasks, r)) then Some(Critical)
    else if AnyCriticalLoss(tasks, r, run.policy) then Some(Critical)
    else if AllReceived(tasks, r) && run.missingOptional == [] then Some(Full)
    else if AllTerminal(tasks, r) || due then Some(Degraded)
    else None
  }

  function JudgedRun(run: Run, v: Verdict, now: Time): Run {
    run.(status := StatusOf(v), outcome := Some(OutcomeOf(v)), completedAt := Some(now))
  }

  /** The verdict that an evaluation writes, if it writes one. */
  ghost function Written(db: Db, r: RunId, now: Time): Option<Verdict>
    requires r in db.runs
  {
    if Settled(db.runs[r].status) then None else Decide(db.tasks, r, db.runs[r], now)
  }

  ghost function Evaluated(db: Db, r: RunId, now: Time): Db
    requires r in db.runs
  {
    match Written(db, r, now)
    case None => db
    case Some(v) => db.(runs := db.runs[r := JudgedRun(db.runs[r], v, now)])
  }

  /** The capabilities that an evaluation reports as missing, in policy order. */
  ghost function ShortCapabilities(tasks: map<TaskId, Task>, r: RunId, qs: seq<Requirement>): seq<Capability> {
    if qs == [] then [] else
      var q := qs[|qs| - 1];
      ShortCapabilities(tasks, r, qs[..|qs| - 1]) + (if Short(tasks, r, q) then [q.capability] else [])
  }

  lemma {:induction false} ShortCapabilitiesNonEmpty(tasks: map<TaskId, Task>, r: RunId, qs: seq<Requirement>)
    ensures ShortCapabilities(tasks, r, qs) != [] <==>
            exists i :: 0 <= i < |qs| && Short(tasks, r, qs[i])
  {
    if qs != [] {
      var n := |qs| - 1;
      ShortCapabilitiesNonEmpty(tasks, r, qs[..n]);
      if i :| 0 <= i < |qs| && Short(tasks, r, qs[i]) {
        assert i < n ==> Short(tasks, r, qs[..n][i]);
      }
      if j :| 0 <= j < n && Short(tasks, r, qs[..n][j]) {
        assert Short(tasks, r, qs[j]);
      }
    }
  }
}
