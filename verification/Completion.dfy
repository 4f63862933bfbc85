/** A run of the protocol that goes well. */
module Completion {
  import opened Rows
  import opened Dispatch
  import opened Ingestion
  import opened Quorum
  import opened Protocol
  import opened Scenarios
  import opened Effects

  /** The agent's answer to task 0 of run 0, sent and received at time `now`. */
  function Answer(now: Time): Envelope {
    Envelope(0, AGENT, 1, 0, Some(TaskRef(0, 0)), 1, {}, now, now, 0)
  }

  function Deliver(now: Time): Step {
    Ingest(RegistryAt(now), 0, Answer(now), 0)
  }

  /** Run 0 and its only task, in the first instant. */
  ghost predicate Progress(s: System, run: RunStatus, task: TaskStatus, attempts: nat) {
    && s.now == 0 && s.db.runs.Keys == {0} && s.db.tasks.Keys == {0}
    && s.db.runs[0] == NewRun(0, 1).(status := run)
    && SameIdentity(NewTask(0, 0, 1), s.db.tasks[0])
    && s.db.tasks[0].status == task && s.db.tasks[0].attempts == attempts
  }

  lemma TaskIsPlanned(cfg: Settings) returns (s: System)
    requires ValidSettings(cfg)
    ensures Reachable(cfg, NO_BACKOFF, s) && Progress(s, RunDispatching, Pending, 0) && s.db.tasks[0] == NewTask(0, 0, 1)
    ensures s.db.signals == map[] && s.db.nonces == {} && s.db.agents == map[] && s.inflight == map[]
  {
    hide Reachable, Apply, Enabled;
    var s0 := System(0, Db(map[], map[], map[], map[], {}), map[], History(map[], map[], map[], map[], map[]));
    InitIsReachable(cfg, NO_BACKOFF, s0);
    PlanOneTask(cfg, s0, 0, 0, 1);
    StepIsReachable(cfg, NO_BACKOFF, s0, PlanOne(0, 0, 0, 1));
    s := Apply(cfg, s0, PlanOne(0, 0, 0, 1));
  }

  lemma TaskIsClaimed(cfg: Settings, s: System) returns (s': System)
    requires ValidSettings(cfg)
    requires Reachable(cfg, NO_BACKOFF, s) && Progress(s, RunDispatching, Pending, 0) && s.db.tasks[0] == NewTask(0, 0, 1)
    requires s.db.signals == map[] && s.db.nonces == {} && s.db.agents == map[] && s.inflight == map[]
    ensures Reachable(cfg, NO_BACKOFF, s') && Progress(s', RunDispatching, Dispatching, 1)
    ensures s'.db.signals == map[] && s'.db.nonces == {} && Recording(s', 1, 0) && Batch(s', 1)[0].runId == 0
  {
    hide Reachable, Apply, Enabled;
    var claim := ClaimOne(s, 1, 0);
    ClaimOneTask(cfg, s, 1, 0);
    StepIsReachable(cfg, NO_BACKOFF, s, claim);
    s' := Apply(cfg, s, claim);
  }

  lemma TaskIsAcknowledged(cfg: Settings, s: System) returns (s': System)
    requires Reachable(cfg, NO_BACKOFF, s) && Progress(s, RunDispatching, Dispatching, 1)
    requires s.db.signals == map[] && s.db.nonces == {} && Recording(s, 1, 0) && Batch(s, 1)[0].runId == 0
    ensures Reachable(cfg, NO_BACKOFF, s') && Progress(s', RunCollecting, WaitingSignal, 1)
    ensures s'.db.signals == map[] && s'.db.nonces == {}
  {
    hide Reachable, Apply, Enabled;
    var ack := DispatchResult(Accepted, 0);
    RecordOne(cfg, s, 1, 0, ack);
    StepIsReachable(cfg, NO_BACKOFF, s, Record(1, ack));
    s' := Apply(cfg, s, Record(1, ack));
  }

  lemma SignalArrives(cfg: Settings, s: System) returns (s': System)
    requires Reachable(cfg, NO_BACKOFF, s) && Progress(s, RunCollecting, WaitingSignal, 1)
    requires s.db.signals == map[] && s.db.nonces == {}
    ensures Reachable(cfg, NO_BACKOFF, s') && Progress(s', RunCollecting, SignalReceived, 1)
  {
    hide Reachable, Fault, Ingested;
    var e := Answer(0);
    AcceptedIff(s.db, RegistryAt(0), 0, 0, e, 0);
    assert Fault(s.db, RegistryAt(0), 0, 0, e, 0).None?;
    SignalWrites(s.db, RegistryAt(0), 0, 0, e, 0);
    assert Enabled(cfg, s, Deliver(0));
    StepIsReachable(cfg, NO_BACKOFF, s, Deliver(0));
    s' := Apply(cfg, s, Deliver(0));
  }

  lemma RunIsFull(s: System)
    requires Progress(s, RunCollecting, SignalReceived, 1)
    ensures var s' := DoEvaluate(s, 0);
            && s'.now == 0 && s'.db.tasks == s.db.tasks && s'.db.runs.Keys == {0}
            && s'.db.runs[0] == NewRun(0, 1).(status := RunFull, outcome := Some(OutcomeFull), completedAt := Some(0))
  {
    EvaluationWrites(s.db, 0, 0);
    NothingShort(s.db.tasks);
    assert Complete(s.db.tasks, 0);
    hide Evaluated, Written, Over, Complete, SomeTooFew, SomeOutOfReach, SomeBroken;
  }

  lemma NothingShort(tasks: map<TaskId, Task>)
    requires tasks.Keys == {0} && SameIdentity(NewTask(0, 0, 1), tasks[0]) && tasks[0].status == SignalReceived
    ensures !SomeTooFew(tasks, 0, OneTaskPolicy(1)) && !SomeBroken(tasks, 0, OneTaskPolicy(1))
  {
    assert (set id | id in tasks && tasks[id].runId == 0 && tasks[id].capability == 1 && tasks[id].status.SignalReceived?) == {0};
  }

  /** With every valid configuration there is a run of the protocol in which the task is dispatched and
      acknowledged, its signal arrives, and the run is FULL before its deadline. */
  lemma AnsweredRunIsFull(cfg: Settings) returns (b: seq<System>, steps: seq<Step>)
    requires ValidSettings(cfg)
    ensures Behaviour(cfg, b, steps) && |b| >= 1
    ensures var s := b[|b| - 1];
            && 0 in s.db.runs && s.db.runs[0].status.RunFull? && s.db.runs[0].outcome == Some(OutcomeFull)
            && s.now < s.db.runs[0].collectionDeadline
            && 0 in s.db.tasks && s.db.tasks[0].status.SignalReceived? && s.db.tasks[0].attempts == 1
  {
    hide Reachable, Behaviour, Patient, DoEvaluate, Recording;
    var s1 := TaskIsPlanned(cfg);
    var s2 := TaskIsClaimed(cfg, s1);
    var s3 := TaskIsAcknowledged(cfg, s2);
    var s4 := SignalArrives(cfg, s3);
    RunIsFull(s4);
    StepIsReachable(cfg, NO_BACKOFF, s4, Evaluate(0));
    b, steps := RunTo(cfg, NO_BACKOFF, Apply(cfg, s4, Evaluate(0)));
  }
}
