/** Which finished runs are final, read off the state: any number of workers, any interleaving. */
module Reopening {
  import opened Rows
  import opened Dispatch
  import Ingestion
  import opened Recovery
  import opened Quorum
  import opened Planner
  import opened Protocol
  import opened Agreement
  import opened Leases
  import opened Theorems
  import opened Finality

  /** The run may go on like this from state `s`. */
  ghost predicate Continuation(cfg: Settings, s: System, b: seq<System>, steps: seq<Step>) {
    && |b| == |steps| + 1 && b[0] == s
    && forall i :: 0 <= i < |steps| ==> Enabled(cfg, b[i], steps[i]) && b[i + 1] == Apply(cfg, b[i], steps[i])
  }

  /** A command of run `r` is in flight and its result would still be recorded. */
  predicate Outstanding(s: System, w: WorkerId, c: Command, r: RunId) {
    w in s.inflight && c in s.inflight[w] && c.runId == r && ResultApplies(s.db, w, c)
  }

  ghost predicate NothingOutstanding(s: System, r: RunId) {
    forall w, c :: !Outstanding(s, w, c, r)
  }

  // ---------- nothing outstanding: final ----------

  lemma ClaimKeepsNothing(cfg: Settings, s: System, step: Step, r: RunId)
    requires Good(cfg, s) && Enabled(cfg, s, step) && step.Claim?
    requires r in s.db.runs && Settled(s.db.runs[r].status) && NothingOutstanding(s, r)
    ensures NothingOutstanding(Apply(cfg, s, step), r)
  {
    hide Good, Tables, IsFirst, Commands, ClaimedAgent, Claimable, StartsOn;
    GoodLeasing(cfg, s);
    ClaimSends(cfg, s, step.w, step.endpoints, step.rows, step.locked);
    var s' := Apply(cfg, s, step);
    forall w, c ensures !Outstanding(s', w, c, r) {
      if w in s'.inflight && c in s'.inflight[w] && c.runId == r && w != step.w {
        assert CommandFits(s, w, c) && !Outstanding(s, w, c, r);
      }
    }
  }

  lemma RecordKeepsNothing(cfg: Settings, s: System, step: Step, r: RunId)
    requires Good(cfg, s) && Enabled(cfg, s, step) && step.Record?
    requires r in s.db.runs && NothingOutstanding(s, r)
    ensures NothingOutstanding(Apply(cfg, s, step), r)
  {
    hide Good, TaskAfterResult, AgentAfterResult, CanRetry;
    GoodLeasing(cfg, s);
    var s', done := Apply(cfg, s, step), Batch(s, step.w)[0];
    forall w, c ensures !Outstanding(s', w, c, r) {
      if w in s'.inflight && c in s'.inflight[w] && c.runId == r {
        assert c in s.inflight[w];
        assert CommandFits(s, w, c) && !Outstanding(s, w, c, r);
        if ResultApplies(s.db, step.w, done) {
          RecordedTaskIsReleased(cfg, s, step.w, done, step.res);
        }
      }
    }
  }

  lemma RecordedTaskIsReleased(cfg: Settings, s: System, w: WorkerId, c: Command, res: DispatchResult)
    requires ResultApplies(s.db, w, c)
    ensures !TaskAfterResult(cfg, s.db.agents[c.agentId], s.db.tasks[c.taskId], s.now, res).status.Dispatching?
  {
  }

  lemma PassiveKeepsNothing(s: System, s': System, r: RunId)
    requires CommandsFit(s) && Passive(s, s') && NothingOutstanding(s, r) && r in s.db.runs
    requires forall w, c :: w in s'.inflight && c in s'.inflight[w] ==> w in s.inflight && c in s.inflight[w]
    ensures NothingOutstanding(s', r)
  {
    forall w, c ensures !Outstanding(s', w, c, r) {
      if w in s'.inflight && c in s'.inflight[w] && c.runId == r {
        assert CommandFits(s, w, c) && !Outstanding(s, w, c, r);
        assert PassiveTask(s.now, s.db.tasks[c.taskId], s'.db.tasks[c.taskId]);
      }
    }
  }

  lemma OtherStepsSendNothing(cfg: Settings, s: System, step: Step)
    requires Enabled(cfg, s, step) && !step.Claim? && !step.Record?
    ensures var s' := Apply(cfg, s, step);
            forall w, c :: w in s'.inflight && c in s'.inflight[w] ==> w in s.inflight && c in s.inflight[w]
  {
    hide IsFirst, IsRoute, ValidPolicy, Ingestion.Fault, Decide, Expired, Reconciled;
  }

  lemma StepKeepsNothing(cfg: Settings, s: System, step: Step, r: RunId)
    requires Good(cfg, s) && Enabled(cfg, s, step)
    requires r in s.db.runs && Settled(s.db.runs[r].status) && NothingOutstanding(s, r)
    ensures NothingOutstanding(Apply(cfg, s, step), r)
    ensures r in Apply(cfg, s, step).db.runs && Apply(cfg, s, step).db.runs[r].status == s.db.runs[r].status
  {
    hide Good, Tables, Apply, Enabled, Passive, NothingOutstanding, ResultApplies;
    GoodTables(cfg, s);
    GoodLeasing(cfg, s);
    ReopenedIffAcknowledged(cfg, s, step, r);
    AcknowledgedIsOutstanding(s, step, r);
    if step.Claim? {
      ClaimKeepsNothing(cfg, s, step, r);
    } else if step.Record? {
      RecordKeepsNothing(cfg, s, step, r);
    } else {
      OtherStepsArePassive(cfg, s, step);
      OtherStepsSendNothing(cfg, s, step);
      PassiveKeepsNothing(s, Apply(cfg, s, step), r);
    }
  }

  lemma AcknowledgedIsOutstanding(s: System, step: Step, r: RunId)
    requires NothingOutstanding(s, r)
    ensures !AcknowledgesTaskOf(s, step, r)
  {
    if AcknowledgesTaskOf(s, step, r) {
      assert Outstanding(s, step.w, Batch(s, step.w)[0], r);
    }
  }

  lemma {:induction false} FinalForEver(cfg: Settings, s: System, b: seq<System>, steps: seq<Step>, i: nat, r: RunId)
    requires ValidSettings(cfg) && Good(cfg, s) && Continuation(cfg, s, b, steps) && i < |b|
    requires r in s.db.runs && Settled(s.db.runs[r].status) && NothingOutstanding(s, r)
    ensures Good(cfg, b[i]) && NothingOutstanding(b[i], r)
    ensures r in b[i].db.runs && b[i].db.runs[r].status == s.db.runs[r].status
  {
    hide Good, Apply, Enabled, NothingOutstanding;
    if i > 0 {
      FinalForEver(cfg, s, b, steps, i - 1, r);
      StepKeepsGood(cfg, b[i - 1], steps[i - 1]);
      StepKeepsNothing(cfg, b[i - 1], steps[i - 1], r);
    }
  }

  // ---------- something outstanding: it can be reopened ----------

  const REJECTED := DispatchResult(Permanent, 0)
  const ACKNOWLEDGED := DispatchResult(Accepted, 0)

  /** Recording that an earlier command of the batch failed leaves a later one as it is. */
  lemma EarlierCommandFails(cfg: Settings, s: System, w: WorkerId, k: nat)
    requires Good(cfg, s) && 0 < k < |Batch(s, w)| && ResultApplies(s.db, w, Batch(s, w)[k])
    ensures Enabled(cfg, s, Record(w, REJECTED))
    ensures var s' := Apply(cfg, s, Record(w, REJECTED));
            && Batch(s', w) == Batch(s, w)[1..] && s'.db.runs == s.db.runs
            && ResultApplies(s'.db, w, Batch(s, w)[k])
  {
    hide Good, TaskAfterResult, AgentAfterResult, CanRetry;
    BatchIsDistinct(cfg, s, w, k);
  }

  lemma BatchIsDistinct(cfg: Settings, s: System, w: WorkerId, k: nat)
    requires Good(cfg, s) && 0 < k < |Batch(s, w)|
    ensures Batch(s, w)[0].taskId != Batch(s, w)[k].taskId
  {
    hide Tables, CommandsFit, CommandsApart, LeasesHeld;
  }

  lemma {:induction false} CanReopen(cfg: Settings, s: System, w: WorkerId, k: nat, r: RunId) returns (b: seq<System>, steps: seq<Step>)
    requires ValidSettings(cfg) && Good(cfg, s) && k < |Batch(s, w)|
    requires Batch(s, w)[k].runId == r && ResultApplies(s.db, w, Batch(s, w)[k])
    ensures Continuation(cfg, s, b, steps) && r in b[|b| - 1].db.runs && b[|b| - 1].db.runs[r].status.RunCollecting?
    decreases k
  {
    hide Good, Apply, Enabled, ResultApplies;
    if k == 0 {
      AcknowledgementCollects(cfg, s, w);
      b, steps := [s, Apply(cfg, s, Record(w, ACKNOWLEDGED))], [Record(w, ACKNOWLEDGED)];
    } else {
      var step := Record(w, REJECTED);
      EarlierCommandFails(cfg, s, w, k);
      StepKeepsGood(cfg, s, step);
      var b1, steps1 := CanReopen(cfg, Apply(cfg, s, step), w, k - 1, r);
      b, steps := [s] + b1, [step] + steps1;
      OneStepBefore(cfg, s, step, b1, steps1);
    }
  }

  lemma AcknowledgementCollects(cfg: Settings, s: System, w: WorkerId)
    requires Batch(s, w) != [] && ResultApplies(s.db, w, Batch(s, w)[0])
    ensures Enabled(cfg, s, Record(w, ACKNOWLEDGED))
    ensures var s', r := Apply(cfg, s, Record(w, ACKNOWLEDGED)), Batch(s, w)[0].runId;
            r in s'.db.runs && s'.db.runs[r].status.RunCollecting?
  {
    hide TaskAfterResult, AgentAfterResult;
  }

  lemma OneStepBefore(cfg: Settings, s: System, step: Step, b: seq<System>, steps: seq<Step>)
    requires Enabled(cfg, s, step) && Continuation(cfg, Apply(cfg, s, step), b, steps)
    ensures Continuation(cfg, s, [s] + b, [step] + steps)
  {
    hide Enabled, Apply;
    var c, all := [s] + b, [step] + steps;
    forall i | 0 <= i < |all| ensures Enabled(cfg, c[i], all[i]) && c[i + 1] == Apply(cfg, c[i], all[i]) {
      if i > 0 {
        assert c[i] == b[i - 1] && c[i + 1] == b[i] && all[i] == steps[i - 1];
      }
    }
  }

  // ---------- the exact condition ----------

  /** From `s` on the run keeps its status in every continuation. */
  ghost predicate Final(cfg: Settings, s: System, r: RunId)
    requires r in s.db.runs
  {
    forall b: seq<System>, steps: seq<Step> :: Continuation(cfg, s, b, steps) ==>
      r in b[|b| - 1].db.runs && b[|b| - 1].db.runs[r].status == s.db.runs[r].status
  }

  /** In every reachable state, a finished run is final, whatever any number of workers do from then on, if
      and only if no command of it is in flight whose result would still be recorded. */
  lemma FinalIff(cfg: Settings, b: seq<System>, steps: seq<Step>, i: nat, r: RunId)
    requires ValidSettings(cfg) && Behaviour(cfg, b, steps) && i < |b|
    requires r in b[i].db.runs && Settled(b[i].db.runs[r].status)
    ensures Final(cfg, b[i], r) <==> NothingOutstanding(b[i], r)
  {
    hide Good, Behaviour, Enabled, Apply, ResultApplies;
    EveryStateIsGood(cfg, b, steps, i);
    var s := b[i];
    if NothingOutstanding(s, r) {
      hide NothingOutstanding;
      forall d: seq<System>, more: seq<Step> | Continuation(cfg, s, d, more)
        ensures r in d[|d| - 1].db.runs && d[|d| - 1].db.runs[r].status == s.db.runs[r].status
      {
        FinalForEver(cfg, s, d, more, |d| - 1, r);
      }
    } else {
      var w, c :| Outstanding(s, w, c, r);
      var k :| 0 <= k < |s.inflight[w]| && s.inflight[w][k] == c;
      var d, more := CanReopen(cfg, s, w, k, r);
      assert Continuation(cfg, s, d, more);
    }
  }
}
