/** The circuit breaker of an agent against the history of its results. */
module Circuits {
  import opened Rows
  import opened Dispatch
  import opened Protocol
  import opened Agreement
  import opened Leases

  /** How many results in a row have failed since the latest acknowledgement. */
  function TrailingFailures(rs: seq<ResultEntry>): nat {
    if rs == [] || rs[|rs| - 1].ok then 0 else 1 + TrailingFailures(rs[..|rs| - 1])
  }

  /** The circuit is a function of the recorded results and of the time, up to the moment at which
      the first claim after the cooldown half-opens it. */
  predicate CircuitRefines(cfg: Settings, st: AgentState, rs: seq<ResultEntry>, now: Time) {
    && st.failures == TrailingFailures(rs)
    && (st.circuit.Closed? <==> st.failures < cfg.threshold)
    && (st.failures >= cfg.threshold ==>
          && rs != []
          && (st.circuit.Open? ==> st.openUntil == Some(rs[|rs| - 1].at + cfg.openFor))
          && (st.circuit.HalfOpen? ==> rs[|rs| - 1].at + cfg.openFor <= now))
  }

  ghost predicate CircuitsRefine(cfg: Settings, s: System) {
    && (forall a :: a in s.db.agents ==> CircuitRefines(cfg, s.db.agents[a], ResultsOf(s.history, a), s.now))
    && (forall a :: a !in s.db.agents ==> ResultsOf(s.history, a) == [])
  }

  lemma ClaimedAgentRefines(cfg: Settings, s: System, endpoints: set<AgentId>, ids: set<TaskId>, a: AgentId)
    requires ValidSettings(cfg) && CircuitsRefine(cfg, s) && ids <= s.db.tasks.Keys
    ensures CircuitRefines(cfg, ClaimedAgent(s.db, endpoints, s.now, ids, a), ResultsOf(s.history, a), s.now)
  {
    assert a in s.db.agents ==> CircuitRefines(cfg, s.db.agents[a], ResultsOf(s.history, a), s.now);
  }

  lemma ClaimKeepsCircuits(cfg: Settings, s: System, w: WorkerId, endpoints: set<AgentId>, rows: seq<TaskId>, locked: set<TaskId>)
    requires ValidSettings(cfg) && CircuitsRefine(cfg, s)
    requires IsFirst(ClaimKeys(s.db.tasks, s.now, locked), cfg.batchSize, rows)
    ensures CircuitsRefine(cfg, DoClaim(cfg, s, w, endpoints, rows))
  {
    ClaimSends(cfg, s, w, endpoints, rows, locked);
    hide Commands, IsFirst, ClaimedAgent, ClaimedTask, CircuitRefines, ClaimOutcomeOf;
    var s' := DoClaim(cfg, s, w, endpoints, rows);
    forall a | a in s'.db.agents ensures CircuitRefines(cfg, s'.db.agents[a], ResultsOf(s'.history, a), s'.now) {
      ClaimedAgentRefines(cfg, s, endpoints, Elems(rows), a);
    }
  }

  lemma RecordKeepsCircuits(cfg: Settings, s: System, w: WorkerId, res: DispatchResult)
    requires ValidSettings(cfg) && CircuitsRefine(cfg, s) && Batch(s, w) != []
    ensures CircuitsRefine(cfg, DoRecord(cfg, s, w, res))
  {
    hide TaskAfterResult, CanRetry;
    var s' := DoRecord(cfg, s, w, res);
    var c := Batch(s, w)[0];
    if ResultApplies(s.db, w, c) {
      var rs, rs' := ResultsOf(s.history, c.agentId), ResultsOf(s'.history, c.agentId);
      assert rs'[..|rs'| - 1] == rs;
      assert CircuitRefines(cfg, s.db.agents[c.agentId], rs, s.now);
      assert CircuitRefines(cfg, s'.db.agents[c.agentId], rs', s.now);
    }
  }

  lemma PassiveKeepsCircuits(cfg: Settings, s: System, s': System)
    requires CircuitsRefine(cfg, s) && Passive(s, s')
    ensures CircuitsRefine(cfg, s')
  {
  }

  lemma StepKeepsCircuits(cfg: Settings, s: System, step: Step)
    requires ValidSettings(cfg) && Tables(s) && CircuitsRefine(cfg, s) && Enabled(cfg, s, step)
    ensures CircuitsRefine(cfg, Apply(cfg, s, step))
  {
    hide Tables, CircuitsRefine, DoPlan, DoClaim, DoRecord, DoIngest, DoEvaluate, IsFirst, Passive;
    match step
    case Claim(w, endpoints, rows, locked) => ClaimKeepsCircuits(cfg, s, w, endpoints, rows, locked);
    case Record(w, res) => RecordKeepsCircuits(cfg, s, w, res);
    case _ =>
      OtherStepsArePassive(cfg, s, step);
      PassiveKeepsCircuits(cfg, s, Apply(cfg, s, step));
  }

  /** A claim dispatches to an agent whose failures reached the threshold only when the cooldown
      after its latest failure is over. */
  lemma DispatchRespectsCooldown(cfg: Settings, s: System, endpoints: set<AgentId>, t: Task)
    requires ValidSettings(cfg) && CircuitsRefine(cfg, s)
    requires ClaimOutcomeOf(s.db, endpoints, s.now, t).Started?
    requires TrailingFailures(ResultsOf(s.history, t.agentId)) >= cfg.threshold
    ensures var rs := ResultsOf(s.history, t.agentId);
            rs != [] && !rs[|rs| - 1].ok && rs[|rs| - 1].at + cfg.openFor <= s.now
  {
    assert t.agentId in s.db.agents;
    assert CircuitRefines(cfg, s.db.agents[t.agentId], ResultsOf(s.history, t.agentId), s.now);
  }

  /** TrailingFailures counts the failures after the latest acknowledgement. */
  lemma {:induction false} TrailingFailuresMeaning(rs: seq<ResultEntry>)
    ensures var n := TrailingFailures(rs);
            && n <= |rs|
            && (forall i :: |rs| - n <= i < |rs| ==> !rs[i].ok)
            && (n < |rs| ==> rs[|rs| - n - 1].ok)
  {
    if rs != [] && !rs[|rs| - 1].ok {
      var init := rs[..|rs| - 1];
      TrailingFailuresMeaning(init);
      forall i | |rs| - TrailingFailures(rs) <= i < |rs| ensures !rs[i].ok {
        assert i < |init| ==> init[i] == rs[i];
      }
    }
  }
}
