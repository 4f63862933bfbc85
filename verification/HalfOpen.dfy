/** How many probes a half-open circuit lets through. */
module HalfOpen {
  import opened Rows
  import opened Dispatch
  import opened Protocol
  import opened Leases
  import opened DispatchWorkers
  import opened Scenarios

  /** The circuit lets dispatches through to find out whether the agent has recovered. */
  predicate Probing(st: AgentState, now: Time) {
    st.circuit.HalfOpen? || (st.circuit.Open? && !CoolingDown(st, now))
  }

  /** A selected row that asks for a dispatch to agent `a`: its run is unfinished and the agent has an endpoint. */
  predicate AsksFor(db: Db, endpoints: set<AgentId>, id: TaskId, a: AgentId) {
    && id in db.tasks && db.tasks[id].agentId == a && a in endpoints
    && db.tasks[id].runId in db.runs && !ClaimRefused(db.runs[db.tasks[id].runId].status)
  }

  predicate InFlightTo(s: System, w: WorkerId, c: Command, a: AgentId) {
    w in s.inflight && c in s.inflight[w] && c.agentId == a
  }

  /** No two commands in flight go to agent `a`. */
  ghost predicate AtMostOneInFlight(s: System, a: AgentId) {
    forall w, w', c, c' :: InFlightTo(s, w, c, a) && InFlightTo(s, w', c', a) ==> w == w' && c == c'
  }

  ghost predicate NoneInFlight(s: System, a: AgentId) {
    forall w, c :: !InFlightTo(s, w, c, a)
  }

  ghost predicate AtMostOneAsks(db: Db, endpoints: set<AgentId>, rows: seq<TaskId>, a: AgentId) {
    forall id, id' :: id in rows && AsksFor(db, endpoints, id, a) && id' in rows && AsksFor(db, endpoints, id', a) ==> id == id'
  }

  ghost predicate NoneAsks(db: Db, endpoints: set<AgentId>, rows: seq<TaskId>, a: AgentId) {
    forall id :: id in rows ==> !AsksFor(db, endpoints, id, a)
  }

  /** The commands of a claim to a probing agent are exactly those of the rows that ask for it. */
  lemma ProbesAreTheRowsThatAsk(cfg: Settings, s: System, w: WorkerId, endpoints: set<AgentId>, rows: seq<TaskId>, locked: set<TaskId>, a: AgentId)
    requires IsFirst(ClaimKeys(s.db.tasks, s.now, locked), cfg.batchSize, rows)
    requires a in s.db.agents && Probing(s.db.agents[a], s.now)
    ensures var sent := DoClaim(cfg, s, w, endpoints, rows).inflight[w];
            && (forall c :: c in sent && c.agentId == a ==>
                  c.taskId in rows && AsksFor(s.db, endpoints, c.taskId, a) && c == CommandFor(cfg, s.now, c.taskId, s.db.tasks[c.taskId]))
            && (forall id :: id in rows && AsksFor(s.db, endpoints, id, a) ==> CommandFor(cfg, s.now, id, s.db.tasks[id]) in sent)
  {
    hide Commands, KeyLess;
    CommandsAreStarts(cfg, s.db, endpoints, s.now, rows);
    hide IsFirst, Claimed;
  }

  /** A claim keeps to one probe if and only if at most one of its rows asks for the agent: the code
      itself counts nothing. Over all workers, one probe is in flight afterwards if and only if there
      was no more than one before and no row asks, or there was none and no more than one row asks. */
  lemma OneProbeIff(cfg: Settings, s: System, w: WorkerId, endpoints: set<AgentId>, rows: seq<TaskId>, locked: set<TaskId>, a: AgentId)
    requires IsFirst(ClaimKeys(s.db.tasks, s.now, locked), cfg.batchSize, rows) && Batch(s, w) == []
    requires a in s.db.agents && Probing(s.db.agents[a], s.now)
    ensures var s' := DoClaim(cfg, s, w, endpoints, rows);
            && ((forall c, c' :: c in s'.inflight[w] && c.agentId == a && c' in s'.inflight[w] && c'.agentId == a ==> c == c')
                <==> AtMostOneAsks(s.db, endpoints, rows, a))
            && (AtMostOneInFlight(s', a) <==>
                  || (AtMostOneInFlight(s, a) && NoneAsks(s.db, endpoints, rows, a))
                  || (NoneInFlight(s, a) && AtMostOneAsks(s.db, endpoints, rows, a)))
  {
    hide IsFirst, Commands, Claimed, ClaimKeys, AsksFor, Probing;
    SelectedTasks(s.db.tasks, s.now, locked, cfg.batchSize, rows);
    ProbesAreTheRowsThatAsk(cfg, s, w, endpoints, rows, locked, a);
    var s' := DoClaim(cfg, s, w, endpoints, rows);
    assert forall v :: v in s.inflight && v != w ==> v in s'.inflight && s'.inflight[v] == s.inflight[v];
    assert forall id :: id in rows && AsksFor(s.db, endpoints, id, a) ==>
      CommandFor(cfg, s.now, id, s.db.tasks[id]) in s'.inflight[w] && CommandFor(cfg, s.now, id, s.db.tasks[id]).agentId == a by {
      RowsThatAsk(s.db, endpoints, a);
    }
    SentAndKept(s, s', w, a);
  }

  lemma RowsThatAsk(db: Db, endpoints: set<AgentId>, a: AgentId)
    ensures forall id :: AsksFor(db, endpoints, id, a) ==> id in db.tasks && db.tasks[id].agentId == a
  {
  }

  /** In flight afterwards: what the others had, and what the worker was sent. */
  lemma SentAndKept(s: System, s': System, w: WorkerId, a: AgentId)
    requires Batch(s, w) == [] && w in s'.inflight && s'.inflight == s.inflight[w := s'.inflight[w]]
    ensures var none := forall c :: c in s'.inflight[w] ==> c.agentId != a;
            var one := forall c, c' :: c in s'.inflight[w] && c.agentId == a && c' in s'.inflight[w] && c'.agentId == a ==> c == c';
            AtMostOneInFlight(s', a) <==> (AtMostOneInFlight(s, a) && none) || (NoneInFlight(s, a) && one)
  {
    var none := forall c :: c in s'.inflight[w] ==> c.agentId != a;
    forall v, c ensures InFlightTo(s', v, c, a) <==> InFlightTo(s, v, c, a) || (v == w && c in s'.inflight[w] && c.agentId == a) {}
    if AtMostOneInFlight(s', a) && !none {
      var c :| c in s'.inflight[w] && c.agentId == a;
      assert InFlightTo(s', w, c, a);
      forall v, d ensures !InFlightTo(s, v, d, a) {
        assert InFlightTo(s, v, d, a) ==> InFlightTo(s', v, d, a) && v != w;
      }
      forall d, d' | d in s'.inflight[w] && d.agentId == a && d' in s'.inflight[w] && d'.agentId == a ensures d == d' {
        assert InFlightTo(s', w, d, a) && InFlightTo(s', w, d', a);
      }
    }
  }

  // ---------- a run with two probes ----------

  /** A task of the agent fails for good; the failure may open the circuit. */
  lemma AnotherTaskFails(cfg: Settings, s: System, failures: nat) returns (s': System)
    requires ValidSettings(cfg) && Reachable(cfg, NO_BACKOFF, s) && Batch(s, 1) == [] && s.inflight.Keys <= {1}
    requires StateOf(s.db.agents, AGENT) == AgentState(failures, Closed, None)
    ensures Reachable(cfg, NO_BACKOFF, s') && s'.now == s.now && Batch(s', 1) == [] && s'.inflight.Keys <= {1}
    ensures AGENT in s'.db.agents
    ensures s'.db.agents[AGENT] ==
            if failures + 1 >= cfg.threshold then AgentState(failures + 1, Open, Some(s.now + cfg.openFor))
            else AgentState(failures + 1, Closed, None)
  {
    hide Reachable, Apply, Enabled, TaskAfterResult, NewRun;
    var r := Fresh(s.db.runs.Keys);
    var id := Fresh(s.db.tasks.Keys);
    PlanOneTask(cfg, s, r, id, 1);
    assert !ClaimRefused(NewRun(s.now, 1).status) by { NewRunIsOpen(s.now); }
    StepIsReachable(cfg, NO_BACKOFF, s, PlanOne(s.now, r, id, 1));
    var s1 := Apply(cfg, s, PlanOne(s.now, r, id, 1));
    ClaimOneTask(cfg, s1, 1, id);
    StepIsReachable(cfg, NO_BACKOFF, s1, ClaimOne(s1, 1, id));
    var s2 := Apply(cfg, s1, ClaimOne(s1, 1, id));
    var res := DispatchResult(Permanent, 0);
    RecordOne(cfg, s2, 1, id, res);
    StepIsReachable(cfg, NO_BACKOFF, s2, Record(1, res));
    s' := Apply(cfg, s2, Record(1, res));
  }

  lemma NewRunIsOpen(now: Time)
    ensures !ClaimRefused(NewRun(now, 1).status)
  {
  }

  /** As many failures as the threshold open the circuit. */
  lemma {:induction false} CircuitOpens(cfg: Settings, s: System, failures: nat) returns (s': System)
    requires ValidSettings(cfg) && Reachable(cfg, NO_BACKOFF, s) && Batch(s, 1) == [] && s.inflight.Keys <= {1}
    requires StateOf(s.db.agents, AGENT) == AgentState(failures, Closed, None) && failures < cfg.threshold
    ensures Reachable(cfg, NO_BACKOFF, s') && s'.now == s.now && Batch(s', 1) == [] && s'.inflight.Keys <= {1}
    ensures AGENT in s'.db.agents && s'.db.agents[AGENT] == AgentState(cfg.threshold, Open, Some(s.now + cfg.openFor))
    decreases cfg.threshold - failures
  {
    hide Reachable;
    s' := AnotherTaskFails(cfg, s, failures);
    if failures + 1 < cfg.threshold {
      s' := CircuitOpens(cfg, s', failures + 1);
    }
  }

  /** A worker sends a new task to the agent while its circuit is being probed. */
  lemma SendProbe(cfg: Settings, s: System, w: WorkerId) returns (s': System, c: Command)
    requires ValidSettings(cfg) && Reachable(cfg, NO_BACKOFF, s) && Batch(s, w) == []
    requires AGENT in s.db.agents && Probing(s.db.agents[AGENT], s.now)
    ensures Reachable(cfg, NO_BACKOFF, s') && s'.now == s.now && s'.inflight == s.inflight[w := [c]]
    ensures c.agentId == AGENT && Live(c, s.now) && c.taskId !in s.db.tasks && c.taskId in s'.db.tasks
    ensures AGENT in s'.db.agents && s'.db.agents[AGENT].circuit.HalfOpen?
  {
    hide Reachable, Apply, Enabled;
    var r := Fresh(s.db.runs.Keys);
    var id := Fresh(s.db.tasks.Keys);
    PlanOneTask(cfg, s, r, id, 1);
    StepIsReachable(cfg, NO_BACKOFF, s, PlanOne(s.now, r, id, 1));
    var s1 := Apply(cfg, s, PlanOne(s.now, r, id, 1));
    ClaimOneTask(cfg, s1, w, id);
    StepIsReachable(cfg, NO_BACKOFF, s1, ClaimOne(s1, w, id));
    s' := Apply(cfg, s1, ClaimOne(s1, w, id));
    c := CommandFor(cfg, s1.now, id, s1.db.tasks[id]);
  }

  /** With every valid configuration there is a run of the protocol in which two live probes of two
      different tasks are on their way to one agent while its circuit is half-open. */
  lemma TwoProbes(cfg: Settings) returns (b: seq<System>, steps: seq<Step>, c: Command, c': Command)
    requires ValidSettings(cfg)
    ensures Behaviour(cfg, b, steps)
    ensures var s := b[|b| - 1];
            && AGENT in s.db.agents && s.db.agents[AGENT].circuit.HalfOpen?
            && c.taskId != c'.taskId && Live(c, s.now) && Live(c', s.now)
            && InFlightTo(s, 1, c, AGENT) && InFlightTo(s, 2, c', AGENT)
            && !AtMostOneInFlight(s, AGENT)
  {
    var s0 := System(0, Db(map[], map[], map[], map[], {}), map[], History(map[], map[], map[], map[], map[]));
    InitIsReachable(cfg, NO_BACKOFF, s0);
    hide Reachable;
    var s1 := CircuitOpens(cfg, s0, 0);
    Elapse(cfg, NO_BACKOFF, s1, cfg.openFor);
    var s2, s3;
    s2, c := SendProbe(cfg, s1.(now := s1.now + cfg.openFor), 1);
    s3, c' := SendProbe(cfg, s2, 2);
    assert InFlightTo(s3, 1, c, AGENT) && InFlightTo(s3, 2, c', AGENT);
    b, steps := RunTo(cfg, NO_BACKOFF, s3);
  }
}
