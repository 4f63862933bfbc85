/** The dispatch worker, as the transactions that it runs. */
module DispatchWorkers {
  import opened Rows
  import opened Dispatch
  import opened Store

  /** Visiting one more claimed row: the loop over the rows refines the row-by-row description,
      although each visit reads circuits that earlier visits may have half-opened. */
  lemma ClaimOneMore(cfg: Settings, db: Db, w: WorkerId, endpoints: set<AgentId>, now: Time, ids: set<TaskId>, id: TaskId)
    requires ids <= db.tasks.Keys && id in db.tasks && id !in ids
    ensures var t := db.tasks[id];
            var before := Claimed(cfg, db, w, endpoints, now, ids);
            var after := Claimed(cfg, db, w, endpoints, now, ids + {id});
            var st := StateOf(before.agents, t.agentId);
            && before.tasks[id] == t
            && (CoolingDown(st, now) <==> CoolingDown(StateOf(db.agents, t.agentId), now))
            && st.openUntil == StateOf(db.agents, t.agentId).openUntil
            && after.tasks == before.tasks[id := ClaimedTask(cfg, db, w, endpoints, now, t)]
            && after.agents == before.agents[t.agentId :=
                 if ClaimOutcomeOf(db, endpoints, now, t).Started? && st.circuit.Open? then st.(circuit := HalfOpen) else st]
  {
    hide ClaimedTask, ClaimedAgent;
    var t := db.tasks[id];
    var before := Claimed(cfg, db, w, endpoints, now, ids);
    var after := Claimed(cfg, db, w, endpoints, now, ids + {id});
    assert after.tasks == before.tasks[id := ClaimedTask(cfg, db, w, endpoints, now, t)];
    AgentOneMore(db, endpoints, now, ids, id);
    hide ClaimOutcomeOf, CoolingDown;
    AgentsOneMore(cfg, db, w, endpoints, now, ids, id);
  }

  /** The circuit of the row's agent, before and after the visit. */
  lemma AgentOneMore(db: Db, endpoints: set<AgentId>, now: Time, ids: set<TaskId>, id: TaskId)
    requires ids <= db.tasks.Keys && id in db.tasks
    ensures var t := db.tasks[id];
            var st, st' := ClaimedAgent(db, endpoints, now, ids, t.agentId), ClaimedAgent(db, endpoints, now, ids + {id}, t.agentId);
            && (CoolingDown(st, now) <==> CoolingDown(StateOf(db.agents, t.agentId), now))
            && st.openUntil == StateOf(db.agents, t.agentId).openUntil
            && st' == if ClaimOutcomeOf(db, endpoints, now, t).Started? && st.circuit.Open? then st.(circuit := HalfOpen) else st
    ensures forall a :: a != db.tasks[id].agentId ==>
              ClaimedAgent(db, endpoints, now, ids + {id}, a) == ClaimedAgent(db, endpoints, now, ids, a)
  {
    hide ClaimOutcomeOf, StartsOn;
    StartsOneMore(db, endpoints, now, ids, id);
  }

  lemma AgentsOneMore(cfg: Settings, db: Db, w: WorkerId, endpoints: set<AgentId>, now: Time, ids: set<TaskId>, id: TaskId)
    requires ids <= db.tasks.Keys && id in db.tasks
    ensures var a := db.tasks[id].agentId;
            var before, after := Claimed(cfg, db, w, endpoints, now, ids), Claimed(cfg, db, w, endpoints, now, ids + {id});
            && after.agents == before.agents[a := ClaimedAgent(db, endpoints, now, ids + {id}, a)]
            && StateOf(before.agents, a) == ClaimedAgent(db, endpoints, now, ids, a)
  {
    AgentOneMore(db, endpoints, now, ids, id);
    NoStartNoChange(db, endpoints, now, ids, db.tasks[id].agentId);
    hide ClaimedTask, ClaimOutcomeOf, ClaimedAgent, CoolingDown;
    var before, after := Claimed(cfg, db, w, endpoints, now, ids), Claimed(cfg, db, w, endpoints, now, ids + {id});
    assert after.agents.Keys == before.agents.Keys + {db.tasks[id].agentId};
  }

  /** An agent that is neither stored nor touched is as fresh after the claim. */
  lemma NoStartNoChange(db: Db, endpoints: set<AgentId>, now: Time, ids: set<TaskId>, a: AgentId)
    requires ids <= db.tasks.Keys
    ensures a !in db.agents ==> ClaimedAgent(db, endpoints, now, ids, a) == FRESH_AGENT
  {
  }

  lemma StartsOneMore(db: Db, endpoints: set<AgentId>, now: Time, ids: set<TaskId>, id: TaskId)
    requires ids <= db.tasks.Keys && id in db.tasks
    ensures forall a :: StartsOn(db, endpoints, now, ids + {id}, a) <==>
              StartsOn(db, endpoints, now, ids, a)
              || (a == db.tasks[id].agentId && ClaimOutcomeOf(db, endpoints, now, db.tasks[id]).Started?)
    ensures forall a :: StartsOn(db, endpoints, now, ids, a) ==> !CoolingDown(StateOf(db.agents, a), now)
  {
    hide CoolingDown;
  }

  lemma SelectedTasks(tasks: map<TaskId, Task>, now: Time, locked: set<TaskId>, limit: nat, rows: seq<TaskId>)
    requires IsFirst(ClaimKeys(tasks, now, locked), limit, rows)
    ensures Distinct(rows) && forall i :: 0 <= i < |rows| ==> rows[i] in tasks
  {
  }

  lemma ClaimedNone(cfg: Settings, db: Db, w: WorkerId, endpoints: set<AgentId>, now: Time)
    ensures Claimed(cfg, db, w, endpoints, now, {}) == db
  {
    assert Claimed(cfg, db, w, endpoints, now, {}).tasks == db.tasks;
    assert Claimed(cfg, db, w, endpoints, now, {}).agents == db.agents;
  }

  class DispatchWorker {
    const workerId: WorkerId
    const cfg: Settings
    const db: Database
    const clock: Clock

    constructor (workerId: WorkerId, cfg: Settings, db: Database, clock: Clock)
      ensures this.workerId == workerId && this.cfg == cfg && this.db == db && this.clock == clock
    {
      this.workerId, this.cfg, this.db, this.clock := workerId, cfg, db, clock;
    }

    /** Leases a batch of tasks. Rows in `locked` belong to other transactions and are skipped. */
    method Claim(now: Time, endpoints: set<AgentId>, locked: set<TaskId>) returns (commands: seq<Command>, ghost rows: seq<TaskId>)
      modifies db
      ensures IsFirst(ClaimKeys(old(db.tasks), now, locked), cfg.batchSize, rows)
      ensures db.View() == Claimed(cfg, old(db.View()), workerId, endpoints, now, Elems(rows))
      ensures commands == Commands(cfg, old(db.View()), endpoints, now, rows)
    {
      hide Claimed, ClaimKeys, ClaimOutcomeOf, CommandFor, IsFirst;
      ghost var db0 := db.View();
      commands := [];
      var selected := TakeFirst(ClaimKeys(db.tasks, now, locked), cfg.batchSize);
      rows := selected;
      SelectedTasks(db.tasks, now, locked, cfg.batchSize, rows);
      assert Elems(rows[..0]) == {};
      ClaimedNone(cfg, db0, workerId, endpoints, now);
      for i := 0 to |selected|
        invariant db.View() == Claimed(cfg, db0, workerId, endpoints, now, Elems(rows[..i]))
        invariant commands == Commands(cfg, db0, endpoints, now, rows[..i])
      {
        ghost var before := db.View();
        var c := ClaimRow(now, endpoints, selected[i], db0, Elems(rows[..i]));
        commands := commands + c;
        assert rows[..i + 1][..i] == rows[..i];
        assert Elems(rows[..i + 1]) == Elems(rows[..i]) + {rows[i]};
      }
      assert rows[..|rows|] == rows;
    }

    /** One turn of the claim's loop. */
    method ClaimRow(now: Time, endpoints: set<AgentId>, id: TaskId, ghost db0: Db, ghost ids: set<TaskId>) returns (sent: seq<Command>)
      requires ids <= db0.tasks.Keys && id in db0.tasks && id !in ids
      requires db.View() == Claimed(cfg, db0, workerId, endpoints, now, ids)
      modifies db
      ensures db.View() == Claimed(cfg, db0, workerId, endpoints, now, ids + {id})
      ensures sent == if ClaimOutcomeOf(db0, endpoints, now, db0.tasks[id]).Started?
                      then [CommandFor(cfg, now, id, db0.tasks[id])] else []
    {
      ClaimOneMore(cfg, db0, workerId, endpoints, now, ids, id);
      hide ClaimedAgent, StartsOn;
      sent := [];
      var task := db.tasks[id];
      if task.agentId !in db.agents {
        db.agents := db.agents[task.agentId := FRESH_AGENT];
      }
      var state := db.agents[task.agentId];
      if task.runId !in db.runs || ClaimRefused(db.runs[task.runId].status) {
        db.tasks := db.tasks[id := task.(status := Cancelled)];
      } else if task.agentId !in endpoints {
        db.tasks := db.tasks[id := task.(status := Failed)];
      } else if state.circuit.Open? && state.openUntil.Some? && now < state.openUntil.value {
        db.tasks := db.tasks[id := task.(status := Retry, dispatchAfter := state.openUntil.value)];
      } else {
        if state.circuit.Open? {
          db.agents := db.agents[task.agentId := state.(circuit := HalfOpen)];
        }
        db.tasks := db.tasks[id := task.(
          status := Dispatching, attempts := task.attempts + 1,
          leaseOwner := Some(workerId), leaseUntil := Some(now + cfg.lease))];
        sent := [Command(id, task.runId, task.agentId, task.attempts + 1, now + cfg.lease)];
      }
    }

    /** Records the transport's answer to a command. */
    method RecordResult(now: Time, command: Command, result: DispatchResult)
      modifies db
      ensures db.View() == Recorded(cfg, old(db.View()), workerId, now, command, result)
    {
      if command.taskId !in db.tasks || command.agentId !in db.agents || command.runId !in db.runs {
        return;
      }
      var task := db.tasks[command.taskId];
      if task.status.SignalReceived? {
        return;
      }
      if !task.status.Dispatching? || task.leaseOwner != Some(workerId) {
        return;
      }
      task := task.(leaseOwner := None, leaseUntil := None);
      var state := db.agents[command.agentId];
      if result.disposition.Accepted? {
        task := task.(status := WaitingSignal);
        state := AgentState(0, Closed, None);
        db.runs := db.runs[command.runId := db.runs[command.runId].(status := RunCollecting)];
      } else {
        state := state.(failures := state.failures + 1);
        if state.failures >= cfg.threshold {
          state := state.(circuit := Open, openUntil := Some(now + cfg.openFor));
        }
        if result.disposition.Retryable? && task.attempts < cfg.maxAttempts && now < task.dispatchDeadline {
          var retryAt := now + result.delay;
          if state.circuit.Open? && state.openUntil.Some? && retryAt < state.openUntil.value {
            retryAt := state.openUntil.value;
          }
          task := task.(status := Retry, dispatchAfter := retryAt);
        } else {
          task := task.(status := Failed);
        }
      }
      db.tasks := db.tasks[command.taskId := task];
      db.agents := db.agents[command.agentId := state];
    }

    /** Claims a batch and works it off: one transport call and one recorded result for each command.
        `results` is what the transport answers to each attempt. */
    method DispatchOnce(endpoints: set<AgentId>, locked: set<TaskId>, results: (TaskId, nat) -> DispatchResult)
      returns (count: nat, ghost rows: seq<TaskId>, ghost start: Time, ghost times: seq<Time>)
      modifies db, clock
      ensures old(clock.time) <= start && Readings(start, times, clock.time)
      ensures IsFirst(ClaimKeys(old(db.tasks), start, locked), cfg.batchSize, rows)
      ensures var commands := Commands(cfg, old(db.View()), endpoints, start, rows);
              && count == |commands| == |times|
              && db.View() == RecordedAll(cfg, workerId, results,
                   Claimed(cfg, old(db.View()), workerId, endpoints, start, Elems(rows)), commands, times)
    {
      hide Claimed, Commands, Recorded, IsFirst, ClaimKeys, Readings;
      var now := clock.Now();
      start := now;
      var commands;
      commands, rows := Claim(now, endpoints, locked);
      ghost var claimed := db.View();
      times := [];
      NoReading(start);
      for i := 0 to |commands|
        invariant |times| == i && Readings(start, times, clock.time)
        invariant db.View() == RecordedAll(cfg, workerId, results, claimed, commands[..i], times)
      {
        ghost var before := clock.time;
        now := clock.Now();
        NextReading(start, times, before, now);
        RecordResult(now, commands[i], results(commands[i].taskId, commands[i].attempt));
        times := times + [now];
        assert commands[..i + 1][..i] == commands[..i] && times[..i] == times[..|times| - 1];
      }
      assert commands[..|commands|] == commands;
      count := |commands|;
    }

    /** Times out the tasks whose dispatch deadline has passed. */
    method ExpireDispatchDeadlines(now: Time, locked: set<TaskId>) returns (expired: nat)
      modifies db
      ensures db.View() == Expired(old(db.View()), now, locked)
      ensures expired == |OverdueTasks(old(db.View()), now, locked)|
    {
      var overdue := set id | id in db.tasks && id !in locked && Overdue(db.tasks[id], now);
      ghost var db0 := db.View();
      assert overdue == OverdueTasks(db0, now, locked);
      var todo := overdue;
      expired := 0;
      while todo != {}
        invariant todo <= overdue && expired == |overdue| - |todo|
        invariant db.View() == db0.(tasks := db.tasks)
        invariant db.tasks.Keys == db0.tasks.Keys
        invariant forall id :: id in db0.tasks ==>
                    db.tasks[id] == (if id in overdue && id !in todo then ExpiredTask(db0.tasks[id]) else db0.tasks[id])
        decreases todo
      {
        var id :| id in todo;
        db.tasks := db.tasks[id := db.tasks[id].(status := TimedOut, leaseOwner := None, leaseUntil := None)];
        expired := expired + 1;
        todo := todo - {id};
      }
      assert db.tasks == Expired(db0, now, locked).tasks;
    }
  }

  /** The results of a batch, recorded one after the other. */
  ghost function RecordedAll(cfg: Settings, w: WorkerId, results: (TaskId, nat) -> DispatchResult, db: Db,
                             commands: seq<Command>, times: seq<Time>): Db
    requires |times| == |commands|
  {
    if commands == [] then db else
      var n := |commands| - 1;
      Recorded(cfg, RecordedAll(cfg, w, results, db, commands[..n], times[..n]), w, times[n], commands[n],
               results(commands[n].taskId, commands[n].attempt))
  }
}
