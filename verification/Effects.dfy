/** What every transaction writes, told from the rows before and after it. */
module Effects {
  import opened Rows
  import opened Dispatch
  import opened Ingestion
  import opened Recovery
  import opened Quorum
  import opened Planner

  // ---------- claim ----------

  predicate Finished(st: RunStatus) {
    !st.RunCreated? && !st.RunDispatching? && !st.RunCollecting?
  }

  predicate CircuitBlocks(db: Db, a: AgentId, now: Time) {
    a in db.agents && db.agents[a].circuit.Open? && db.agents[a].openUntil.Some? && now < db.agents[a].openUntil.value
  }

  /** A claimed task is cancelled when its run is over, fails when its agent has no endpoint, waits for an
      open circuit, and is leased to the worker otherwise. A task that is not claimed keeps its row. */
  lemma ClaimWrites(cfg: Settings, db: Db, w: WorkerId, endpoints: set<AgentId>, now: Time, ids: set<TaskId>, id: TaskId)
    requires ids <= db.tasks.Keys && id in db.tasks
    ensures var db' := Claimed(cfg, db, w, endpoints, now, ids);
            && db'.runs == db.runs && db'.signals == db.signals && db'.nonces == db.nonces
            && db'.tasks.Keys == db.tasks.Keys
            && var t, t' := db.tasks[id], db'.tasks[id];
               var over := t.runId !in db.runs || Finished(db.runs[t.runId].status);
               var served := t.agentId in endpoints;
               var blocked := CircuitBlocks(db, t.agentId, now);
               && (id !in ids ==> t' == t)
               && (id in ids ==>
                     && (over ==> t' == t.(status := Cancelled))
                     && (!over && !served ==> t' == t.(status := Failed))
                     && (!over && served && blocked ==>
                           t' == t.(status := Retry, dispatchAfter := db.agents[t.agentId].openUntil.value))
                     && (!over && served && !blocked ==>
                           t' == t.(status := Dispatching, attempts := t.attempts + 1,
                                    leaseOwner := Some(w), leaseUntil := Some(now + cfg.lease))))
  {
    hide ClaimedAgent;
  }

  /** A circuit becomes HALF_OPEN exactly when it was OPEN and a dispatch to its agent starts; nothing else
      about a known agent changes, and a new agent starts with a closed circuit. */
  lemma ClaimWritesAgents(cfg: Settings, db: Db, w: WorkerId, endpoints: set<AgentId>, now: Time, ids: set<TaskId>, a: AgentId)
    requires ids <= db.tasks.Keys
    ensures var db' := Claimed(cfg, db, w, endpoints, now, ids);
            var starts := exists id :: id in ids && db.tasks[id].agentId == a && db'.tasks[id].attempts > db.tasks[id].attempts;
            && (a in db'.agents <==> a in db.agents || exists id :: id in ids && db.tasks[id].agentId == a)
            && (a in db.agents ==>
                  db'.agents[a] == if db.agents[a].circuit.Open? && starts then db.agents[a].(circuit := HalfOpen) else db.agents[a])
            && (a in db'.agents && a !in db.agents ==> db'.agents[a] == AgentState(0, Closed, None))
  {
    var db' := Claimed(cfg, db, w, endpoints, now, ids);
    forall id | id in ids
      ensures db'.tasks[id].attempts > db.tasks[id].attempts <==> ClaimOutcomeOf(db, endpoints, now, db.tasks[id]).Started?
    {
      AttemptStarts(cfg, db, w, endpoints, now, db.tasks[id]);
    }
    hide ClaimedTask, ClaimOutcomeOf;
  }

  lemma AttemptStarts(cfg: Settings, db: Db, w: WorkerId, endpoints: set<AgentId>, now: Time, t: Task)
    ensures ClaimedTask(cfg, db, w, endpoints, now, t).attempts > t.attempts <==> ClaimOutcomeOf(db, endpoints, now, t).Started?
  {
  }

  /** May the task be claimed at this time? */
  lemma ClaimableWhen(t: Task, now: Time)
    ensures t.status.Pending? || t.status.Retry? ==> (Claimable(t, now) <==> t.dispatchAfter <= now < t.dispatchDeadline)
    // a lease that ends now still holds
    ensures t.status.Dispatching? ==> (Claimable(t, now) <==> t.leaseUntil.Some? && t.leaseUntil.value < now < t.dispatchDeadline)
    ensures !t.status.Pending? && !t.status.Retry? && !t.status.Dispatching? ==> !Claimable(t, now)
  {
  }

  /** Claims go by priority, then by age: no task that is left waiting comes before a claimed one. */
  lemma ClaimsByPriority(tasks: map<TaskId, Task>, now: Time, locked: set<TaskId>, limit: nat, rows: seq<TaskId>, id: TaskId, i: nat)
    requires IsFirst(ClaimKeys(tasks, now, locked), limit, rows)
    requires id in tasks && id !in locked && Claimable(tasks[id], now) && id !in rows && i < |rows|
    ensures |rows| == limit && rows[i] in tasks
    ensures tasks[id].priority <= tasks[rows[i]].priority
    ensures tasks[id].priority == tasks[rows[i]].priority ==> tasks[rows[i]].createdAt <= tasks[id].createdAt
  {
    hide Claimable;
    assert id in ClaimKeys(tasks, now, locked) && rows[i] in rows;
  }

  /** A task that may be claimed and has fewer rivals than the batch has room for is leased and sent, if its
      run is open, its agent has an endpoint and the circuit lets it through. */
  lemma WaitingTaskIsSent(cfg: Settings, db: Db, w: WorkerId, endpoints: set<AgentId>, now: Time, locked: set<TaskId>, rows: seq<TaskId>, id: TaskId)
    requires IsFirst(ClaimKeys(db.tasks, now, locked), cfg.batchSize, rows)
    requires id in db.tasks && id !in locked && Claimable(db.tasks[id], now)
    requires |Rivals(ClaimKeys(db.tasks, now, locked), id)| < cfg.batchSize
    requires db.tasks[id].runId in db.runs && !Finished(db.runs[db.tasks[id].runId].status)
    requires db.tasks[id].agentId in endpoints && !CircuitBlocks(db, db.tasks[id].agentId, now)
    ensures forall i :: 0 <= i < |rows| ==> rows[i] in db.tasks
    ensures exists c :: c in Commands(cfg, db, endpoints, now, rows) && c.taskId == id && c.attempt == db.tasks[id].attempts + 1
  {
    hide Commands, Rivals, KeyLess, Claimable, ClaimOutcomeOf;
    EarlyRowIsSelected(ClaimKeys(db.tasks, now, locked), cfg.batchSize, rows, id);
    OpenTaskStarts(db, endpoints, now, db.tasks[id]);
    CommandsAreStarts(cfg, db, endpoints, now, rows);
    assert CommandFor(cfg, now, id, db.tasks[id]) in Commands(cfg, db, endpoints, now, rows);
  }

  lemma OpenTaskStarts(db: Db, endpoints: set<AgentId>, now: Time, t: Task)
    requires t.runId in db.runs && !Finished(db.runs[t.runId].status)
    requires t.agentId in endpoints && !CircuitBlocks(db, t.agentId, now)
    ensures ClaimOutcomeOf(db, endpoints, now, t).Started?
  {
  }

  // ---------- result ----------

  /** A result that applies leaves the task waiting for its signal, scheduled again, or failed, and
      releases its lease. */
  lemma ResultWrites(cfg: Settings, db: Db, w: WorkerId, now: Time, c: Command, res: DispatchResult)
    requires ResultApplies(db, w, c)
    ensures var db' := Recorded(cfg, db, w, now, c, res);
            && db'.tasks.Keys == db.tasks.Keys && db'.signals == db.signals && db'.nonces == db.nonces
            && (forall id :: id in db.tasks && id != c.taskId ==> db'.tasks[id] == db.tasks[id])
            && var t, t' := db.tasks[c.taskId], db'.tasks[c.taskId];
               var acknowledged := res.disposition.Accepted?;
               var again := res.disposition.Retryable? && t.attempts < cfg.maxAttempts && now < t.dispatchDeadline;
               && SameIdentity(t, t') && t'.attempts == t.attempts && t'.signalReceivedAt == t.signalReceivedAt
               && t'.leaseOwner == None && t'.leaseUntil == None
               && (t'.status.WaitingSignal? <==> acknowledged)
               && (t'.status.Retry? <==> again)
               && (t'.status.Failed? <==> !acknowledged && !again)
               && (!again ==> t'.dispatchAfter == t.dispatchAfter)
               && (again ==>
                     var a := db'.agents[c.agentId];
                     var cooled := if a.circuit.Open? && a.openUntil.Some? then a.openUntil.value else now;
                     && now + res.delay <= t'.dispatchAfter && cooled <= t'.dispatchAfter
                     && (t'.dispatchAfter == now + res.delay || t'.dispatchAfter == cooled))
  {
  }

  /** An acknowledgement closes the circuit and sets the run to COLLECTING, whatever it was; a failure adds
      one, opens the circuit from the threshold on, and leaves the run alone. */
  lemma ResultWritesAgent(cfg: Settings, db: Db, w: WorkerId, now: Time, c: Command, res: DispatchResult)
    requires ResultApplies(db, w, c)
    ensures var db' := Recorded(cfg, db, w, now, c, res);
            && db'.agents.Keys == db.agents.Keys && db'.runs.Keys == db.runs.Keys
            && (forall a :: a in db.agents && a != c.agentId ==> db'.agents[a] == db.agents[a])
            && (forall r :: r in db.runs && r != c.runId ==> db'.runs[r] == db.runs[r])
            && var st, st' := db.agents[c.agentId], db'.agents[c.agentId];
               if res.disposition.Accepted? then
                 st' == AgentState(0, Closed, None) && db'.runs[c.runId] == db.runs[c.runId].(status := RunCollecting)
               else
                 && st'.failures == st.failures + 1 && db'.runs == db.runs
                 && (cfg.threshold <= st'.failures ==> st'.circuit == Open && st'.openUntil == Some(now + cfg.openFor))
                 && (st'.failures < cfg.threshold ==> st'.circuit == st.circuit && st'.openUntil == st.openUntil)
  {
    hide TaskAfterResult;
  }

  // ---------- dispatch deadlines ----------

  /** Exactly the unlocked tasks that still wait for an acknowledgement at their dispatch deadline time out. */
  lemma ExpiryWrites(db: Db, now: Time, locked: set<TaskId>, id: TaskId)
    requires id in db.tasks
    ensures var db' := Expired(db, now, locked);
            && db' == db.(tasks := db'.tasks) && db'.tasks.Keys == db.tasks.Keys
            && var t, t' := db.tasks[id], db'.tasks[id];
               var unacknowledged := t.status.Pending? || t.status.Dispatching? || t.status.Retry?;
               if id !in locked && unacknowledged && t.dispatchDeadline <= now
               then t' == t.(status := TimedOut, leaseOwner := None, leaseUntil := None)
               else t' == t
  {
  }

  // ---------- ingestion ----------

  /** An accepted signal is stored with its agent, snapshot, task, asset and time, uses up its nonce, and
      completes its task; nothing else changes. */
  lemma SignalWrites(db: Db, reg: Registry, maxTtl: int, now: Time, e: Envelope, nonce: NonceText)
    requires Fault(db, reg, maxTtl, now, e, nonce).None?
    ensures var db' := Ingested(db, reg, maxTtl, now, e, nonce);
            && db'.runs == db.runs && db'.agents == db.agents
            && db'.nonces == db.nonces + {NonceKey(e.agentId, nonce)}
            && db'.signals == db.signals[e.messageId := Signal(e.agentId, e.snapshotId, e.task, e.asset, now)]
            && db'.tasks.Keys == db.tasks.Keys
            && forall id :: id in db.tasks ==>
                 db'.tasks[id] ==
                   if e.task.Some? && e.task.value.taskId == id
                   then db.tasks[id].(status := SignalReceived, signalReceivedAt := Some(now), leaseOwner := None, leaseUntil := None)
                   else db.tasks[id]
  {
    hide Fault;
    AcceptedIff(db, reg, maxTtl, now, e, nonce);
  }

  // ---------- recovery ----------

  /** A repair completes a task with a stored signal, tries an interrupted dispatch again before its
      deadline and ends it after it, ends a task whose signal is overdue, and touches no other. */
  lemma RepairWrites(signalled: set<TaskId>, now: Time, id: TaskId, t: Task)
    ensures var t' := RepairedTask(signalled, now, id, t);
            var answered := id in signalled && !t.status.SignalReceived?;
            var interrupted := !answered && t.status.Dispatching? && t.leaseUntil.Some? && t.leaseUntil.value <= now;
            var overdue := !answered && (t.status.Acknowledged? || t.status.WaitingSignal?) && t.signalDeadline <= now;
            && (answered ==>
                  && t' == t.(status := SignalReceived, signalReceivedAt := t'.signalReceivedAt, leaseOwner := None, leaseUntil := None)
                  && t'.signalReceivedAt == (if t.signalReceivedAt == None then Some(now) else t.signalReceivedAt))
            && (interrupted ==>
                  t' == t.(status := if t.dispatchDeadline <= now then TimedOut else Retry,
                           dispatchAfter := now, leaseOwner := None, leaseUntil := None))
            && (overdue ==> t' == t.(status := TimedOut))
            && (!answered && !interrupted && !overdue ==> t' == t)
  {
  }

  /** A run is reported as recovered exactly when its repair changes something. */
  lemma RecoveredIffChanged(db: Db, now: Time, r: RunId)
    requires r in db.runs
    ensures Recovers(db, now, r) <==> Reconciled(db, now, {r}) != db
    ensures Reconciled(db, now, {r}).runs[r] ==
            if db.runs[r].status.RunTimedOut? then db.runs[r].(status := RunCollecting) else db.runs[r]
  {
    hide RepairedTask, SignalledTasks;
    var db' := Reconciled(db, now, {r});
    if !Recovers(db, now, r) {
      assert db'.tasks == db.tasks && db'.runs == db.runs;
    } else if !db.runs[r].status.RunTimedOut? {
      var id :| id in db.tasks && db.tasks[id].runId == r
        && RepairedTask(SignalledTasks(db.signals, r), now, id, db.tasks[id]) != db.tasks[id];
      assert db'.tasks[id] != db.tasks[id];
    } else {
      assert db'.runs[r] != db.runs[r];
    }
  }

  /** The oldest runs are repaired first: none that is left out is older than a selected one. */
  lemma RepairsOldestFirst(runs: map<RunId, Run>, locked: set<RunId>, limit: nat, rows: seq<RunId>, r: RunId, i: nat)
    requires IsFirst(RecoveryKeys(runs, locked), limit, rows)
    requires r in runs && r !in locked && r !in rows && i < |rows|
    requires runs[r].status in {RunCreated, RunDispatching, RunCollecting, RunTimedOut}
    ensures |rows| == limit && rows[i] in runs && runs[rows[i]].createdAt <= runs[r].createdAt
    ensures runs[rows[i]].status in {RunCreated, RunDispatching, RunCollecting, RunTimedOut}
  {
    assert r in RecoveryKeys(runs, locked) && rows[i] in rows;
  }

  // ---------- evaluation ----------

  ghost function LostTasks(tasks: map<TaskId, Task>, r: RunId, c: Capability): set<TaskId> {
    set id | id in tasks && tasks[id].runId == r && tasks[id].capability == c
      && (tasks[id].status.TimedOut? || tasks[id].status.Failed? || tasks[id].status.Cancelled? || tasks[id].status.Skipped?)
  }

  /** Fewer signals than the minimum, so far. */
  ghost predicate TooFew(tasks: map<TaskId, Task>, r: RunId, q: Requirement) {
    q.required && |set id | id in tasks && tasks[id].runId == r && tasks[id].capability == q.capability && tasks[id].status.SignalReceived?| < q.minimum
  }

  /** Even if all tasks that are not lost were answered, there would be too few signals. */
  ghost predicate OutOfReach(tasks: map<TaskId, Task>, r: RunId, q: Requirement) {
    q.required && |CapTasks(tasks, r, q.capability)| - |LostTasks(tasks, r, q.capability)| < q.minimum
  }

  lemma CountsOfCapability(tasks: map<TaskId, Task>, r: RunId, c: Capability)
    ensures |Received(tasks, r, c)| + |Unfinished(tasks, r, c)| == |CapTasks(tasks, r, c)| - |LostTasks(tasks, r, c)|
  {
    var received, unfinished, lost := Received(tasks, r, c), Unfinished(tasks, r, c), LostTasks(tasks, r, c);
    assert CapTasks(tasks, r, c) == received + unfinished + lost;
    assert received !! unfinished && (received + unfinished) !! lost;
    assert |received + unfinished| == |received| + |unfinished|;
    assert |received + unfinished + lost| == |received + unfinished| + |lost|;
  }

  lemma RequirementCounts(tasks: map<TaskId, Task>, r: RunId, q: Requirement)
    ensures Short(tasks, r, q) <==> TooFew(tasks, r, q)
    ensures Hopeless(tasks, r, q) <==> OutOfReach(tasks, r, q)
    ensures CriticalLoss(tasks, r, q) <==> CriticalBroken(tasks, r, q)
  {
    CountsOfCapability(tasks, r, q.capability);
    CriticalCount(tasks, r, q);
    assert Received(tasks, r, q.capability)
        == set id | id in tasks && tasks[id].runId == r && tasks[id].capability == q.capability && tasks[id].status.SignalReceived?;
    hide Unfinished, LostTasks, CriticalLoss, CapTasks;
  }

  lemma CriticalCount(tasks: map<TaskId, Task>, r: RunId, q: Requirement)
    ensures CriticalLoss(tasks, r, q) <==> q.critical && LostTasks(tasks, r, q.capability) != {}
  {
    forall id | id in CapTasks(tasks, r, q.capability) && Lost(tasks[id].status) ensures id in LostTasks(tasks, r, q.capability) {}
    if id :| id in LostTasks(tasks, r, q.capability) {
      assert id in CapTasks(tasks, r, q.capability) && Lost(tasks[id].status);
    }
  }

  ghost predicate Over(tasks: map<TaskId, Task>, r: RunId) {
    forall id :: id in tasks && tasks[id].runId == r ==>
      !tasks[id].status.Pending? && !tasks[id].status.Retry? && !tasks[id].status.Dispatching?
      && !tasks[id].status.Acknowledged? && !tasks[id].status.WaitingSignal?
  }

  ghost predicate Complete(tasks: map<TaskId, Task>, r: RunId) {
    forall id :: id in tasks && tasks[id].runId == r ==> tasks[id].status.SignalReceived?
  }

  ghost predicate SomeTooFew(tasks: map<TaskId, Task>, r: RunId, p: Policy) {
    exists i :: 0 <= i < |p.requirements| && TooFew(tasks, r, p.requirements[i])
  }

  ghost predicate SomeOutOfReach(tasks: map<TaskId, Task>, r: RunId, p: Policy) {
    exists i :: 0 <= i < |p.requirements| && OutOfReach(tasks, r, p.requirements[i])
  }

  ghost predicate CriticalBroken(tasks: map<TaskId, Task>, r: RunId, q: Requirement) {
    q.critical && LostTasks(tasks, r, q.capability) != {}
  }

  ghost predicate SomeBroken(tasks: map<TaskId, Task>, r: RunId, p: Policy) {
    exists i :: 0 <= i < |p.requirements| && CriticalBroken(tasks, r, p.requirements[i])
  }

  lemma FactsAgree(tasks: map<TaskId, Task>, r: RunId, p: Policy)
    ensures AnyShort(tasks, r, p) <==> SomeTooFew(tasks, r, p)
    ensures AnyHopeless(tasks, r, p) <==> SomeOutOfReach(tasks, r, p)
    ensures AnyCriticalLoss(tasks, r, p) <==> SomeBroken(tasks, r, p)
    ensures AnyHopeless(tasks, r, p) ==> AnyShort(tasks, r, p)
  {
    hide TooFew, OutOfReach, Short, Hopeless, CriticalLoss, CriticalBroken;
    forall i | 0 <= i < |p.requirements|
      ensures Short(tasks, r, p.requirements[i]) <==> TooFew(tasks, r, p.requirements[i])
      ensures Hopeless(tasks, r, p.requirements[i]) <==> OutOfReach(tasks, r, p.requirements[i])
      ensures CriticalLoss(tasks, r, p.requirements[i]) <==> CriticalBroken(tasks, r, p.requirements[i])
      ensures Hopeless(tasks, r, p.requirements[i]) ==> Short(tasks, r, p.requirements[i])
    {
      RequirementCounts(tasks, r, p.requirements[i]);
      HopelessIsShort(tasks, r, p.requirements[i]);
    }
  }

  lemma TasksAgree(tasks: map<TaskId, Task>, r: RunId)
    ensures AllTerminal(tasks, r) <==> Over(tasks, r)
    ensures AllReceived(tasks, r) <==> Complete(tasks, r)
  {
  }

  /** When an evaluation of an unsettled run writes a verdict, at any time, and which one.

      It writes one exactly when the deadline has passed, nothing more can come, a required capability is
      out of reach, a critical capability lost a task, or everything is there and nothing was missing from
      the plan. CRITICAL: a capability is short and cannot catch up, or a critical one lost a task. FULL:
      everything is there. DEGRADED: the rest. */
  lemma EvaluationWrites(db: Db, r: RunId, now: Time)
    requires r in db.runs && db.runs[r].status in {RunCreated, RunDispatching, RunCollecting, RunTimedOut}
    ensures var db', run := Evaluated(db, r, now), db.runs[r];
            && db' == db.(runs := db'.runs) && db'.runs.Keys == db.runs.Keys
            && (forall k :: k in db.runs && k != r ==> db'.runs[k] == db.runs[k])
            && var run' := db'.runs[r];
               var due, over := run.collectionDeadline <= now, Over(db.tasks, r);
               var full := Complete(db.tasks, r) && run.missingOptional == [];
               var short := SomeTooFew(db.tasks, r, run.policy);
               var lost := SomeOutOfReach(db.tasks, r, run.policy);
               var broken := SomeBroken(db.tasks, r, run.policy);
               var written := due || over || lost || broken || full;
               var critical := (short && (lost || due || over)) || broken;
               && (!written ==> run' == run)
               && (written ==> run' == run.(status := run'.status, outcome := run'.outcome, completedAt := Some(now)))
               && (run'.status.RunCritical? <==> critical)
               && (run'.status.RunFull? <==> full && !critical)
               && (run'.status.RunDegraded? <==> (due || over) && !critical && !full)
               && (critical ==> run'.outcome == Some(OutcomeInsufficient))
               && (full && !critical ==> run'.outcome == Some(OutcomeFull))
               && ((due || over) && !critical && !full ==> run'.outcome == Some(OutcomeDegraded))
  {
    hide AnyShort, AnyHopeless, AnyCriticalLoss, SomeTooFew, SomeOutOfReach, SomeBroken, AllTerminal, AllReceived, Over, Complete;
    FactsAgree(db.tasks, r, db.runs[r].policy);
    TasksAgree(db.tasks, r);
    if Complete(db.tasks, r) {
      CompleteIsOver(db.tasks, r);
    }
  }

  lemma CompleteIsOver(tasks: map<TaskId, Task>, r: RunId)
    requires Complete(tasks, r)
    ensures Over(tasks, r)
  {
  }

  lemma HopelessIsShort(tasks: map<TaskId, Task>, r: RunId, q: Requirement)
    ensures Hopeless(tasks, r, q) ==> Short(tasks, r, q)
  {
  }

  /** Exactly the capabilities with too few signals are reported missing. */
  lemma {:induction false} MissingAreShort(tasks: map<TaskId, Task>, r: RunId, qs: seq<Requirement>, c: Capability)
    ensures c in ShortCapabilities(tasks, r, qs) <==>
            exists i :: 0 <= i < |qs| && qs[i].capability == c && TooFew(tasks, r, qs[i])
  {
    hide TooFew, Short;
    if qs != [] {
      var n := |qs| - 1;
      RequirementIsShort(tasks, r, qs[n]);
      MissingAreShort(tasks, r, qs[..n], c);
      if i :| 0 <= i < |qs| && qs[i].capability == c && TooFew(tasks, r, qs[i]) {
        assert i < n ==> qs[..n][i].capability == c && TooFew(tasks, r, qs[..n][i]);
      }
      if j :| 0 <= j < n && qs[..n][j].capability == c && TooFew(tasks, r, qs[..n][j]) {
        assert qs[j].capability == c && TooFew(tasks, r, qs[j]);
      }
    }
  }

  lemma RequirementIsShort(tasks: map<TaskId, Task>, r: RunId, q: Requirement)
    ensures Short(tasks, r, q) <==> TooFew(tasks, r, q)
  {
    RequirementCounts(tasks, r, q);
  }

  // ---------- planning ----------

  /** Only enabled agents with an endpoint, the capability and the asset are routed, in the order of their
      ids, and none of them is passed over unless the limit is reached. */
  lemma RouteWrites(reg: Registry, asset: Asset, q: Requirement, agents: seq<AgentId>)
    requires IsRoute(reg, asset, q, agents)
    ensures forall i :: 0 <= i < |agents| ==>
              && agents[i] in reg.agents && reg.agents[agents[i]].enabled && agents[i] in reg.endpoints
              && q.capability in reg.agents[agents[i]].capabilities && asset in reg.agents[agents[i]].supportedAssets
    ensures forall i, j :: 0 <= i < j < |agents| ==> agents[i] < agents[j]
    ensures q.maxAgents.Some? ==> |agents| <= q.maxAgents.value
    ensures forall a ::
              (&& a in reg.agents && reg.agents[a].enabled && a in reg.endpoints
               && q.capability in reg.agents[a].capabilities && asset in reg.agents[a].supportedAssets && a !in agents) ==>
              q.maxAgents.Some? && |agents| == q.maxAgents.value && forall i :: 0 <= i < |agents| ==> agents[i] < a
  {
    var keys := RouteKeys(reg, asset, q.capability);
    forall i, j | 0 <= i < j < |agents| ensures agents[i] < agents[j] {
      assert agents[i] in keys && agents[j] in keys;
    }
    if a :| a in keys && a !in agents && q.maxAgents.None? {
      DistinctSize(agents);
      SubsetSize(Elems(agents), keys.Keys - {a});
      assert |keys| == |keys.Keys|;
    }
    assert forall i :: 0 <= i < |agents| ==> agents[i] in keys;
  }

  /** The gap lists name exactly the capabilities of their kind for which too few agents were found. */
  lemma {:induction false} GapsName(qs: seq<Requirement>, routed: seq<seq<AgentId>>, required: bool, c: Capability)
    requires |qs| == |routed|
    ensures c in Gaps(qs, routed, required) <==>
            exists i :: 0 <= i < |qs| && qs[i].capability == c && |routed[i]| < qs[i].minimum && qs[i].required == required
  {
    if qs != [] {
      var n := |qs| - 1;
      GapsName(qs[..n], routed[..n], required, c);
      if i :| 0 <= i < |qs| && qs[i].capability == c && |routed[i]| < qs[i].minimum && qs[i].required == required {
        assert i < n ==> qs[..n][i].capability == c && |routed[..n][i]| < qs[..n][i].minimum && qs[..n][i].required == required;
      }
      if j :| 0 <= j < n && qs[..n][j].capability == c && |routed[..n][j]| < qs[..n][j].minimum && qs[..n][j].required == required {
        assert qs[j].capability == c && |routed[j]| < qs[j].minimum && qs[j].required == required;
      }
    }
  }

  /** Every new task serves a requirement of the policy with an agent routed to it, takes its deadlines from
      the policy, and goes first if the requirement is critical. */
  lemma PlanWritesTask(db: Db, o: Order, now: Time, routed: seq<seq<AgentId>>, ids: seq<TaskId>, k: nat) returns (i: nat, j: nat)
    requires ValidPolicy(o.policy) && |routed| == |o.policy.requirements| && k < |ids|
    requires FreshIds(db.tasks, ids, Assignments(o.policy.requirements, routed))
    ensures i < |routed| && j < |routed[i]| && ids[k] in Planned(db, o, now, routed, ids).tasks
    ensures var t, q := Planned(db, o, now, routed, ids).tasks[ids[k]], o.policy.requirements[i];
            && t.runId == o.runId && t.snapshotId == o.snapshotId && t.asset == o.asset
            && t.capability == q.capability && t.agentId == routed[i][j]
            && t.priority == (if q.critical then 100 else 50)
            && t.createdAt == now && t.dispatchAfter == now && t.attempts == 0
            && t.dispatchDeadline == now + o.policy.dispatchTimeout
            && t.signalDeadline == now + o.policy.signalTimeout
            && t.leaseOwner == None && t.leaseUntil == None && t.signalReceivedAt == None
            && t.status == if Gaps(o.policy.requirements, routed, true) == [] then Pending else Cancelled
  {
    i, j := AssignmentOrigin(o.policy.requirements, routed, k);
    hide Assignments, Gaps;
  }

  lemma PlanWritesRun(db: Db, o: Order, now: Time, routed: seq<seq<AgentId>>, ids: seq<TaskId>)
    requires |routed| == |o.policy.requirements| && FreshIds(db.tasks, ids, Assignments(o.policy.requirements, routed))
    ensures var db' := Planned(db, o, now, routed, ids);
            && db' == db.(runs := db'.runs, tasks := db'.tasks) && o.runId in db'.runs
            && db'.tasks.Keys == db.tasks.Keys + Elems(ids)
            && var run, gaps := db'.runs[o.runId], Gaps(o.policy.requirements, routed, true);
               && run.snapshotId == o.snapshotId && run.asset == o.asset && run.policy == o.policy
               && run.createdAt == now && run.collectionDeadline == now + o.policy.collectionTimeout
               && run.missingRequired == gaps && run.missingOptional == Gaps(o.policy.requirements, routed, false)
               && run.status == (if gaps == [] then RunDispatching else RunCritical)
               && run.completedAt == (if gaps == [] then None else Some(now))
               && run.outcome == (if gaps == [] then None else Some(OutcomeInsufficient))
  {
    hide Assignments, Gaps, PlannedTask;
    assert PlannedTasks(o, now, PlannedRun(o, now, routed).missingRequired != [], ids, Assignments(o.policy.requirements, routed)).Keys == Elems(ids);
  }
}
