/** The orchestration protocol: any interleaving of the transactions of any number of workers, with
    crashes and a clock. Each database transaction is one atomic step. */
module Protocol {
  import opened Rows
  import opened Dispatch
  import Ingestion
  import Recovery
  import opened Quorum
  import opened Planner

  /** A dispatch result as the history remembers it. */
  datatype ResultEntry = ResultEntry(at: Time, ok: bool)

  /** What happened so far. No transaction reads it. */
  datatype History = History(
    starts: map<TaskId, Time>,              // when the latest attempt started
    retries: map<TaskId, nat>,              // how many retries results have scheduled
    results: map<AgentId, seq<ResultEntry>>,   // the results recorded for the agent
    verdicts: map<RunId, seq<Verdict>>,     // the verdicts written for the run
    nonceOf: map<MessageId, NonceKey>)      // the nonce that came with a stored signal

  datatype System = System(now: Time, db: Db, inflight: map<WorkerId, seq<Command>>, history: History)

  datatype Step =
    | Tick(dt: nat)
    | Plan(reg: Ingestion.Registry, order: Order, routed: seq<seq<AgentId>>, ids: seq<TaskId>)
    | Claim(w: WorkerId, endpoints: set<AgentId>, rows: seq<TaskId>, locked: set<TaskId>)
    | Record(w: WorkerId, res: DispatchResult)
    | Crash(w: WorkerId)
    | Expire(locked: set<TaskId>)
    | Ingest(registry: Ingestion.Registry, maxTtl: int, e: Ingestion.Envelope, nonce: NonceText)
    | Reconcile(runs: seq<RunId>, lockedRuns: set<RunId>, limit: nat)
    | Evaluate(r: RunId)

  /** The commands that worker `w` has claimed and not yet finished. */
  function Batch(s: System, w: WorkerId): seq<Command> {
    if w in s.inflight then s.inflight[w] else []
  }

  function ResultsOf(h: History, a: AgentId): seq<ResultEntry> {
    if a in h.results then h.results[a] else []
  }

  function VerdictsOf(h: History, r: RunId): seq<Verdict> {
    if r in h.verdicts then h.verdicts[r] else []
  }

  function RetriesOf(h: History, id: TaskId): nat {
    if id in h.retries then h.retries[id] else 0
  }

  function StartOf(h: History, id: TaskId): Time {
    if id in h.starts then h.starts[id] else 0
  }

  ghost predicate Enabled(cfg: Settings, s: System, step: Step) {
    match step
    case Tick(dt) => true
    case Plan(reg, o, routed, ids) =>
      && ValidPolicy(o.policy)
      && o.runId !in s.db.runs
      && Eligible(reg, s.now, o)
      && IsRouting(reg, o.asset, o.policy, routed)
      && FreshIds(s.db.tasks, ids, Assignments(o.policy.requirements, routed))
    case Claim(w, endpoints, rows, locked) =>
      // a worker finishes or abandons its batch before it claims again
      && Batch(s, w) == []
      && IsFirst(ClaimKeys(s.db.tasks, s.now, locked), cfg.batchSize, rows)
    case Record(w, res) => Batch(s, w) != []
    case Crash(w) => true
    case Expire(locked) => true
    case Ingest(reg, maxTtl, e, nonce) => true
    case Reconcile(runs, lockedRuns, limit) => IsFirst(Recovery.RecoveryKeys(s.db.runs, lockedRuns), limit, runs)
    case Evaluate(r) => r in s.db.runs
  }

  ghost function DoPlan(s: System, o: Order, routed: seq<seq<AgentId>>, ids: seq<TaskId>): System
    requires |routed| == |o.policy.requirements|
    requires FreshIds(s.db.tasks, ids, Assignments(o.policy.requirements, routed))
  {
    var run := PlannedRun(o, s.now, routed);
    s.(db := Planned(s.db, o, s.now, routed, ids),
       history := s.history.(verdicts := s.history.verdicts[o.runId :=
         if run.missingRequired != [] then [Critical] else []]))
  }

  ghost function DoClaim(cfg: Settings, s: System, w: WorkerId, endpoints: set<AgentId>, rows: seq<TaskId>): System
    requires forall i :: 0 <= i < |rows| ==> rows[i] in s.db.tasks
  {
    s.(db := Claimed(cfg, s.db, w, endpoints, s.now, Elems(rows)),
       inflight := s.inflight[w := Commands(cfg, s.db, endpoints, s.now, rows)],
       history := s.history.(starts := s.history.starts + map id | id in Elems(rows)
         && ClaimOutcomeOf(s.db, endpoints, s.now, s.db.tasks[id]).Started? :: s.now))
  }

  ghost function DoRecord(cfg: Settings, s: System, w: WorkerId, res: DispatchResult): System
    requires Batch(s, w) != []
  {
    var c := Batch(s, w)[0];
    var rest := s.(inflight := s.inflight[w := Batch(s, w)[1..]]);
    if !ResultApplies(s.db, w, c) then rest else
      rest.(
        db := Recorded(cfg, s.db, w, s.now, c, res),
        history := s.history.(
          results := s.history.results[c.agentId :=
            ResultsOf(s.history, c.agentId) + [ResultEntry(s.now, res.disposition.Accepted?)]],
          retries := if CanRetry(cfg, s.db.tasks[c.taskId], s.now, res)
                     then s.history.retries[c.taskId := RetriesOf(s.history, c.taskId) + 1]
                     else s.history.retries))
  }

  ghost function DoIngest(s: System, reg: Ingestion.Registry, maxTtl: int, e: Ingestion.Envelope, nonce: NonceText): System {
    if Ingestion.Fault(s.db, reg, maxTtl, s.now, e, nonce).Some? then s else
      s.(db := Ingestion.Ingested(s.db, reg, maxTtl, s.now, e, nonce),
         history := s.history.(nonceOf := s.history.nonceOf[e.messageId := NonceKey(e.agentId, nonce)]))
  }

  ghost function DoEvaluate(s: System, r: RunId): System
    requires r in s.db.runs
  {
    match Written(s.db, r, s.now)
    case None => s
    case Some(v) =>
      s.(db := Evaluated(s.db, r, s.now),
         history := s.history.(verdicts := s.history.verdicts[r := VerdictsOf(s.history, r) + [v]]))
  }

  ghost function Apply(cfg: Settings, s: System, step: Step): System
    requires Enabled(cfg, s, step)
  {
    match step
    case Tick(dt) => s.(now := s.now + dt)
    case Plan(reg, o, routed, ids) => DoPlan(s, o, routed, ids)
    case Claim(w, endpoints, rows, locked) => DoClaim(cfg, s, w, endpoints, rows)
    case Record(w, res) => DoRecord(cfg, s, w, res)
    case Crash(w) => s.(inflight := s.inflight[w := []])
    case Expire(locked) => s.(db := Expired(s.db, s.now, locked))
    case Ingest(reg, maxTtl, e, nonce) => DoIngest(s, reg, maxTtl, e, nonce)
    case Reconcile(runs, lockedRuns, limit) => s.(db := Recovery.Reconciled(s.db, s.now, Elems(runs)))
    case Evaluate(r) => DoEvaluate(s, r)
  }

  /** The least delay that a retryable result may draw after each attempt. */
  type Backoff = nat -> nat

  const NO_BACKOFF: Backoff := n => 0

  predicate StepIsPatient(s: System, step: Step, backoff: Backoff) {
    step.Record? && step.res.disposition.Retryable? && Batch(s, step.w) != [] && Batch(s, step.w)[0].taskId in s.db.tasks
    ==> backoff(s.db.tasks[Batch(s, step.w)[0].taskId].attempts) <= step.res.delay
  }

  /** No retry of the run is scheduled sooner than the backoff allows. */
  ghost predicate Patient(b: seq<System>, steps: seq<Step>, backoff: Backoff) {
    |b| == |steps| + 1 && forall i :: 0 <= i < |steps| ==> StepIsPatient(b[i], steps[i], backoff)
  }

  ghost predicate Init(s: System) {
    && s.db == Db(map[], map[], map[], map[], {})
    && s.inflight == map[]
    && s.history == History(map[], map[], map[], map[], map[])
  }

  /** `b` is the sequence of states of a run of the protocol that takes `steps`. */
  ghost predicate Behaviour(cfg: Settings, b: seq<System>, steps: seq<Step>) {
    && |b| == |steps| + 1
    && Init(b[0])
    && forall i :: 0 <= i < |steps| ==> Enabled(cfg, b[i], steps[i]) && b[i + 1] == Apply(cfg, b[i], steps[i])
  }
}
