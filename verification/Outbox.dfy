/** The notification outbox: leases without an owner check, so a sender whose lease has expired may
    complete the lease of another. */
module Outbox {
  import opened Rows

  type NotificationId = nat

  datatype SendStatus = Queued | Sending | Sent | RetryLater | SendFailed | DeadLetter

  datatype Row = Row(status: SendStatus, attempts: nat, nextAttemptAt: Time, createdAt: Time)

  datatype SendResult = Success | Rejected | TemporaryFailure

  /** What a sender keeps in its hands while it sends. */
  datatype Flight = Flight(id: NotificationId, attempt: nat)

  datatype SenderSettings = SenderSettings(maxAttempts: int, lease: nat)

  predicate Ended(st: SendStatus) {
    st.Sent? || st.SendFailed? || st.DeadLetter?
  }

  predicate Due(row: Row, now: Time) {
    (row.status.Queued? || row.status.RetryLater? || row.status.Sending?) && row.nextAttemptAt <= now
  }

  function DueKeys(rows: map<NotificationId, Row>, now: Time, locked: set<NotificationId>): map<nat, (int, int)> {
    map id | id in rows && id !in locked && Due(rows[id], now) :: (rows[id].createdAt, 0)
  }

  /** The lease starts at a second, possibly later, reading of the clock. */
  function Taken(cfg: SenderSettings, row: Row, leaseStart: Time): Row {
    row.(status := Sending, attempts := row.attempts + 1, nextAttemptAt := leaseStart + cfg.lease)
  }

  function Finished(cfg: SenderSettings, row: Row, attempt: nat, res: SendResult, retryAt: Time): Row {
    if !row.status.Sending? then row
    else match res
      case Success => row.(status := Sent)
      case Rejected => row.(status := SendFailed)
      case TemporaryFailure =>
        if attempt >= cfg.maxAttempts then row.(status := DeadLetter)
        else row.(status := RetryLater, nextAttemptAt := retryAt)
  }

  // ---------- the protocol ----------

  datatype History = History(
    takes: map<NotificationId, nat>,          // how often the row was claimed
    retries: map<NotificationId, seq<nat>>,   // the attempts that wrote RETRY, in order
    delivered: set<NotificationId>)           // the rows for which a send succeeded

  datatype System = System(now: Time, rows: map<NotificationId, Row>, flights: map<WorkerId, Flight>, history: History)

  datatype Step =
    | Tick(dt: nat)
    | Enqueue(id: NotificationId, at: Time)
    | Take(w: WorkerId, id: NotificationId, locked: set<NotificationId>, leaseStart: Time)
    | Finish(w: WorkerId, res: SendResult, retryAt: Time)
    | Crash(w: WorkerId)

  function TakesOf(h: History, id: NotificationId): nat { if id in h.takes then h.takes[id] else 0 }
  function RetriesOf(h: History, id: NotificationId): seq<nat> { if id in h.retries then h.retries[id] else [] }

  ghost predicate Enabled(s: System, step: Step) {
    match step
    case Tick(dt) => true
    case Enqueue(id, at) => id !in s.rows
    case Take(w, id, locked, leaseStart) =>
      w !in s.flights && id in s.rows && IsFirst(DueKeys(s.rows, s.now, locked), 1, [id]) && s.now <= leaseStart
    case Finish(w, res, retryAt) => w in s.flights && s.flights[w].id in s.rows
    case Crash(w) => w in s.flights
  }

  predicate WritesRetry(cfg: SenderSettings, row: Row, attempt: nat, res: SendResult) {
    row.status.Sending? && res.TemporaryFailure? && attempt < cfg.maxAttempts
  }

  ghost function Apply(cfg: SenderSettings, s: System, step: Step): System
    requires Enabled(s, step)
  {
    match step
    case Tick(dt) => s.(now := s.now + dt)
    case Enqueue(id, at) => s.(rows := s.rows[id := Row(Queued, 0, at, at)])
    case Take(w, id, locked, leaseStart) =>
      s.(rows := s.rows[id := Taken(cfg, s.rows[id], leaseStart)],
         flights := s.flights[w := Flight(id, s.rows[id].attempts + 1)],
         history := s.history.(takes := s.history.takes[id := TakesOf(s.history, id) + 1]))
    case Finish(w, res, retryAt) =>
      var f := s.flights[w];
      s.(rows := s.rows[f.id := Finished(cfg, s.rows[f.id], f.attempt, res, retryAt)],
         flights := s.flights - {w},
         history := s.history.(
           retries := if WritesRetry(cfg, s.rows[f.id], f.attempt, res)
                      then s.history.retries[f.id := RetriesOf(s.history, f.id) + [f.attempt]] else s.history.retries,
           delivered := if res.Success? then s.history.delivered + {f.id} else s.history.delivered))
    case Crash(w) => s.(flights := s.flights - {w})
  }

  ghost predicate Init(s: System) {
    s.rows == map[] && s.flights == map[] && s.history == History(map[], map[], {})
  }

  ghost predicate Behaviour(cfg: SenderSettings, b: seq<System>, steps: seq<Step>) {
    && |b| == |steps| + 1
    && Init(b[0])
    && forall i :: 0 <= i < |steps| ==> Enabled(b[i], steps[i]) && b[i + 1] == Apply(cfg, b[i], steps[i])
  }

  // ---------- the invariant ----------

  ghost predicate RowFits(cfg: SenderSettings, s: System, id: NotificationId)
    requires id in s.rows
  {
    var row, retries := s.rows[id], RetriesOf(s.history, id);
    && row.attempts == TakesOf(s.history, id)
    && (row.status.Sent? ==> id in s.history.delivered)
    && Distinct(retries)
    && (forall i :: 0 <= i < |retries| ==> 1 <= retries[i] < cfg.maxAttempts && retries[i] <= row.attempts)
  }

  /** An attempt in flight has not written RETRY, and no two senders are on the same attempt. */
  ghost predicate FlightFits(s: System, w: WorkerId)
    requires w in s.flights
  {
    var f := s.flights[w];
    && f.id in s.rows
    && 1 <= f.attempt <= s.rows[f.id].attempts
    && f.attempt !in RetriesOf(s.history, f.id)
    && (forall w' :: w' in s.flights && w' != w && s.flights[w'].id == f.id ==> s.flights[w'].attempt != f.attempt)
  }

  ghost predicate Good(cfg: SenderSettings, s: System) {
    && (forall id :: id in s.rows ==> RowFits(cfg, s, id))
    && (forall w :: w in s.flights ==> FlightFits(s, w))
    && (forall id :: id in s.history.takes || id in s.history.retries ==> id in s.rows)
  }

  lemma TakeKeepsGood(cfg: SenderSettings, s: System, step: Step)
    requires Good(cfg, s) && Enabled(s, step) && step.Take?
    ensures Good(cfg, Apply(cfg, s, step))
  {
    var s' := Apply(cfg, s, step);
    assert [step.id][0] in DueKeys(s.rows, s.now, step.locked);
    forall id | id in s'.rows ensures RowFits(cfg, s', id) {
      assert RowFits(cfg, s, id);
    }
    forall w | w in s'.flights ensures FlightFits(s', w) {
      assert RowFits(cfg, s, step.id);
      assert w != step.w ==> FlightFits(s, w);
    }
  }

  lemma FinishKeepsGood(cfg: SenderSettings, s: System, step: Step)
    requires Good(cfg, s) && Enabled(s, step) && step.Finish?
    ensures Good(cfg, Apply(cfg, s, step))
  {
    var s' := Apply(cfg, s, step);
    forall id | id in s'.rows ensures RowFits(cfg, s', id) {
      FinishKeepsRow(cfg, s, step, id);
    }
    forall w | w in s'.flights ensures FlightFits(s', w) {
      FinishKeepsFlight(cfg, s, step, w);
    }
    hide RowFits, FlightFits, Finished, WritesRetry;
  }

  lemma FinishKeepsRow(cfg: SenderSettings, s: System, step: Step, id: NotificationId)
    requires Good(cfg, s) && Enabled(s, step) && step.Finish? && id in s.rows
    ensures id in Apply(cfg, s, step).rows && RowFits(cfg, Apply(cfg, s, step), id)
  {
    assert RowFits(cfg, s, id);
    assert FlightFits(s, step.w);
    hide Good;
  }

  lemma FinishKeepsFlight(cfg: SenderSettings, s: System, step: Step, w: WorkerId)
    requires Good(cfg, s) && Enabled(s, step) && step.Finish? && w in Apply(cfg, s, step).flights
    ensures FlightFits(Apply(cfg, s, step), w)
  {
    assert FlightFits(s, w);
    hide Good, RowFits, WritesRetry;
  }

  lemma StepKeepsGood(cfg: SenderSettings, s: System, step: Step)
    requires Good(cfg, s) && Enabled(s, step)
    ensures Good(cfg, Apply(cfg, s, step))
  {
    if step.Take? {
      TakeKeepsGood(cfg, s, step);
    } else if step.Finish? {
      FinishKeepsGood(cfg, s, step);
    } else {
      var s' := Apply(cfg, s, step);
      forall id | id in s'.rows ensures RowFits(cfg, s', id) {
        assert id in s.rows ==> RowFits(cfg, s, id);
      }
      forall w | w in s'.flights ensures FlightFits(s', w) {
        assert FlightFits(s, w);
      }
    }
  }

  lemma {:induction false} EveryStateIsGood(cfg: SenderSettings, b: seq<System>, steps: seq<Step>, i: nat)
    requires Behaviour(cfg, b, steps) && i < |b|
    ensures Good(cfg, b[i])
  {
    if i > 0 {
      EveryStateIsGood(cfg, b, steps, i - 1);
      StepKeepsGood(cfg, b[i - 1], steps[i - 1]);
      hide Apply, Enabled, Good;
    }
  }

  // ---------- what holds of every run ----------

  lemma OneStepKeepsEnded(cfg: SenderSettings, s: System, step: Step, id: NotificationId)
    requires Enabled(s, step) && id in s.rows && Ended(s.rows[id].status)
    ensures id in Apply(cfg, s, step).rows && Apply(cfg, s, step).rows[id] == s.rows[id]
  {
    if step.Take? {
      assert [step.id][0] in DueKeys(s.rows, s.now, step.locked);
    }
  }

  /** SENT, FAILED and DEAD_LETTER are never left, whatever stale senders do. */
  lemma {:induction false} EndedRowsStay(cfg: SenderSettings, b: seq<System>, steps: seq<Step>, i: nat, j: nat, id: NotificationId)
    requires Behaviour(cfg, b, steps) && i <= j < |b|
    requires id in b[i].rows && Ended(b[i].rows[id].status)
    ensures id in b[j].rows && b[j].rows[id] == b[i].rows[id]
    decreases j
  {
    if i < j {
      EndedRowsStay(cfg, b, steps, i, j - 1, id);
      OneStepKeepsEnded(cfg, b[j - 1], steps[j - 1], id);
      hide Apply, Enabled;
    }
  }

  /** The attempt numbers from 1 up to, but not including, `bound`. */
  ghost function AttemptsBelow(bound: int): (all: set<nat>)
    ensures forall k: nat :: k in all <==> 1 <= k < bound
    ensures |all| == if bound < 1 then 0 else bound - 1
    decreases if bound < 0 then 0 else bound
  {
    if bound <= 1 then {} else AttemptsBelow(bound - 1) + {bound - 1}
  }

  lemma DistinctAttempts(s: seq<nat>, bound: int)
    requires Distinct(s) && forall i :: 0 <= i < |s| ==> 1 <= s[i] < bound
    ensures |s| <= (if bound < 1 then 0 else bound - 1)
  {
    DistinctSize(s);
    SubsetSize(Elems(s), AttemptsBelow(bound));
  }

  /** Step `k` reports that the send of row `id` succeeded. */
  ghost predicate Delivers(b: seq<System>, steps: seq<Step>, k: nat, id: NotificationId) {
    && k < |b| && k < |steps|
    && steps[k].Finish? && steps[k].res.Success?
    && steps[k].w in b[k].flights && b[k].flights[steps[k].w].id == id
  }

  lemma {:induction false} DeliveredByAStep(cfg: SenderSettings, b: seq<System>, steps: seq<Step>, i: nat, id: NotificationId) returns (k: nat)
    requires Behaviour(cfg, b, steps) && i < |b| && id in b[i].history.delivered
    ensures k < i && Delivers(b, steps, k, id)
  {
    if id in b[i - 1].history.delivered {
      k := DeliveredByAStep(cfg, b, steps, i - 1, id);
    } else {
      k := i - 1;
    }
  }

  /** A row is SENT only after a send of it succeeded, its attempt count is the number of claims, and
      RETRY is written at most maxAttempts - 1 times. */
  lemma RowsAreAccounted(cfg: SenderSettings, b: seq<System>, steps: seq<Step>, i: nat, id: NotificationId)
    requires Behaviour(cfg, b, steps) && i < |b| && id in b[i].rows
    ensures b[i].rows[id].status.Sent? ==> exists k: nat :: k < i && Delivers(b, steps, k, id)
    ensures b[i].rows[id].attempts == TakesOf(b[i].history, id)
    ensures |RetriesOf(b[i].history, id)| <= (if cfg.maxAttempts < 1 then 0 else cfg.maxAttempts - 1)
  {
    EveryStateIsGood(cfg, b, steps, i);
    assert RowFits(cfg, b[i], id);
    DistinctAttempts(RetriesOf(b[i].history, id), cfg.maxAttempts);
    hide Behaviour, Delivers;
    if b[i].rows[id].status.Sent? {
      var k := DeliveredByAStep(cfg, b, steps, i, id);
    }
  }

  // ---------- what one transaction writes ----------

  /** A send that ends while its row is SENDING decides the row; a later one leaves it as it is. */
  lemma FinishWrites(cfg: SenderSettings, s: System, step: Step)
    requires Enabled(s, step) && step.Finish?
    ensures var f := s.flights[step.w];
            var row, row' := s.rows[f.id], Apply(cfg, s, step).rows[f.id];
            var sending := row.status.Sending?;
            && (!sending ==> row' == row)
            && (sending ==>
                  && row' == row.(status := row'.status, nextAttemptAt := row'.nextAttemptAt)
                  && (row'.status.Sent? <==> step.res.Success?)
                  && (row'.status.SendFailed? <==> step.res.Rejected?)
                  && (row'.status.DeadLetter? <==> step.res.TemporaryFailure? && cfg.maxAttempts <= f.attempt)
                  && (row'.status.RetryLater? <==> step.res.TemporaryFailure? && f.attempt < cfg.maxAttempts)
                  && row'.nextAttemptAt == if row'.status.RetryLater? then step.retryAt else row.nextAttemptAt)
            && (forall id :: id in s.rows && id != f.id ==> Apply(cfg, s, step).rows[id] == s.rows[id])
  {
  }

  /** A sender takes a row that waits or whose lease is over, at or after the time it is due, no older row
      of that kind that is free being left; it counts the attempt and leases the row. */
  lemma TakeWrites(cfg: SenderSettings, s: System, step: Step)
    requires Enabled(s, step) && step.Take?
    ensures var row, row' := s.rows[step.id], Apply(cfg, s, step).rows[step.id];
            && (row.status.Queued? || row.status.RetryLater? || row.status.Sending?) && row.nextAttemptAt <= s.now
            && row' == Row(Sending, row.attempts + 1, step.leaseStart + cfg.lease, row.createdAt)
    ensures forall id :: (id in s.rows && id !in step.locked && s.rows[id].nextAttemptAt <= s.now && !Ended(s.rows[id].status))
              ==> s.rows[step.id].createdAt <= s.rows[id].createdAt
  {
    var keys := DueKeys(s.rows, s.now, step.locked);
    assert [step.id][0] in keys;
    forall id | id in s.rows && id !in step.locked && s.rows[id].nextAttemptAt <= s.now && !Ended(s.rows[id].status)
      ensures s.rows[step.id].createdAt <= s.rows[id].createdAt
    {
      assert id in keys && (id in [step.id] <==> id == step.id);
      assert !KeyLess(keys[id], keys[step.id]);
    }
  }

  /** A row is SENT if and only if a send of it was reported successful while it was SENDING. */
  lemma {:induction false} SentIffDelivered(cfg: SenderSettings, b: seq<System>, steps: seq<Step>, i: nat, id: NotificationId)
    requires Behaviour(cfg, b, steps) && i < |b| && id in b[i].rows
    ensures b[i].rows[id].status.Sent? <==>
            exists k: nat :: k < i && Delivers(b, steps, k, id) && id in b[k].rows && b[k].rows[id].status.Sending?
  {
    if b[i].rows[id].status.Sent? {
      var k := SentByAStep(cfg, b, steps, i, id);
    }
    if k: nat :| k < i && Delivers(b, steps, k, id) && id in b[k].rows && b[k].rows[id].status.Sending? {
      FinishWrites(cfg, b[k], steps[k]);
      EndedRowsStay(cfg, b, steps, k + 1, i, id);
    }
  }

  lemma {:induction false} SentByAStep(cfg: SenderSettings, b: seq<System>, steps: seq<Step>, i: nat, id: NotificationId) returns (k: nat)
    requires Behaviour(cfg, b, steps) && i < |b| && id in b[i].rows && b[i].rows[id].status.Sent?
    ensures k < i && Delivers(b, steps, k, id) && id in b[k].rows && b[k].rows[id].status.Sending?
  {
    if id in b[i - 1].rows && b[i - 1].rows[id].status.Sent? {
      k := SentByAStep(cfg, b, steps, i - 1, id);
    } else {
      k := i - 1;
    }
  }

  // ---------- the worker ----------

  class NotificationWorker {
    const cfg: SenderSettings
    var rows: map<NotificationId, Row>

    constructor (cfg: SenderSettings, rows: map<NotificationId, Row>)
      ensures this.cfg == cfg && this.rows == rows
    {
      this.cfg, this.rows := cfg, rows;
    }

    /** The first row in creation order that is due and not locked, with its lease taken. */
    method TakeOne(now: Time, leaseStart: Time, locked: set<NotificationId>) returns (flight: Option<Flight>)
      modifies this
      ensures flight.None? ==> DueKeys(old(rows), now, locked) == map[] && rows == old(rows)
      ensures flight.Some? ==>
                && flight.value.id in old(rows)
                && IsFirst(DueKeys(old(rows), now, locked), 1, [flight.value.id])
                && rows == old(rows)[flight.value.id := Taken(cfg, old(rows)[flight.value.id], leaseStart)]
                && flight.value.attempt == old(rows)[flight.value.id].attempts + 1
    {
      var todo := set id | id in rows && id !in locked && Due(rows[id], now);
      ghost var keys := DueKeys(rows, now, locked);
      assert keys.Keys == todo;
      if todo == {} {
        return None;
      }
      var best :| best in todo;
      ghost var seen := {best};
      todo := todo - {best};
      while todo != {}
        invariant best in seen && seen + todo == keys.Keys
        invariant forall id :: id in seen ==> !KeyLess(keys[id], keys[best])
        decreases todo
      {
        var id :| id in todo;
        if rows[id].createdAt < rows[best].createdAt {
          best := id;
        }
        todo := todo - {id};
        seen := seen + {id};
      }
      var row := rows[best];
      row := row.(status := Sending, attempts := row.attempts + 1, nextAttemptAt := leaseStart + cfg.lease);
      rows := rows[best := row];
      flight := Some(Flight(best, row.attempts));
      assert [best][0] == best;
    }

    /** Records the outcome of a send, unless somebody else completed the row meanwhile. */
    method Complete(flight: Flight, res: SendResult, retryAt: Time)
      modifies this
      ensures flight.id !in old(rows) ==> rows == old(rows)
      ensures flight.id in old(rows) ==>
                rows == old(rows)[flight.id := Finished(cfg, old(rows)[flight.id], flight.attempt, res, retryAt)]
    {
      if flight.id !in rows {
        return;
      }
      var row := rows[flight.id];
      if !row.status.Sending? {
        assert rows == rows[flight.id := row];
        return;
      }
      if res.Success? {
        row := row.(status := Sent);
      } else if res.Rejected? {
        row := row.(status := SendFailed);
      } else if flight.attempt >= cfg.maxAttempts {
        row := row.(status := DeadLetter);
      } else {
        row := row.(status := RetryLater, nextAttemptAt := retryAt);
      }
      rows := rows[flight.id := row];
    }
  }
}
