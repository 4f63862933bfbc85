/** The bounded replay and idempotency store of an agent runtime, against its unbounded log. */
module RuntimeStore {
  import opened Rows

  type Hash = nat
  type Ack = nat

  datatype AcceptedTask = AcceptedTask(bodyHash: Hash, ack: Ack)

  datatype Call = Call(nonce: NonceText, expiresAt: Time, now: Time, taskId: TaskId, bodyHash: Hash, ack: Ack)

  /** `Refused` and `Conflicting` are raised as errors; `Broken` is the failure of an eviction from an
      empty store, which only a store without room runs into. */
  datatype Answer = Refused | Conflicting | Repeated(ack: Ack) | Fresh(ack: Ack) | Broken

  /** `order` is the insertion order of the keys of `tasks`. */
  datatype State = State(nonces: map<NonceText, Time>, tasks: map<TaskId, AcceptedTask>, order: seq<TaskId>)

  const EMPTY := State(map[], map[], [])

  ghost predicate WellFormed(st: State) {
    Distinct(st.order) && (forall id :: id in st.tasks <==> id in st.order) && |st.tasks| == |st.order|
  }

  function Unexpired(nonces: map<NonceText, Time>, now: Time): map<NonceText, Time> {
    map n | n in nonces && nonces[n] > now :: nonces[n]
  }

  function AnswerTo(max: int, st: State, c: Call): Answer {
    if c.nonce in st.nonces && st.nonces[c.nonce] > c.now then Refused
    else if c.taskId in st.tasks then
      if st.tasks[c.taskId].bodyHash != c.bodyHash then Conflicting else Repeated(st.tasks[c.taskId].ack)
    else if |st.tasks| >= max && st.order == [] then Broken
    else Fresh(c.ack)
  }

  function After(max: int, st: State, c: Call): State {
    var live := Unexpired(st.nonces, c.now);
    var a := AnswerTo(max, st, c);
    if a.Refused? then st.(nonces := live)
    else if !a.Fresh? then st.(nonces := live[c.nonce := c.expiresAt])
    else if |st.tasks| >= max then
      State(live[c.nonce := c.expiresAt],
            (st.tasks - {st.order[0]})[c.taskId := AcceptedTask(c.bodyHash, c.ack)], st.order[1..] + [c.taskId])
    else
      State(live[c.nonce := c.expiresAt],
            st.tasks[c.taskId := AcceptedTask(c.bodyHash, c.ack)], st.order + [c.taskId])
  }

  lemma AfterIsWellFormed(max: int, st: State, c: Call)
    requires WellFormed(st)
    ensures WellFormed(After(max, st, c))
  {
    hide AnswerTo, Unexpired, WellFormed;
    var st' := After(max, st, c);
    if AnswerTo(max, st, c).Fresh? {
      FreshCall(max, st, c);
      var task := AcceptedTask(c.bodyHash, c.ack);
      if |st.tasks| >= max {
        EvictionIsWellFormed(st);
        InsertionIsWellFormed(State(st.nonces, st.tasks - {st.order[0]}, st.order[1..]), c.taskId, task);
      } else {
        InsertionIsWellFormed(st, c.taskId, task);
      }
      NoncesAreFree(State(st.nonces, st'.tasks, st'.order), st'.nonces);
    } else {
      NoncesAreFree(st, st'.nonces);
    }
  }

  lemma NoncesAreFree(st: State, nonces: map<NonceText, Time>)
    requires WellFormed(st)
    ensures WellFormed(st.(nonces := nonces))
  {
  }

  lemma FreshCall(max: int, st: State, c: Call)
    requires AnswerTo(max, st, c).Fresh?
    ensures c.taskId !in st.tasks && (|st.tasks| >= max ==> st.order != [])
  {
  }

  lemma EvictionIsWellFormed(st: State)
    requires WellFormed(st) && st.order != []
    ensures WellFormed(State(st.nonces, st.tasks - {st.order[0]}, st.order[1..]))
  {
    var rest := st.order[1..];
    assert st.order == [st.order[0]] + rest;
    assert (st.tasks - {st.order[0]}).Keys == st.tasks.Keys - {st.order[0]};
    assert |st.tasks - {st.order[0]}| == |st.tasks.Keys - {st.order[0]}|;
  }

  lemma InsertionIsWellFormed(st: State, id: TaskId, task: AcceptedTask)
    requires WellFormed(st) && id !in st.tasks
    ensures WellFormed(State(st.nonces, st.tasks[id := task], st.order + [id]))
  {
    assert st.tasks[id := task].Keys == st.tasks.Keys + {id};
    assert |st.tasks[id := task]| == |st.tasks.Keys + {id}|;
  }

  // ---------- the log ----------

  function StateAfter(max: int, calls: seq<Call>): State {
    if calls == [] then EMPTY else
      var n := |calls| - 1;
      After(max, StateAfter(max, calls[..n]), calls[n])
  }

  function AnswerAt(max: int, calls: seq<Call>, k: nat): Answer
    requires k < |calls|
  {
    AnswerTo(max, StateAfter(max, calls[..k]), calls[k])
  }

  /** The calls that were answered as new, in order: the tasks that the runtime went on to execute. */
  function Acceptances(max: int, calls: seq<Call>): seq<Call> {
    if calls == [] then [] else
      var n := |calls| - 1;
      Acceptances(max, calls[..n]) + (if AnswerAt(max, calls, n).Fresh? then [calls[n]] else [])
  }

  function Room(max: int): nat { if max < 0 then 0 else max }

  function LastOf<T>(s: seq<T>, n: nat): seq<T> {
    if |s| <= n then s else s[|s| - n..]
  }

  /** The store holds exactly the latest acceptances, as many as it has room for. */
  ghost predicate HoldsLatest(max: int, st: State, accepted: seq<Call>) {
    var kept := LastOf(accepted, Room(max));
    && |st.order| == |kept|
    && (forall i :: 0 <= i < |kept| ==> st.order[i] == kept[i].taskId)
    && (forall i :: 0 <= i < |kept| ==>
          kept[i].taskId in st.tasks && st.tasks[kept[i].taskId] == AcceptedTask(kept[i].bodyHash, kept[i].ack))
  }

  lemma EvictionKeepsLatest(max: int, st: State, accepted: seq<Call>, c: Call)
    requires WellFormed(st) && HoldsLatest(max, st, accepted)
    requires AnswerTo(max, st, c).Fresh? && |st.tasks| >= max
    ensures HoldsLatest(max, After(max, st, c), accepted + [c])
  {
    var st' := After(max, st, c);
    var kept, kept' := LastOf(accepted, Room(max)), LastOf(accepted + [c], Room(max));
    assert kept' == kept[1..] + [c];
    hide LastOf, After;
    forall i | 0 <= i < |kept'|
      ensures st'.order[i] == kept'[i].taskId && kept'[i].taskId in st'.tasks
      ensures st'.tasks[kept'[i].taskId] == AcceptedTask(kept'[i].bodyHash, kept'[i].ack)
    {
      assert i < |kept| - 1 ==> kept'[i] == kept[i + 1] && kept[i + 1].taskId == st.order[i + 1] != st.order[0];
    }
  }

  lemma AdditionKeepsLatest(max: int, st: State, accepted: seq<Call>, c: Call)
    requires WellFormed(st) && HoldsLatest(max, st, accepted)
    requires AnswerTo(max, st, c).Fresh? && |st.tasks| < max
    ensures HoldsLatest(max, After(max, st, c), accepted + [c])
  {
    var st' := After(max, st, c);
    var kept, kept' := LastOf(accepted, Room(max)), LastOf(accepted + [c], Room(max));
    assert kept' == kept + [c];
    hide LastOf, After;
    forall i | 0 <= i < |kept'|
      ensures st'.order[i] == kept'[i].taskId && kept'[i].taskId in st'.tasks
      ensures st'.tasks[kept'[i].taskId] == AcceptedTask(kept'[i].bodyHash, kept'[i].ack)
    {
      assert i < |kept| ==> kept'[i] == kept[i] && kept[i].taskId == st.order[i];
    }
  }

  lemma AcceptanceKeepsLatest(max: int, st: State, accepted: seq<Call>, c: Call)
    requires WellFormed(st) && HoldsLatest(max, st, accepted)
    ensures HoldsLatest(max, After(max, st, c), accepted + (if AnswerTo(max, st, c).Fresh? then [c] else []))
  {
    if !AnswerTo(max, st, c).Fresh? {
      assert accepted + [] == accepted;
    } else if |st.tasks| >= max {
      EvictionKeepsLatest(max, st, accepted, c);
    } else {
      AdditionKeepsLatest(max, st, accepted, c);
    }
  }

  /** Refinement: after any calls the tasks are exactly the last `max` acceptances, in order. */
  lemma {:induction false} StoreIsLogSuffix(max: int, calls: seq<Call>)
    ensures WellFormed(StateAfter(max, calls))
    ensures HoldsLatest(max, StateAfter(max, calls), Acceptances(max, calls))
  {
    if calls != [] {
      var n := |calls| - 1;
      StoreIsLogSuffix(max, calls[..n]);
      AfterIsWellFormed(max, StateAfter(max, calls[..n]), calls[n]);
      AcceptanceKeepsLatest(max, StateAfter(max, calls[..n]), Acceptances(max, calls[..n]), calls[n]);
    }
  }

  lemma RecentTasksAreHeld(max: int, st: State, accepted: seq<Call>)
    requires HoldsLatest(max, st, accepted)
    ensures forall i :: 0 <= i < |accepted| && |accepted| - Room(max) <= i ==> accepted[i].taskId in st.tasks
  {
    var kept := LastOf(accepted, Room(max));
    var lost := |accepted| - |kept|;
    forall i | 0 <= i < |accepted| && |accepted| - Room(max) <= i ensures accepted[i].taskId in st.tasks {
      assert kept[i - lost] == accepted[i];
    }
  }

  /** One task id is executed twice only after at least `max` other acceptances in between. */
  lemma {:induction false} RepeatedExecutionIsFarApart(max: int, calls: seq<Call>, i: nat, j: nat)
    requires i < j < |Acceptances(max, calls)|
    requires Acceptances(max, calls)[i].taskId == Acceptances(max, calls)[j].taskId
    ensures j - i - 1 >= max
  {
    var n := |calls| - 1;
    var before := Acceptances(max, calls[..n]);
    if j < |before| {
      RepeatedExecutionIsFarApart(max, calls[..n], i, j);
    } else {
      StoreIsLogSuffix(max, calls[..n]);
      RecentTasksAreHeld(max, StateAfter(max, calls[..n]), before);
    }
  }

  // ---------- answers ----------

  /** One of the acceptances that the store still remembers. */
  predicate Remembered(recent: seq<Call>, j: nat, id: TaskId) {
    j < |recent| && recent[j].taskId == id
  }

  lemma AnswerFromStore(max: int, st: State, accepted: seq<Call>, c: Call)
    requires 1 <= max && WellFormed(st) && HoldsLatest(max, st, accepted) && !AnswerTo(max, st, c).Refused?
    ensures var a, recent := AnswerTo(max, st, c), LastOf(accepted, max);
            && (c.taskId in st.tasks <==> exists j: nat :: Remembered(recent, j, c.taskId))
            && (forall j: nat :: Remembered(recent, j, c.taskId) ==>
                  a == if recent[j].bodyHash == c.bodyHash then Repeated(recent[j].ack) else Conflicting)
            && (c.taskId !in st.tasks ==> a == Fresh(c.ack))
  {
    var recent := LastOf(accepted, max);
    if c.taskId in st.tasks {
      var j :| 0 <= j < |st.order| && st.order[j] == c.taskId;
      assert Remembered(recent, j, c.taskId);
    }
  }

  /** The answer repeats the acknowledgement of a remembered acceptance if and only if that has the same
      task and the same body, it conflicts if and only if one has the same task and another body, and it is
      new if and only if none has the task. */
  ghost predicate Explained(recent: seq<Call>, c: Call, a: Answer) {
    && (forall ack :: a == Repeated(ack) <==>
          exists j: nat :: Remembered(recent, j, c.taskId) && recent[j].bodyHash == c.bodyHash && recent[j].ack == ack)
    && (a.Conflicting? <==> exists j: nat :: Remembered(recent, j, c.taskId) && recent[j].bodyHash != c.bodyHash)
    && (a.Fresh? <==> !exists j: nat :: Remembered(recent, j, c.taskId))
    && (a.Fresh? ==> a.ack == c.ack)
  }

  /** Every answer that is not a refusal is explained by the last `max` acceptances of the whole log. */
  lemma AnswersFollowLog(max: int, calls: seq<Call>, k: nat)
    requires 1 <= max && k < |calls| && !AnswerAt(max, calls, k).Refused?
    ensures Explained(LastOf(Acceptances(max, calls[..k]), max), calls[k], AnswerAt(max, calls, k))
  {
    hide AnswerTo, LastOf, HoldsLatest, WellFormed, StateAfter, Acceptances, Remembered, Explained;
    StoreIsLogSuffix(max, calls[..k]);
    var st, log := StateAfter(max, calls[..k]), Acceptances(max, calls[..k]);
    AnswerFromStore(max, st, log, calls[k]);
    AnswerIsDetermined(LastOf(log, max), calls[k], AnswerAt(max, calls, k), calls[k].taskId in st.tasks);
  }

  lemma AnswerIsDetermined(recent: seq<Call>, c: Call, a: Answer, held: bool)
    requires held <==> exists j: nat :: Remembered(recent, j, c.taskId)
    requires forall j: nat :: Remembered(recent, j, c.taskId) ==>
               a == if recent[j].bodyHash == c.bodyHash then Repeated(recent[j].ack) else Conflicting
    requires !held ==> a == Fresh(c.ack)
    ensures Explained(recent, c, a)
  {
    if held {
      var j: nat :| Remembered(recent, j, c.taskId);
      assert a == if recent[j].bodyHash == c.bodyHash then Repeated(recent[j].ack) else Conflicting;
    }
  }

  // ---------- nonces ----------

  predicate NonDecreasing(calls: seq<Call>) {
    forall i, j :: 0 <= i < j < |calls| ==> calls[i].now <= calls[j].now
  }

  /** Call `i` recorded its nonce, and that record has not expired at `now`. */
  predicate RecordedUse(max: int, calls: seq<Call>, i: nat, n: NonceText, now: Time) {
    i < |calls| && calls[i].nonce == n && !AnswerAt(max, calls, i).Refused? && calls[i].expiresAt > now
  }

  ghost predicate UsedBefore(max: int, calls: seq<Call>, n: NonceText, now: Time) {
    exists i: nat :: RecordedUse(max, calls, i, n, now)
  }

  lemma NonceAfter(max: int, st: State, c: Call, n: NonceText, now: Time)
    requires c.now <= now
    ensures var st' := After(max, st, c);
            n in st'.nonces && st'.nonces[n] > now <==>
              if c.nonce == n && !AnswerTo(max, st, c).Refused? then c.expiresAt > now
              else n in st.nonces && st.nonces[n] > now
  {
  }

  /** The nonces in the store are the unexpired ones of the log. */
  lemma {:induction false} NoncesMatchLog(max: int, calls: seq<Call>, n: NonceText, now: Time)
    requires NonDecreasing(calls)
    requires calls != [] ==> calls[|calls| - 1].now <= now
    ensures var st := StateAfter(max, calls);
            n in st.nonces && st.nonces[n] > now <==> UsedBefore(max, calls, n, now)
  {
    if calls == [] {
      assert !UsedBefore(max, calls, n, now);
    } else {
      var k := |calls| - 1;
      var c := calls[k];
      NoncesMatchLog(max, calls[..k], n, now);
      NoncesMatchLog(max, calls[..k], n, c.now);
      NonceAfter(max, StateAfter(max, calls[..k]), c, n, now);
      UsesOneMore(max, calls, n, now);
      if UsedBefore(max, calls[..k], n, now) {
        LaterUseIsEarlierUse(max, calls[..k], n, c.now, now);
      }
      hide After, UsedBefore;
    }
  }

  lemma LaterUseIsEarlierUse(max: int, calls: seq<Call>, n: NonceText, now: Time, later: Time)
    requires now <= later && UsedBefore(max, calls, n, later)
    ensures UsedBefore(max, calls, n, now)
  {
    hide AnswerAt;
    var i: nat :| RecordedUse(max, calls, i, n, later);
    assert RecordedUse(max, calls, i, n, now);
  }

  lemma UsesOneMore(max: int, calls: seq<Call>, n: NonceText, now: Time)
    requires calls != []
    ensures var k := |calls| - 1;
            UsedBefore(max, calls, n, now) <==> UsedBefore(max, calls[..k], n, now) || RecordedUse(max, calls, k, n, now)
  {
    var k := |calls| - 1;
    assert forall i :: 0 <= i < k ==> calls[..k][..i] == calls[..i];
    forall i: nat | i < k ensures RecordedUse(max, calls, i, n, now) <==> RecordedUse(max, calls[..k], i, n, now) {
      assert calls[..k][..i] == calls[..i];
    }
  }

  /** A nonce is refused if and only if an earlier call recorded it and that record is unexpired;
      a call that went on to raise a conflict recorded its nonce too. */
  lemma RefusedIffUnexpired(max: int, calls: seq<Call>, k: nat)
    requires NonDecreasing(calls) && k < |calls|
    ensures AnswerAt(max, calls, k).Refused? <==> UsedBefore(max, calls[..k], calls[k].nonce, calls[k].now)
  {
    NoncesMatchLog(max, calls[..k], calls[k].nonce, calls[k].now);
  }

  // ---------- the store ----------

  class RuntimeTaskStore {
    const maxEntries: int
    var nonces: map<NonceText, Time>
    var tasks: map<TaskId, AcceptedTask>
    var order: seq<TaskId>

    ghost function View(): State
      reads this
    {
      State(nonces, tasks, order)
    }

    constructor (maxEntries: int)
      ensures this.maxEntries == maxEntries && View() == EMPTY
    {
      this.maxEntries := maxEntries;
      nonces, tasks, order := map[], map[], [];
    }

    /** Accepts, repeats or refuses a task. */
    method Accept(c: Call) returns (answer: Answer)
      requires WellFormed(View())
      modifies this
      ensures WellFormed(View())
      ensures View() == After(maxEntries, old(View()), c)
      ensures answer == AnswerTo(maxEntries, old(View()), c)
    {
      hide WellFormed;
      AfterIsWellFormed(maxEntries, View(), c);
      nonces := map n | n in nonces && nonces[n] > c.now :: nonces[n];
      if c.nonce in nonces {
        return Refused;
      }
      nonces := nonces[c.nonce := c.expiresAt];
      if c.taskId in tasks {
        var existing := tasks[c.taskId];
        if existing.bodyHash != c.bodyHash {
          return Conflicting;
        }
        return Repeated(existing.ack);
      }
      if |tasks| >= maxEntries {
        if order == [] {
          return Broken;
        }
        var oldest := order[0];
        tasks := tasks - {oldest};
        order := order[1..];
      }
      tasks := tasks[c.taskId := AcceptedTask(c.bodyHash, c.ack)];
      order := order + [c.taskId];
      answer := Fresh(c.ack);
    }
  }
}
