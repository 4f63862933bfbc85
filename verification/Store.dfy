/** The database session and the clock that the services share. */
module Store {
  import opened Rows

  /** The tables, updated in place. */
  class Database {
    var runs: map<RunId, Run>
    var tasks: map<TaskId, Task>
    var agents: map<AgentId, AgentState>
    var signals: map<MessageId, Signal>
    var nonces: set<NonceKey>

    ghost function View(): Db
      reads this
    {
      Db(runs, tasks, agents, signals, nonces)
    }

    constructor ()
      ensures View() == Db(map[], map[], map[], map[], {})
    {
      runs, tasks, agents, signals, nonces := map[], map[], map[], map[], {};
    }
  }

  /** A clock that never runs backwards. */
  class Clock {
    var time: Time

    /** Reads the clock: some time may have passed since the last reading. */
    method Now() returns (now: Time)
      modifies this
      ensures now == time && old(time) <= time
    {
      var passed: nat :| true;
      time := time + passed;
      now := time;
    }

    /** Waits at least `delay`. */
    method Sleep(delay: nat)
      modifies this
      ensures old(time) + delay <= time
    {
      var passed: nat :| delay <= passed;
      time := time + passed;
    }
  }

  /** The times are successive readings of a clock that goes from `start` to `end`. */
  ghost predicate Readings(start: Time, times: seq<Time>, end: Time) {
    && start <= end
    && (forall i :: 0 <= i < |times| ==> start <= times[i] <= end)
    && (forall i, j :: 0 <= i < j < |times| ==> times[i] <= times[j])
  }

  lemma NoReading(start: Time)
    ensures Readings(start, [], start)
  {
  }

  lemma NextReading(start: Time, times: seq<Time>, end: Time, now: Time)
    requires Readings(start, times, end) && end <= now
    ensures Readings(start, times + [now], now)
  {
  }

  // ---------- SELECT ... ORDER BY ... LIMIT ----------

  /** A row of `rest` that no other row of `rest` precedes. */
  method Earliest(keys: map<nat, (int, int)>, rest: set<nat>) returns (best: nat)
    requires rest != {} && rest <= keys.Keys
    ensures best in rest && forall id :: id in rest ==> !KeyLess(keys[id], keys[best])
  {
    best :| best in rest;
    var todo := rest - {best};
    while todo != {}
      invariant best in rest && todo <= rest
      invariant forall id :: id in rest && id !in todo ==> !KeyLess(keys[id], keys[best])
      decreases todo
    {
      var id :| id in todo;
      if KeyLess(keys[id], keys[best]) {
        best := id;
      }
      todo := todo - {id};
    }
  }

  method TakeFirst(keys: map<nat, (int, int)>, limit: nat) returns (rows: seq<nat>)
    ensures IsFirst(keys, limit, rows)
  {
    rows := [];
    var rest := keys.Keys;
    while |rows| < limit && rest != {}
      invariant |rows| <= limit && Distinct(rows)
      invariant rest <= keys.Keys
      invariant forall id :: id in keys ==> (id in rest <==> id !in rows)
      invariant forall i :: 0 <= i < |rows| ==> rows[i] in keys
      invariant forall i, j :: 0 <= i < j < |rows| ==> !KeyLess(keys[rows[j]], keys[rows[i]])
      invariant forall id, i :: id in rest && 0 <= i < |rows| ==> !KeyLess(keys[id], keys[rows[i]])
      decreases rest
    {
      var best := Earliest(keys, rest);
      rows := rows + [best];
      rest := rest - {best};
    }
  }
}
