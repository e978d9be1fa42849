/**
 The retry outbox for wallet actions that failed inline. Workers copy ready rows, call the platform for each copy and
 write the outcome back if the row is still pending. Rows are never deleted, so a row is known by its position.
 Times are in seconds.
 */
module BillingOutbox {

  const MAX_RETRIES := 10
  const BATCH_LIMIT := 50

  /** An action name other than the two known ones always fails. */
  datatype Action = Settle | Release | Unknown

  datatype Status = Pending | Done | Failed

  datatype Row = Row(action: Action, preAuth: int, amount: real, status: Status, retryCount: int, nextRetry: int, created: int)

  /** A worker's copy of a row, made when it claimed the row. */
  datatype Copy = Copy(id: nat, row: Row)

  /** A platform call a worker made, with the arguments it used, whether it succeeded, and when it was over. */
  datatype Attempt = Attempt(id: nat, action: Action, preAuth: int, amount: real, ok: bool, at: int)

  function Pow2(k: nat): (p: nat)
    ensures p >= 1
  {
    if k == 0 then 1 else 2 * Pow2(k - 1)
  }

  function Backoff(retryCount: int): int
  {
    if retryCount < 0 then 0 else 5 * Pow2(retryCount)
  }

  predicate CallSucceeds(row: Row, platformOk: bool)
  {
    row.action != Unknown && platformOk
  }

  /** The row as the worker writes it from its copy; only a row still pending is touched. */
  function Written(current: Row, copy: Row, ok: bool, now: int): Row
  {
    if current.status != Pending then current
    else if ok then current.(status := Done)
    else
      var retryCount := copy.retryCount + 1;
      if retryCount >= MAX_RETRIES then
        current.(retryCount := retryCount, nextRetry := copy.nextRetry, status := Failed)
      else
        current.(retryCount := retryCount, nextRetry := now + Backoff(retryCount), status := Pending)
  }

  predicate Ready(row: Row, now: int)
  {
    row.status == Pending && row.nextRetry <= now
  }

  /** What the claiming query may return: distinct ready rows, earliest first, and all of them up to the limit. */
  ghost predicate IsClaim(rows: seq<Row>, now: int, picked: seq<nat>)
  {
    && |picked| <= BATCH_LIMIT
    && (forall k :: 0 <= k < |picked| ==> picked[k] < |rows| && Ready(rows[picked[k]], now))
    && (forall j, k :: 0 <= j < k < |picked| ==> picked[j] != picked[k])
    && (forall j, k :: 0 <= j < k < |picked| ==> rows[picked[j]].nextRetry <= rows[picked[k]].nextRetry)
    && (|picked| < BATCH_LIMIT ==> forall i :: 0 <= i < |rows| && Ready(rows[i], now) ==> i in picked)
  }

  // ---- one worker ----

  class Outbox {
    var rows: seq<Row>
    var attempts: seq<Attempt>

    constructor ()
      ensures rows == [] && attempts == []
    {
      rows, attempts := [], [];
    }

    /** Enqueuing fails without a database, on a failed insert, and on a second row for the same action. */
    method Enqueue(action: Action, preAuth: int, amount: real, now: int, initialized: bool, insertOk: bool) returns (ok: bool)
      modifies this`rows
      ensures ok <==> initialized && insertOk
                      && forall r :: r in old(rows) ==> !(r.preAuth == preAuth && r.action == action)
      ensures rows == if ok then old(rows) + [Row(action, preAuth, amount, Pending, 0, now, now)] else old(rows)
    {
      if !initialized || exists r :: r in rows && r.preAuth == preAuth && r.action == action {
        return false;
      }
      if !insertOk {
        return false;
      }
      rows := rows + [Row(action, preAuth, amount, Pending, 0, now, now)];
      return true;
    }

    /** One poll over the rows the query returned; `clock` and `platformOk` are read once per row. */
    method ProcessBillingOutbox(ghost now: int, picked: seq<nat>, platformOk: nat -> bool, clock: nat -> int)
      requires IsClaim(rows, now, picked)
      modifies this
      ensures rows == Polled(old(rows), picked, platformOk, clock, |picked|)
      ensures attempts == old(attempts) + Attempted(old(rows), picked, platformOk, clock, |picked|)
    {
      var entries := rows;
      var i := 0;
      while i < |picked|
        invariant 0 <= i <= |picked|
        invariant entries == old(rows)
        invariant rows == Polled(entries, picked, platformOk, clock, i)
        invariant attempts == old(attempts) + Attempted(entries, picked, platformOk, clock, i)
      {
        var id := picked[i];
        var entry := entries[id];
        var ok := CallSucceeds(entry, platformOk(i));
        attempts := attempts + [Attempt(id, entry.action, entry.preAuth, entry.amount, ok, clock(i))];
        var retryCount, nextRetry, newStatus := entry.retryCount, entry.nextRetry, Pending;
        if !ok {
          retryCount := retryCount + 1;
          if retryCount >= MAX_RETRIES {
            newStatus := Failed;
          } else {
            nextRetry := clock(i) + Backoff(retryCount);
          }
        }
        if rows[id].status == Pending {
          if ok {
            rows := rows[id := rows[id].(status := Done)];
          } else {
            rows := rows[id := rows[id].(retryCount := retryCount, nextRetry := nextRetry, status := newStatus)];
          }
        }
        i := i + 1;
      }
    }
  }

  /** The table after the first `n` rows of a poll. */
  function Polled(rows: seq<Row>, picked: seq<nat>, platformOk: nat -> bool, clock: nat -> int, n: nat): (t: seq<Row>)
    requires n <= |picked| && forall k :: 0 <= k < |picked| ==> picked[k] < |rows|
    ensures |t| == |rows|
  {
    if n == 0 then rows
    else
      var t := Polled(rows, picked, platformOk, clock, n - 1);
      var id := picked[n - 1];
      t[id := Written(t[id], rows[id], CallSucceeds(rows[id], platformOk(n - 1)), clock(n - 1))]
  }

  function Attempted(rows: seq<Row>, picked: seq<nat>, platformOk: nat -> bool, clock: nat -> int, n: nat): (a: seq<Attempt>)
    requires n <= |picked| && forall k :: 0 <= k < |picked| ==> picked[k] < |rows|
    ensures |a| == n
  {
    if n == 0 then []
    else
      var row := rows[picked[n - 1]];
      Attempted(rows, picked, platformOk, clock, n - 1)
      + [Attempt(picked[n - 1], row.action, row.preAuth, row.amount, CallSucceeds(row, platformOk(n - 1)), clock(n - 1))]
  }

  function AttemptsOn(attempts: seq<Attempt>, id: nat): nat
  {
    if attempts == [] then 0
    else AttemptsOn(attempts[..|attempts| - 1], id) + (if attempts[|attempts| - 1].id == id then 1 else 0)
  }

  /** When a row was last attempted. */
  function LastAt(attempts: seq<Attempt>, id: nat): int
  {
    if attempts == [] then 0
    else if attempts[|attempts| - 1].id == id then attempts[|attempts| - 1].at
    else LastAt(attempts[..|attempts| - 1], id)
  }

  lemma {:induction false} LastAtSplit(a: seq<Attempt>, b: seq<Attempt>, id: nat)
    ensures LastAt(a + b, id) == if AttemptsOn(b, id) > 0 then LastAt(b, id) else LastAt(a, id)
  {
    if b == [] {
      assert a + b == a;
    } else {
      assert (a + b)[..|a + b| - 1] == a + b[..|b| - 1];
      LastAtSplit(a, b[..|b| - 1], id);
    }
  }

  lemma {:induction false} AttemptsOnSplit(a: seq<Attempt>, b: seq<Attempt>, id: nat)
    ensures AttemptsOn(a + b, id) == AttemptsOn(a, id) + AttemptsOn(b, id)
  {
    if b == [] {
      assert a + b == a;
    } else {
      assert (a + b)[..|a + b| - 1] == a + b[..|b| - 1];
      AttemptsOnSplit(a, b[..|b| - 1], id);
    }
  }

  /** The schedule a row is on: few enough retries, and not retried before the accumulated backoff has passed. */
  predicate OnSchedule(row: Row)
  {
    && 0 <= row.retryCount <= MAX_RETRIES
    && (row.status == Pending ==> row.retryCount < MAX_RETRIES && row.nextRetry >= row.created + 5 * (Pow2(row.retryCount + 1) - 2))
    && (row.status == Done ==> row.retryCount < MAX_RETRIES)
    && (row.status == Failed ==> row.retryCount == MAX_RETRIES)
  }

  /** The seconds a row waits after its first, second, ... failure. */
  const DELAYS: seq<int> := [10, 20, 40, 80, 160, 320, 640, 1280, 2560]

  /** The seconds by which it has been put off altogether before its first, second, ... failure. */
  const PUT_OFF: seq<int> := [0, 10, 30, 70, 150, 310, 630, 1270, 2550, 5110]

  /** A pending row is ready at once when it is new, and after the delay of its last failure otherwise. */
  predicate WaitsFor(row: Row, last: int)
  {
    row.status == Pending ==>
      && 0 <= row.retryCount < 10
      && row.nextRetry == if row.retryCount == 0 then row.created else last + DELAYS[row.retryCount - 1]
  }

  lemma BackoffIsDelay(k: nat)
    requires 1 <= k <= 9
    ensures Backoff(k) == DELAYS[k - 1]
  {
    assert Pow2(1) == 2 && Pow2(2) == 4 && Pow2(3) == 8 && Pow2(4) == 16;
    assert Pow2(5) == 32 && Pow2(6) == 64 && Pow2(7) == 128 && Pow2(8) == 256 && Pow2(9) == 512;
  }

  lemma WrittenWaits(row: Row, ok: bool, now: int)
    requires OnSchedule(row) && row.status == Pending
    ensures WaitsFor(Written(row, row, ok, now), now)
  {
    if !ok && row.retryCount < 9 {
      BackoffIsDelay(row.retryCount + 1);
    }
  }

  /** Every attempt is on some row and accounted for there: one per counted retry, and the one that succeeded. */
  ghost predicate Consistent(rows: seq<Row>, attempts: seq<Attempt>)
  {
    && (forall k :: 0 <= k < |attempts| ==> attempts[k].id < |rows|)
    && (forall i :: 0 <= i < |rows| ==> RowConsistent(rows[i], attempts, i))
  }

  predicate RowConsistent(row: Row, attempts: seq<Attempt>, id: nat)
  {
    && OnSchedule(row) && WaitsFor(row, LastAt(attempts, id))
    && AttemptsOn(attempts, id) == row.retryCount + (if row.status == Done then 1 else 0)
  }

  lemma WrittenOnSchedule(row: Row, ok: bool, now: int)
    requires OnSchedule(row) && row.status == Pending && row.nextRetry <= now
    ensures OnSchedule(Written(row, row, ok, now))
  {
    assert Pow2(row.retryCount + 2) == 2 * Pow2(row.retryCount + 1);
  }

  predicate PickedBefore(picked: seq<nat>, n: nat, id: nat)
    requires n <= |picked|
  {
    id in picked[..n]
  }

  lemma PickedStep(picked: seq<nat>, n: nat, id: nat)
    requires n < |picked|
    ensures PickedBefore(picked, n + 1, id) <==> PickedBefore(picked, n, id) || picked[n] == id
    ensures PickedBefore(picked, n, id) ==> exists k :: 0 <= k < n && picked[k] == id
  {
    assert picked[..n + 1] == picked[..n] + [picked[n]];
  }

  lemma PickedOnce(rows: seq<Row>, now: int, picked: seq<nat>, n: nat)
    requires IsClaim(rows, now, picked) && n < |picked|
    ensures !PickedBefore(picked, n, picked[n])
  {
  }

  /** The last step of a poll. */
  lemma LastAttempt(rows: seq<Row>, picked: seq<nat>, platformOk: nat -> bool, clock: nat -> int, n: nat, id: nat)
    requires 0 < n <= |picked| && forall k :: 0 <= k < |picked| ==> picked[k] < |rows|
    ensures AttemptsOn(Attempted(rows, picked, platformOk, clock, n), id) ==
            AttemptsOn(Attempted(rows, picked, platformOk, clock, n - 1), id) + (if picked[n - 1] == id then 1 else 0)
    ensures LastAt(Attempted(rows, picked, platformOk, clock, n), id) ==
            if picked[n - 1] == id then clock(n - 1) else LastAt(Attempted(rows, picked, platformOk, clock, n - 1), id)
  {
    var a := Attempted(rows, picked, platformOk, clock, n);
    assert a[..|a| - 1] == Attempted(rows, picked, platformOk, clock, n - 1);
  }

  /** A row a poll has not come to yet is as it was. */
  lemma {:induction false} NotYetPolled(
    rows: seq<Row>, picked: seq<nat>, platformOk: nat -> bool, clock: nat -> int, n: nat, id: nat)
    requires n <= |picked| && id < |rows| && !PickedBefore(picked, n, id)
    requires forall k :: 0 <= k < |picked| ==> picked[k] < |rows|
    ensures Polled(rows, picked, platformOk, clock, n)[id] == rows[id]
    ensures AttemptsOn(Attempted(rows, picked, platformOk, clock, n), id) == 0
  {
    if n > 0 {
      PickedStep(picked, n - 1, id);
      NotYetPolled(rows, picked, platformOk, clock, n - 1, id);
      LastAttempt(rows, picked, platformOk, clock, n, id);
    }
  }

  lemma OtherRowKept(rows: seq<Row>, picked: seq<nat>, platformOk: nat -> bool, clock: nat -> int, n: nat, id: nat)
    requires 0 < n <= |picked| && id < |rows| && picked[n - 1] != id
    requires forall k :: 0 <= k < |picked| ==> picked[k] < |rows|
    ensures Polled(rows, picked, platformOk, clock, n)[id] == Polled(rows, picked, platformOk, clock, n - 1)[id]
  {
  }

  /** A row a poll has come to was rewritten once, from a copy of its present state, after one attempt. */
  lemma {:induction false} PolledRow(
    rows: seq<Row>, picked: seq<nat>, platformOk: nat -> bool, clock: nat -> int, now: int, n: nat, id: nat) returns (k: nat)
    requires IsClaim(rows, now, picked) && n <= |picked| && id < |rows| && PickedBefore(picked, n, id)
    ensures k < n && picked[k] == id
    ensures Polled(rows, picked, platformOk, clock, n)[id] ==
            Written(rows[id], rows[id], CallSucceeds(rows[id], platformOk(k)), clock(k))
    ensures AttemptsOn(Attempted(rows, picked, platformOk, clock, n), id) == 1
    ensures LastAt(Attempted(rows, picked, platformOk, clock, n), id) == clock(k)
  {
    PickedStep(picked, n - 1, id);
    LastAttempt(rows, picked, platformOk, clock, n, id);
    if picked[n - 1] == id {
      k := n - 1;
      PickedOnce(rows, now, picked, n - 1);
      NotYetPolled(rows, picked, platformOk, clock, n - 1, id);
    } else {
      OtherRowKept(rows, picked, platformOk, clock, n, id);
      k := PolledRow(rows, picked, platformOk, clock, now, n - 1, id);
    }
  }

  /** Each claimed row is called for with its own arguments; an unknown action fails whatever the platform would say. */
  lemma {:induction false} AttemptedRows(rows: seq<Row>, picked: seq<nat>, platformOk: nat -> bool, clock: nat -> int, n: nat)
    requires n <= |picked| && forall k :: 0 <= k < |picked| ==> picked[k] < |rows|
    ensures forall k :: 0 <= k < n ==>
              Attempted(rows, picked, platformOk, clock, n)[k] ==
              Attempt(picked[k], rows[picked[k]].action, rows[picked[k]].preAuth, rows[picked[k]].amount,
                      rows[picked[k]].action != Unknown && platformOk(k), clock(k))
  {
    if n > 0 {
      AttemptedRows(rows, picked, platformOk, clock, n - 1);
    }
  }

  lemma PollKeepsRow(
    rows: seq<Row>, attempts: seq<Attempt>, picked: seq<nat>, platformOk: nat -> bool, clock: nat -> int, now: int, id: nat)
    requires IsClaim(rows, now, picked) && id < |rows| && RowConsistent(rows[id], attempts, id)
    requires forall k :: 0 <= k < |picked| ==> clock(k) >= now
    ensures RowConsistent(Polled(rows, picked, platformOk, clock, |picked|)[id],
                          attempts + Attempted(rows, picked, platformOk, clock, |picked|), id)
  {
    var a := Attempted(rows, picked, platformOk, clock, |picked|);
    AttemptsOnSplit(attempts, a, id);
    LastAtSplit(attempts, a, id);
    if PickedBefore(picked, |picked|, id) {
      var k := PolledRow(rows, picked, platformOk, clock, now, |picked|, id);
      WrittenWaits(rows[id], CallSucceeds(rows[id], platformOk(k)), clock(k));
      WrittenOnSchedule(rows[id], CallSucceeds(rows[id], platformOk(k)), clock(k));
    } else {
      NotYetPolled(rows, picked, platformOk, clock, |picked|, id);
    }
  }

  /** With a single worker, every poll keeps the schedule and the attempt account of every row. */
  lemma PollKeepsConsistent(
    rows: seq<Row>, attempts: seq<Attempt>, picked: seq<nat>, platformOk: nat -> bool, clock: nat -> int, now: int)
    requires IsClaim(rows, now, picked) && Consistent(rows, attempts)
    requires forall k :: 0 <= k < |picked| ==> clock(k) >= now
    ensures Consistent(Polled(rows, picked, platformOk, clock, |picked|),
                       attempts + Attempted(rows, picked, platformOk, clock, |picked|))
  {
    AttemptedRows(rows, picked, platformOk, clock, |picked|);
    forall i | 0 <= i < |rows|
      ensures RowConsistent(Polled(rows, picked, platformOk, clock, |picked|)[i],
                            attempts + Attempted(rows, picked, platformOk, clock, |picked|), i)
    {
      PollKeepsRow(rows, attempts, picked, platformOk, clock, now, i);
    }
  }

  /** A row as it is enqueued. */
  predicate Enqueued(row: Row)
  {
    row.status == Pending && row.retryCount == 0 && row.nextRetry == row.created
  }

  lemma EnqueueKeepsConsistent(rows: seq<Row>, attempts: seq<Attempt>, row: Row)
    requires Consistent(rows, attempts) && Enqueued(row)
    ensures Consistent(rows + [row], attempts)
  {
    assert Pow2(1) == 2;
    NoAttempts(attempts, |rows|);
  }

  lemma {:induction false} NoAttempts(attempts: seq<Attempt>, id: nat)
    requires forall k :: 0 <= k < |attempts| ==> attempts[k].id != id
    ensures AttemptsOn(attempts, id) == 0
  {
    if attempts != [] {
      NoAttempts(attempts[..|attempts| - 1], id);
    }
  }

  // ---- progress ----

  function Budget(row: Row): int
  {
    if row.status == Pending then MAX_RETRIES - row.retryCount else 0
  }

  /** Attempts the pending rows have left between them. */
  function TotalBudget(rows: seq<Row>): int
  {
    if rows == [] then 0 else TotalBudget(rows[..|rows| - 1]) + Budget(rows[|rows| - 1])
  }

  lemma {:induction false} BudgetUpdated(rows: seq<Row>, id: nat, row: Row)
    requires id < |rows|
    ensures TotalBudget(rows[id := row]) == TotalBudget(rows) - Budget(rows[id]) + Budget(row)
  {
    var t := rows[id := row];
    if id == |rows| - 1 {
      assert t[..|t| - 1] == rows[..|rows| - 1];
    } else {
      assert t[..|t| - 1] == rows[..|rows| - 1][id := row];
      BudgetUpdated(rows[..|rows| - 1], id, row);
    }
  }

  lemma WrittenSpends(row: Row, ok: bool, now: int)
    requires OnSchedule(row) && row.status == Pending
    ensures Budget(Written(row, row, ok, now)) < Budget(row)
  {
  }

  lemma {:induction false} PolledBudget(
    rows: seq<Row>, picked: seq<nat>, platformOk: nat -> bool, clock: nat -> int, now: int, n: nat)
    requires IsClaim(rows, now, picked) && n <= |picked|
    requires forall i :: 0 <= i < |rows| ==> OnSchedule(rows[i])
    ensures TotalBudget(Polled(rows, picked, platformOk, clock, n)) <= TotalBudget(rows) - n
  {
    if n > 0 {
      PolledBudget(rows, picked, platformOk, clock, now, n - 1);
      NextRowSpends(rows, picked, platformOk, clock, now, n - 1);
    }
  }

  lemma NextRowSpends(
    rows: seq<Row>, picked: seq<nat>, platformOk: nat -> bool, clock: nat -> int, now: int, n: nat)
    requires IsClaim(rows, now, picked) && n < |picked| && OnSchedule(rows[picked[n]])
    ensures TotalBudget(Polled(rows, picked, platformOk, clock, n + 1)) < TotalBudget(Polled(rows, picked, platformOk, clock, n))
  {
    var t, id := Polled(rows, picked, platformOk, clock, n), picked[n];
    PickedOnce(rows, now, picked, n);
    NotYetPolled(rows, picked, platformOk, clock, n, id);
    WrittenSpends(rows[id], CallSucceeds(rows[id], platformOk(n)), clock(n));
    BudgetUpdated(t, id, Written(t[id], rows[id], CallSucceeds(rows[id], platformOk(n)), clock(n)));
  }

  /** A poll that finds a ready row uses up at least one attempt of the total budget, so the outbox drains. */
  lemma {:induction false} PollMakesProgress(rows: seq<Row>, picked: seq<nat>, platformOk: nat -> bool, clock: nat -> int, now: int, ready: nat)
    requires IsClaim(rows, now, picked) && ready < |rows| && Ready(rows[ready], now)
    requires forall i :: 0 <= i < |rows| ==> OnSchedule(rows[i])
    ensures TotalBudget(Polled(rows, picked, platformOk, clock, |picked|)) < TotalBudget(rows)
  {
    PolledBudget(rows, picked, platformOk, clock, now, |picked|);
    assert |picked| == BATCH_LIMIT || ready in picked;
  }

  lemma {:induction false} BudgetBounds(rows: seq<Row>)
    requires forall i :: 0 <= i < |rows| ==> OnSchedule(rows[i])
    ensures 0 <= TotalBudget(rows) <= MAX_RETRIES * |rows|
  {
    if rows != [] {
      BudgetBounds(rows[..|rows| - 1]);
    }
  }

  // ---- whole runs of one worker ----

  /** The table and every attempt made so far. */
  datatype Ledger = Ledger(rows: seq<Row>, attempts: seq<Attempt>)

  /** What happens to the outbox of a single worker: a row is enqueued, or the worker polls. */
  datatype Turn =
    | Queued(row: Row)
    | Poll(now: int, picked: seq<nat>, platformOk: nat -> bool, clock: nat -> int)

  ghost predicate Possible(s: Ledger, t: Turn)
  {
    match t
    case Queued(row) => Enqueued(row)
    case Poll(now, picked, _, clock) => IsClaim(s.rows, now, picked) && forall k :: 0 <= k < |picked| ==> clock(k) >= now
  }

  ghost function Next(s: Ledger, t: Turn): Ledger
    requires Possible(s, t)
  {
    match t
    case Queued(row) => Ledger(s.rows + [row], s.attempts)
    case Poll(_, picked, platformOk, clock) =>
      Ledger(Polled(s.rows, picked, platformOk, clock, |picked|),
             s.attempts + Attempted(s.rows, picked, platformOk, clock, |picked|))
  }

  ghost predicate IsHistory(s: Ledger, turns: seq<Turn>)
    decreases |turns|
  {
    turns != [] ==> Possible(s, turns[0]) && IsHistory(Next(s, turns[0]), turns[1..])
  }

  ghost function Finally(s: Ledger, turns: seq<Turn>): Ledger
    requires IsHistory(s, turns)
    decreases |turns|
  {
    if turns == [] then s else Finally(Next(s, turns[0]), turns[1..])
  }

  /** The polls of a history that found a ready row. */
  ghost function BusyPolls(s: Ledger, turns: seq<Turn>): nat
    requires IsHistory(s, turns)
    decreases |turns|
  {
    if turns == [] then 0
    else (if turns[0].Poll? && turns[0].picked != [] then 1 else 0) + BusyPolls(Next(s, turns[0]), turns[1..])
  }

  function Enqueues(turns: seq<Turn>): nat
  {
    if turns == [] then 0 else (if turns[0].Queued? then 1 else 0) + Enqueues(turns[1..])
  }

  lemma TurnKeepsConsistent(s: Ledger, t: Turn)
    requires Possible(s, t) && Consistent(s.rows, s.attempts)
    ensures Consistent(Next(s, t).rows, Next(s, t).attempts)
  {
    match t {
      case Queued(row) => EnqueueKeepsConsistent(s.rows, s.attempts, row);
      case Poll(now, picked, platformOk, clock) =>
        PollKeepsConsistent(s.rows, s.attempts, picked, platformOk, clock, now);
    }
  }

  /** Enqueuing grants a row its attempts, and a busy poll uses up at least one. */
  lemma TurnSpends(s: Ledger, t: Turn)
    requires Possible(s, t) && Consistent(s.rows, s.attempts)
    ensures var spent := if t.Poll? && t.picked != [] then 1 else 0;
            TotalBudget(Next(s, t).rows) + spent <= TotalBudget(s.rows) + (if t.Queued? then MAX_RETRIES else 0)
  {
    match t {
      case Queued(row) => assert (s.rows + [row])[..|s.rows|] == s.rows;
      case Poll(now, picked, platformOk, clock) =>
        PolledBudget(s.rows, picked, platformOk, clock, now, |picked|);
    }
  }

  lemma {:induction false} HistoryFrom(s: Ledger, turns: seq<Turn>)
    requires Consistent(s.rows, s.attempts) && IsHistory(s, turns)
    ensures var end := Finally(s, turns);
            && Consistent(end.rows, end.attempts) && |end.rows| == |s.rows| + Enqueues(turns)
            && BusyPolls(s, turns) + TotalBudget(end.rows) <= TotalBudget(s.rows) + MAX_RETRIES * Enqueues(turns)
    decreases |turns|
  {
    if turns != [] {
      TurnKeepsConsistent(s, turns[0]);
      TurnSpends(s, turns[0]);
      HistoryFrom(Next(s, turns[0]), turns[1..]);
    }
  }

  /**
   Every history of a single worker, from the empty outbox: each row is attempted ten times at most, a failed one
   exactly ten times; a pending row waits out the delay of its last failure, and is ready no earlier than all its delays
   after its creation; and the polls that find something ready number no more than ten for each row ever enqueued.
   */
  lemma HistoryIsBounded(turns: seq<Turn>)
    requires IsHistory(Ledger([], []), turns)
    ensures var end := Finally(Ledger([], []), turns);
            && |end.rows| == Enqueues(turns)
            && BusyPolls(Ledger([], []), turns) <= 10 * Enqueues(turns)
            && forall i :: 0 <= i < |end.rows| ==> Bounded(end.rows[i], AttemptsOn(end.attempts, i), LastAt(end.attempts, i))
  {
    var end := Finally(Ledger([], []), turns);
    HistoryFrom(Ledger([], []), turns);
    BudgetBounds(end.rows);
    forall i | 0 <= i < |end.rows| ensures Bounded(end.rows[i], AttemptsOn(end.attempts, i), LastAt(end.attempts, i)) {
      ScheduledIsBounded(end.rows[i], AttemptsOn(end.attempts, i), LastAt(end.attempts, i));
    }
  }

  lemma ScheduledIsBounded(row: Row, n: nat, last: int)
    requires OnSchedule(row) && WaitsFor(row, last) && n == row.retryCount + (if row.status == Done then 1 else 0)
    ensures Bounded(row, n, last)
  {
    if row.status == Pending {
      PutOffBy(row.retryCount);
    }
  }

  lemma PutOffBy(k: nat)
    requires k <= 9
    ensures 5 * (Pow2(k + 1) - 2) == PUT_OFF[k]
  {
    assert Pow2(1) == 2 && Pow2(2) == 4 && Pow2(3) == 8 && Pow2(4) == 16 && Pow2(5) == 32;
    assert Pow2(6) == 64 && Pow2(7) == 128 && Pow2(8) == 256 && Pow2(9) == 512 && Pow2(10) == 1024;
  }

  /** What a single worker guarantees of a row that has been attempted `n` times, the last time at `last`. */
  predicate Bounded(row: Row, n: nat, last: int)
  {
    && n <= 10
    && (row.status == Failed ==> n == 10)
    && (row.status == Pending ==>
          && n < 10 && row.nextRetry >= row.created + PUT_OFF[n]
          && row.nextRetry == if n == 0 then row.created else last + DELAYS[n - 1])
  }
}
