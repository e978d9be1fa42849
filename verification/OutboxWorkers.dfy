/**
 The retry outbox under several workers: any interleaving of claims, calls and lost writes, with workers acting on
 copies that may be stale.
 */
module OutboxWorkers {
  import opened BillingOutbox

  /** The shared table, the copies each worker has yet to process, and every platform call made so far. */
  datatype System = System(rows: seq<Row>, held: map<int, seq<Copy>>, attempts: seq<Attempt>)

  /**
   A worker may claim rows another worker already holds: the claiming query takes its locks outside a transaction,
   so they are gone once it has returned. Any write may be lost, and a worker may stop at any point.
   */
  datatype Event =
    | Insert(row: Row)
    | Claim(pod: int, now: int, picked: seq<nat>)
    | Process(pod: int, platformOk: bool, writeOk: bool, now: int)
    | Crash(pod: int)

  function Queue(s: System, pod: int): seq<Copy>
  {
    if pod in s.held then s.held[pod] else []
  }

  ghost predicate Enabled(s: System, e: Event)
  {
    match e
    case Insert(row) => row.status == Pending && row.retryCount == 0
    case Claim(pod, now, picked) => Queue(s, pod) == [] && IsClaim(s.rows, now, picked)
    case Process(pod, _, _, _) => Queue(s, pod) != [] && Queue(s, pod)[0].id < |s.rows|
    case Crash(_) => true
  }

  function Copies(rows: seq<Row>, picked: seq<nat>): (c: seq<Copy>)
    requires forall k :: 0 <= k < |picked| ==> picked[k] < |rows|
    ensures |c| == |picked|
  {
    seq(|picked|, k requires 0 <= k < |picked| => Copy(picked[k], rows[picked[k]]))
  }

  ghost function After(s: System, e: Event): System
    requires Enabled(s, e)
  {
    match e
    case Insert(row) => s.(rows := s.rows + [row])
    case Claim(pod, now, picked) => s.(held := s.held[pod := Copies(s.rows, picked)])
    case Process(pod, platformOk, writeOk, now) =>
      var copy := Queue(s, pod)[0];
      var ok := CallSucceeds(copy.row, platformOk);
      System(
        if writeOk then s.rows[copy.id := Written(s.rows[copy.id], copy.row, ok, now)] else s.rows,
        s.held[pod := Queue(s, pod)[1..]],
        s.attempts + [Attempt(copy.id, copy.row.action, copy.row.preAuth, copy.row.amount, ok, now)])
    case Crash(pod) => s.(held := s.held[pod := []])
  }

  ghost predicate IsRun(s: System, run: seq<Event>)
    decreases |run|
  {
    run != [] ==> Enabled(s, run[0]) && IsRun(After(s, run[0]), run[1..])
  }

  ghost function End(s: System, run: seq<Event>): System
    requires IsRun(s, run)
    decreases |run|
  {
    if run == [] then s else End(After(s, run[0]), run[1..])
  }

  /** A row that has been done or has failed never changes again, whatever stale copies are still held. */
  lemma {:induction false} ClosedRowsAreFinal(s: System, run: seq<Event>, id: nat)
    requires IsRun(s, run) && id < |s.rows| && s.rows[id].status != Pending
    ensures id < |End(s, run).rows| && End(s, run).rows[id] == s.rows[id]
    decreases |run|
  {
    if run != [] {
      ClosedRowsAreFinal(After(s, run[0]), run[1..], id);
    }
  }

  /** How often a row goes from pending to done or failed during a run. */
  ghost function Closings(s: System, run: seq<Event>, id: nat): nat
    requires IsRun(s, run) && id < |s.rows|
    decreases |run|
  {
    if run == [] then 0
    else
      var t := After(s, run[0]);
      (if s.rows[id].status == Pending && t.rows[id].status != Pending then 1 else 0) + Closings(t, run[1..], id)
  }

  lemma {:induction false} RowClosesAtMostOnce(s: System, run: seq<Event>, id: nat)
    requires IsRun(s, run) && id < |s.rows|
    ensures Closings(s, run, id) <= if s.rows[id].status == Pending then 1 else 0
    decreases |run|
  {
    if run != [] {
      RowClosesAtMostOnce(After(s, run[0]), run[1..], id);
    }
  }

  predicate SameAction(a: Row, b: Row)
  {
    a.action == b.action && a.preAuth == b.preAuth && a.amount == b.amount
  }

  ghost predicate Succeeded(s: System, id: nat)
    requires id < |s.rows|
  {
    exists at :: Attempt(id, s.rows[id].action, s.rows[id].preAuth, s.rows[id].amount, true, at) in s.attempts
  }

  /** Copies are of existing rows with the same action, and a row is done only after a call for its own action succeeded. */
  ghost predicate Faithful(s: System)
  {
    && (forall pod, k :: pod in s.held && 0 <= k < |s.held[pod]| ==>
          s.held[pod][k].id < |s.rows| && SameAction(s.held[pod][k].row, s.rows[s.held[pod][k].id]))
    && (forall i :: 0 <= i < |s.rows| && s.rows[i].status == Done ==> Succeeded(s, i))
  }

  lemma EventKeepsFaithful(s: System, e: Event)
    requires Faithful(s) && Enabled(s, e)
    ensures Faithful(After(s, e))
  {
    var t := After(s, e);
    forall i | 0 <= i < |t.rows| && t.rows[i].status == Done ensures Succeeded(t, i) {
      if i < |s.rows| && s.rows[i].status == Done {
        var at :| Attempt(i, s.rows[i].action, s.rows[i].preAuth, s.rows[i].amount, true, at) in s.attempts;
        assert Attempt(i, t.rows[i].action, t.rows[i].preAuth, t.rows[i].amount, true, at) in t.attempts;
      } else if e.Process? {
        assert t.attempts[|s.attempts|] in t.attempts;
      }
    }
  }

  /** No interleaving marks a row done without a successful call for that row's action, pre-authorisation and amount. */
  lemma {:induction false} DoneOnlyAfterOwnCall(s: System, run: seq<Event>)
    requires Faithful(s) && IsRun(s, run)
    ensures Faithful(End(s, run))
    decreases |run|
  {
    if run != [] {
      EventKeepsFaithful(s, run[0]);
      DoneOnlyAfterOwnCall(After(s, run[0]), run[1..]);
    }
  }

  // ---- when a row is called for twice ----

  function Successes(attempts: seq<Attempt>, id: nat): nat
  {
    if attempts == [] then 0
    else
      var last := attempts[|attempts| - 1];
      Successes(attempts[..|attempts| - 1], id) + (if last.id == id && last.ok then 1 else 0)
  }

  ghost predicate Holds(s: System, id: nat)
  {
    exists pod, k :: pod in s.held && 0 <= k < |s.held[pod]| && s.held[pod][k].id == id
  }

  /** Claims that respect what the locks were meant to guarantee, and writes that are not lost. */
  ghost predicate Exclusive(s: System, e: Event)
  {
    && (e.Claim? ==> forall k :: 0 <= k < |e.picked| ==> !Holds(s, e.picked[k]))
    && (e.Process? ==> e.writeOk)
  }

  ghost predicate ExclusiveRun(s: System, run: seq<Event>)
    requires IsRun(s, run)
    decreases |run|
  {
    run != [] ==> Exclusive(s, run[0]) && ExclusiveRun(After(s, run[0]), run[1..])
  }

  /** No row is held twice. */
  ghost predicate HeldOnce(held: map<int, seq<Copy>>)
  {
    forall p, j, q, k :: p in held && q in held && 0 <= j < |held[p]| && 0 <= k < |held[q]| && (p != q || j != k)
      ==> held[p][j].id != held[q][k].id
  }

  /** Rows are held once at most, and pending while held; exactly the done rows have a successful call, and just one. */
  ghost predicate Owned(s: System)
  {
    && HeldOnce(s.held)
    && (forall p, j :: p in s.held && 0 <= j < |s.held[p]| ==>
          s.held[p][j].id < |s.rows| && s.rows[s.held[p][j].id].status == Pending)
    && (forall i :: 0 <= i < |s.rows| ==> Successes(s.attempts, i) == if s.rows[i].status == Done then 1 else 0)
    && (forall k :: 0 <= k < |s.attempts| ==> s.attempts[k].id < |s.rows|)
  }

  lemma {:induction false} NoSuccesses(attempts: seq<Attempt>, id: nat)
    requires forall k :: 0 <= k < |attempts| ==> attempts[k].id != id
    ensures Successes(attempts, id) == 0
  {
    if attempts != [] {
      NoSuccesses(attempts[..|attempts| - 1], id);
    }
  }

  lemma ClaimKeepsOwned(s: System, pod: int, now: int, picked: seq<nat>)
    requires Owned(s) && Enabled(s, Claim(pod, now, picked)) && Exclusive(s, Claim(pod, now, picked))
    ensures Owned(After(s, Claim(pod, now, picked)))
  {
    var t := After(s, Claim(pod, now, picked));
    forall p, j | p in t.held && 0 <= j < |t.held[p]| && p != pod
      ensures forall k :: 0 <= k < |picked| ==> t.held[pod][k].id != t.held[p][j].id
    {
      assert Holds(s, s.held[p][j].id);
    }
  }

  lemma ProcessKeepsOwned(s: System, pod: int, platformOk: bool, now: int)
    requires Owned(s) && Enabled(s, Process(pod, platformOk, true, now))
    ensures Owned(After(s, Process(pod, platformOk, true, now)))
  {
    var t := After(s, Process(pod, platformOk, true, now));
    var id := s.held[pod][0].id;
    assert t.attempts[..|t.attempts| - 1] == s.attempts;
    forall p, j | p in t.held && 0 <= j < |t.held[p]|
      ensures t.held[p][j].id != id && t.held[p][j].id < |s.rows| && s.rows[t.held[p][j].id].status == Pending
    {
      if p == pod {
        assert t.held[p][j] == s.held[pod][j + 1];
      } else {
        assert t.held[p][j] == s.held[p][j];
      }
    }
    assert HeldOnce(t.held) by {
      forall p, j, q, k | p in t.held && q in t.held && 0 <= j < |t.held[p]| && 0 <= k < |t.held[q]| && (p != q || j != k)
        ensures t.held[p][j].id != t.held[q][k].id
      {
        var j', k' := if p == pod then j + 1 else j, if q == pod then k + 1 else k;
        assert t.held[p][j] == s.held[p][j'] && t.held[q][k] == s.held[q][k'];
      }
    }
  }

  lemma InsertKeepsOwned(s: System, row: Row)
    requires Owned(s) && Enabled(s, Insert(row))
    ensures Owned(After(s, Insert(row)))
  {
    NoSuccesses(s.attempts, |s.rows|);
  }

  /** While no two workers hold the same row and no write is lost, each row gets at most one successful call. */
  lemma {:induction false} ExclusiveRunCallsOnce(s: System, run: seq<Event>)
    requires Owned(s) && IsRun(s, run) && ExclusiveRun(s, run)
    ensures Owned(End(s, run))
    ensures forall i :: 0 <= i < |End(s, run).rows| ==> Successes(End(s, run).attempts, i) <= 1
    decreases |run|
  {
    if run != [] {
      match run[0] {
        case Insert(row) => InsertKeepsOwned(s, row);
        case Claim(pod, now, picked) => ClaimKeepsOwned(s, pod, now, picked);
        case Process(pod, platformOk, _, now) => ProcessKeepsOwned(s, pod, platformOk, now);
        case Crash(pod) =>
      }
      ExclusiveRunCallsOnce(After(s, run[0]), run[1..]);
    }
  }

  lemma RunCons(s: System, e: Event, rest: seq<Event>)
    requires Enabled(s, e) && IsRun(After(s, e), rest)
    ensures IsRun(s, [e] + rest) && End(s, [e] + rest) == End(After(s, e), rest)
  {
    assert ([e] + rest)[1..] == rest;
  }

  lemma {:induction false} RowsRemain(t: System, run: seq<Event>)
    requires IsRun(t, run)
    ensures |End(t, run).rows| >= |t.rows|
    decreases |run|
  {
    if run != [] {
      RowsRemain(After(t, run[0]), run[1..]);
    }
  }
}
