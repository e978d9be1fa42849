/**
 What the number of workers and the fate of their writes mean for the outbox: exactly which deployments call the
 platform successfully at most once for a row, and attempt a row no more often than its retries allow.
 */
module OutboxDeployment {
  import opened BillingOutbox
  import opened OutboxWorkers

  const EMPTY := System([], map[], [])

  /** Events a deployment with these workers can produce; rows are enqueued by anyone. */
  predicate Allowed(e: Event, pods: set<int>, writesKept: bool)
  {
    match e
    case Insert(_) => true
    case Claim(pod, _, _) => pod in pods
    case Process(pod, _, writeOk, _) => pod in pods && (writesKept ==> writeOk)
    case Crash(pod) => pod in pods
  }

  ghost predicate ByWorkers(run: seq<Event>, pods: set<int>, writesKept: bool)
  {
    forall i :: 0 <= i < |run| ==> Allowed(run[i], pods, writesKept)
  }

  /** A deployment in which no row is ever called for successfully twice. */
  ghost predicate CallsAtMostOnce(pods: set<int>, writesKept: bool)
  {
    forall run :: IsRun(EMPTY, run) && ByWorkers(run, pods, writesKept) ==>
      forall i :: 0 <= i < |End(EMPTY, run).rows| ==> Successes(End(EMPTY, run).attempts, i) <= 1
  }

  /** A deployment in which no row is ever attempted more than ten times. */
  ghost predicate KeepsToRetries(pods: set<int>, writesKept: bool)
  {
    forall run :: IsRun(EMPTY, run) && ByWorkers(run, pods, writesKept) ==>
      forall i :: 0 <= i < |End(EMPTY, run).rows| ==> AttemptsOn(End(EMPTY, run).attempts, i) <= MAX_RETRIES
  }

  /** At most one worker, whose writes are never lost. */
  predicate LoneAndReliable(pods: set<int>, writesKept: bool)
  {
    pods == {} || (|pods| == 1 && writesKept)
  }

  lemma Pick<T>(s: set<T>) returns (x: T)
    requires s != {}
    ensures x in s
  {
    x :| x in s;
  }

  lemma Singleton(pods: set<int>) returns (p: int)
    requires |pods| == 1
    ensures pods == {p}
  {
    p := Pick(pods);
    assert |pods - {p}| == 0;
  }

  lemma TwoOf(pods: set<int>) returns (p: int, q: int)
    requires |pods| > 1
    ensures p != q && p in pods && q in pods
  {
    p := Pick(pods);
    assert |pods - {p}| > 0;
    q := Pick(pods - {p});
  }

  // ---- runs put together ----

  lemma {:induction false} RunConcat(s: System, a: seq<Event>, b: seq<Event>)
    requires IsRun(s, a) && IsRun(End(s, a), b)
    ensures IsRun(s, a + b) && End(s, a + b) == End(End(s, a), b)
    decreases |a|
  {
    if a == [] {
      assert a + b == b;
    } else {
      assert (a + b)[1..] == a[1..] + b;
      RunConcat(After(s, a[0]), a[1..], b);
    }
  }

  lemma RunOne(s: System, e: Event)
    requires Enabled(s, e)
    ensures IsRun(s, [e]) && End(s, [e]) == After(s, e)
  {
    assert [e] == [e] + [];
    RunCons(s, e, []);
  }

  lemma RunTwo(s: System, a: Event, b: Event)
    requires Enabled(s, a) && Enabled(After(s, a), b)
    ensures IsRun(s, [a, b]) && End(s, [a, b]) == After(After(s, a), b)
  {
    RunOne(After(s, a), b);
    RunCons(s, a, [b]);
    assert [a] + [b] == [a, b];
  }

  // ---- a single worker ----

  ghost predicate OnlyHolder(s: System, p: int)
  {
    forall q :: q in s.held && q != p ==> s.held[q] == []
  }

  /** A lone worker that keeps its writes never claims what is still held. */
  lemma {:induction false} LoneWorkerIsExclusive(s: System, run: seq<Event>, p: int)
    requires OnlyHolder(s, p) && IsRun(s, run) && ByWorkers(run, {p}, true)
    ensures ExclusiveRun(s, run)
    decreases |run|
  {
    if run != [] {
      assert Allowed(run[0], {p}, true);
      assert ByWorkers(run[1..], {p}, true);
      LoneWorkerIsExclusive(After(s, run[0]), run[1..], p);
    }
  }

  lemma LoneWorkerCallsOnce(run: seq<Event>, p: int)
    requires IsRun(EMPTY, run) && ByWorkers(run, {p}, true)
    ensures forall i :: 0 <= i < |End(EMPTY, run).rows| ==> Successes(End(EMPTY, run).attempts, i) <= 1
  {
    LoneWorkerIsExclusive(EMPTY, run, p);
    ExclusiveRunCallsOnce(EMPTY, run);
  }

  predicate WithinRetries(row: Row)
  {
    0 <= row.retryCount && (if row.status == Failed then row.retryCount == MAX_RETRIES else row.retryCount < MAX_RETRIES)
  }

  /** Every attempt is on some row and accounted for there. */
  ghost predicate Accounted(s: System)
  {
    && (forall k :: 0 <= k < |s.attempts| ==> s.attempts[k].id < |s.rows|)
    && (forall i :: 0 <= i < |s.rows| ==>
          WithinRetries(s.rows[i])
          && AttemptsOn(s.attempts, i) == s.rows[i].retryCount + (if s.rows[i].status == Done then 1 else 0))
  }

  /** Only one worker holds copies, of distinct pending rows, and all of them are current. */
  ghost predicate UpToDate(s: System, p: int)
  {
    && OnlyHolder(s, p)
    && (forall k :: 0 <= k < |Queue(s, p)| ==>
          Queue(s, p)[k].id < |s.rows| && Queue(s, p)[k].row == s.rows[Queue(s, p)[k].id] && Queue(s, p)[k].row.status == Pending)
    && (forall j, k :: 0 <= j < k < |Queue(s, p)| ==> Queue(s, p)[j].id != Queue(s, p)[k].id)
  }

  lemma EventKeepsUpToDate(s: System, e: Event, p: int)
    requires UpToDate(s, p) && Enabled(s, e) && Allowed(e, {p}, true)
    ensures UpToDate(After(s, e), p)
  {
    match e {
      case Insert(_) => assert Queue(After(s, e), p) == Queue(s, p);
      case Claim(_, now, picked) => ClaimRows(s, p, picked, now);
      case Process(_, platformOk, _, now) => ProcessKeepsUpToDate(s, p, platformOk, now);
      case Crash(_) =>
    }
  }

  lemma ProcessKeepsUpToDate(s: System, p: int, platformOk: bool, now: int)
    requires UpToDate(s, p) && Enabled(s, Process(p, platformOk, true, now))
    ensures UpToDate(After(s, Process(p, platformOk, true, now)), p)
  {
    var t := After(s, Process(p, platformOk, true, now));
    assert forall k :: 0 <= k < |Queue(t, p)| ==> Queue(t, p)[k] == Queue(s, p)[k + 1];
    assert forall k :: 0 < k < |Queue(s, p)| ==> Queue(s, p)[k].id != Queue(s, p)[0].id;
  }

  lemma EventKeepsAccounted(s: System, e: Event, p: int)
    requires UpToDate(s, p) && Accounted(s) && Enabled(s, e) && Allowed(e, {p}, true)
    ensures Accounted(After(s, e))
  {
    var t := After(s, e);
    match e {
      case Insert(_) => NoAttempts(s.attempts, |s.rows|);
      case Process(_, _, _, _) => assert t.attempts[..|t.attempts| - 1] == s.attempts;
      case _ =>
    }
  }

  lemma {:induction false} LoneWorkerKeepsAccount(s: System, run: seq<Event>, p: int)
    requires UpToDate(s, p) && Accounted(s) && IsRun(s, run) && ByWorkers(run, {p}, true)
    ensures Accounted(End(s, run))
    decreases |run|
  {
    if run != [] {
      assert Allowed(run[0], {p}, true);
      assert ByWorkers(run[1..], {p}, true);
      EventKeepsUpToDate(s, run[0], p);
      EventKeepsAccounted(s, run[0], p);
      LoneWorkerKeepsAccount(After(s, run[0]), run[1..], p);
    }
  }

  // ---- calling twice ----

  /** A run of some workers that makes two more successful calls for a row. */
  ghost predicate CallsTwice(s: System, run: seq<Event>, id: nat)
  {
    IsRun(s, run) && Successes(End(s, run).attempts, id) == Successes(s.attempts, id) + 2
  }

  ghost predicate NoInserts(run: seq<Event>)
  {
    forall i :: 0 <= i < |run| ==> !run[i].Insert?
  }

  /** A worker goes through its copies up to the `k`-th and succeeds with that one. */
  lemma {:induction false} ProcessUntil(s: System, pod: int, k: nat, now: int, writeOk: bool) returns (run: seq<Event>)
    requires k < |Queue(s, pod)| && Queue(s, pod)[k].row.action != Unknown
    requires forall j :: 0 <= j <= k ==> Queue(s, pod)[j].id < |s.rows|
    requires forall j :: 0 <= j < k ==> Queue(s, pod)[j].id != Queue(s, pod)[k].id
    ensures IsRun(s, run) && ByWorkers(run, {pod}, writeOk) && NoInserts(run)
    ensures var t, id := End(s, run), Queue(s, pod)[k].id;
            && Successes(t.attempts, id) == Successes(s.attempts, id) + 1
            && |t.rows| == |s.rows| && (!writeOk ==> t.rows == s.rows)
            && forall q :: q != pod ==> Queue(t, q) == Queue(s, q)
    decreases k
  {
    var e := Process(pod, true, writeOk, now);
    var t := After(s, e);
    assert t.attempts[..|t.attempts| - 1] == s.attempts;
    if k == 0 {
      RunOne(s, e);
      run := [e];
    } else {
      assert forall j :: 0 <= j < k ==> Queue(t, pod)[j] == Queue(s, pod)[j + 1];
      var rest := ProcessUntil(t, pod, k - 1, now, writeOk);
      RunCons(s, e, rest);
      run := [e] + rest;
    }
  }

  lemma ClaimRows(s: System, pod: int, picked: seq<nat>, now: int)
    requires Queue(s, pod) == [] && IsClaim(s.rows, now, picked)
    ensures var e := Claim(pod, now, picked);
            && Enabled(s, e) && IsRun(s, [e]) && End(s, [e]) == After(s, e)
            && After(s, e).rows == s.rows && After(s, e).attempts == s.attempts
            && Queue(After(s, e), pod) == Copies(s.rows, picked)
            && forall q :: q != pod ==> Queue(After(s, e), q) == Queue(s, q)
  {
    RunOne(s, Claim(pod, now, picked));
  }

  /** Two workers that hold copies of the same rows both get to the `k`-th one and succeed. */
  lemma BothHoldersCall(s: System, p: int, q: int, k: nat, now: int) returns (run: seq<Event>)
    requires p != q && Queue(s, p) == Queue(s, q) && k < |Queue(s, p)| && Queue(s, p)[k].row.action != Unknown
    requires forall j :: 0 <= j <= k ==> Queue(s, p)[j].id < |s.rows|
    requires forall j :: 0 <= j < k ==> Queue(s, p)[j].id != Queue(s, p)[k].id
    ensures CallsTwice(s, run, Queue(s, p)[k].id) && ByWorkers(run, {p, q}, true) && NoInserts(run)
  {
    var first := ProcessUntil(s, p, k, now, true);
    var second := ProcessUntil(End(s, first), q, k, now, true);
    RunConcat(s, first, second);
    run := first + second;
  }

  lemma CallsTwiceAfter(s: System, claim: Event, rest: seq<Event>, id: nat)
    requires Enabled(s, claim) && After(s, claim).attempts == s.attempts && CallsTwice(After(s, claim), rest, id)
    ensures CallsTwice(s, [claim] + rest, id)
  {
    RunCons(s, claim, rest);
  }

  /**
   Claiming is documented to keep two workers off the same row. It does not: any row that is ready and comes up in a claim
   can be claimed by two idle workers, and called for successfully by both, without a write being lost.
   */
  lemma TwoWorkersCanBothSucceed(s: System, p: int, q: int, picked: seq<nat>, k: nat, now: int) returns (run: seq<Event>)
    requires p != q && Queue(s, p) == [] && Queue(s, q) == []
    requires IsClaim(s.rows, now, picked) && k < |picked| && s.rows[picked[k]].action != Unknown
    ensures CallsTwice(s, run, picked[k]) && ByWorkers(run, {p, q}, true) && NoInserts(run)
  {
    ClaimRows(s, p, picked, now);
    var t := After(s, Claim(p, now, picked));
    ClaimRows(t, q, picked, now);
    var u := After(t, Claim(q, now, picked));
    var rest := BothHoldersCall(u, p, q, k, now);
    CallsTwiceAfter(t, Claim(q, now, picked), rest, picked[k]);
    CallsTwiceAfter(s, Claim(p, now, picked), [Claim(q, now, picked)] + rest, picked[k]);
    run := [Claim(p, now, picked)] + ([Claim(q, now, picked)] + rest);
  }

  /** One worker is enough once writes can be lost: it claims the row again and calls a second time. */
  lemma LostWriteCallsTwice(s: System, p: int, picked: seq<nat>, k: nat, now: int) returns (run: seq<Event>)
    requires Queue(s, p) == []
    requires IsClaim(s.rows, now, picked) && k < |picked| && s.rows[picked[k]].action != Unknown
    ensures CallsTwice(s, run, picked[k]) && ByWorkers(run, {p}, false) && NoInserts(run)
  {
    var first := ClaimAndLose(s, p, picked, k, now);
    var second := ClaimAndLose(End(s, first), p, picked, k, now);
    RunConcat(s, first, second);
    run := first + second;
  }

  /** A worker claims rows, succeeds with the `k`-th, loses its writes and stops. */
  lemma ClaimAndLose(s: System, p: int, picked: seq<nat>, k: nat, now: int) returns (run: seq<Event>)
    requires Queue(s, p) == []
    requires IsClaim(s.rows, now, picked) && k < |picked| && s.rows[picked[k]].action != Unknown
    ensures IsRun(s, run) && ByWorkers(run, {p}, false) && NoInserts(run)
    ensures var t := End(s, run);
            && t.rows == s.rows && Queue(t, p) == []
            && Successes(t.attempts, picked[k]) == Successes(s.attempts, picked[k]) + 1
  {
    ClaimRows(s, p, picked, now);
    var t := After(s, Claim(p, now, picked));
    var calls := ProcessUntil(t, p, k, now, false);
    RunOne(End(t, calls), Crash(p));
    RunConcat(t, calls, [Crash(p)]);
    RunCons(s, Claim(p, now, picked), calls + [Crash(p)]);
    run := [Claim(p, now, picked)] + (calls + [Crash(p)]);
  }

  /** A row that can succeed, on its own in the outbox. */
  const ROW := Row(Settle, 1, 1.0, Pending, 0, 0, 0)

  lemma OneRowOutbox() returns (s: System)
    ensures Enabled(EMPTY, Insert(ROW)) && IsRun(EMPTY, [Insert(ROW)]) && End(EMPTY, [Insert(ROW)]) == s
    ensures s == System([ROW], map[], []) && IsClaim(s.rows, 0, [0])
  {
    RunOne(EMPTY, Insert(ROW));
    s := System([ROW], map[], []);
  }

  lemma ByMore(run: seq<Event>, some: set<int>, all: set<int>, writesKept: bool, always: bool)
    requires ByWorkers(run, some, writesKept) && some <= all && (always ==> writesKept)
    ensures ByWorkers(run, all, always)
  {
    forall i | 0 <= i < |run| ensures Allowed(run[i], all, always) {
      assert Allowed(run[i], some, writesKept);
    }
  }

  /** A run from an outbox with one row that calls for it twice; it enqueues nothing more. */
  lemma UnsafeCallsTwiceFrom(pods: set<int>, writesKept: bool) returns (run: seq<Event>)
    requires !LoneAndReliable(pods, writesKept)
    ensures var s := System([ROW], map[], []);
            IsRun(s, run) && ByWorkers(run, pods, writesKept) && Successes(End(s, run).attempts, 0) == 2
    ensures NoInserts(run)
  {
    var s := OneRowOutbox();
    if |pods| > 1 {
      var p, q := TwoOf(pods);
      run := TwoWorkersCanBothSucceed(s, p, q, [0], 0, 0);
      ByMore(run, {p, q}, pods, true, writesKept);
    } else {
      assert |pods| != 0;
      var p := Singleton(pods);
      run := LostWriteCallsTwice(s, p, [0], 0, 0);
      ByMore(run, {p}, pods, false, writesKept);
    }
  }

  lemma UnsafeCallsTwice(pods: set<int>, writesKept: bool) returns (run: seq<Event>)
    requires !LoneAndReliable(pods, writesKept)
    ensures IsRun(EMPTY, run) && ByWorkers(run, pods, writesKept)
    ensures |End(EMPTY, run).rows| > 0 && Successes(End(EMPTY, run).attempts, 0) == 2
  {
    var s := OneRowOutbox();
    var rest := UnsafeCallsTwiceFrom(pods, writesKept);
    RunConcat(EMPTY, [Insert(ROW)], rest);
    RowsRemain(s, rest);
    run := [Insert(ROW)] + rest;
  }

  /**
   Over all runs from the empty outbox, each row gets at most one successful call if and only if there is at most one
   worker and no write of its is lost.
   */
  lemma CallsAtMostOnceExactlyWhenLoneAndReliable(pods: set<int>, writesKept: bool)
    ensures CallsAtMostOnce(pods, writesKept) <==> LoneAndReliable(pods, writesKept)
  {
    if LoneAndReliable(pods, writesKept) {
      forall run | IsRun(EMPTY, run) && ByWorkers(run, pods, writesKept)
        ensures forall i :: 0 <= i < |End(EMPTY, run).rows| ==> Successes(End(EMPTY, run).attempts, i) <= 1
      {
        var p := AsLoneWorker(run, pods, writesKept);
        LoneWorkerCallsOnce(run, p);
      }
    } else {
      var run := UnsafeCallsTwice(pods, writesKept);
      assert !(Successes(End(EMPTY, run).attempts, 0) <= 1);
    }
  }

  lemma AsLoneWorker(run: seq<Event>, pods: set<int>, writesKept: bool) returns (p: int)
    requires ByWorkers(run, pods, writesKept) && LoneAndReliable(pods, writesKept)
    ensures ByWorkers(run, {p}, true)
  {
    if pods == {} {
      p := 0;
      forall i | 0 <= i < |run| ensures Allowed(run[i], {p}, true) {
        assert Allowed(run[i], pods, writesKept);
      }
    } else {
      p := Singleton(pods);
    }
  }

  // ---- attempting too often ----

  /** The state of an outbox with one pending row, and how often that row was attempted. */
  ghost predicate OneRowAt(s: System, retryCount: int, attempted: nat)
  {
    && |s.rows| == 1 && s.rows[0].retryCount == retryCount && AttemptsOn(s.attempts, 0) == attempted
    && s.rows[0].status == (if retryCount >= MAX_RETRIES then Failed else Pending)
  }

  /** An idle worker claims the one row and fails with it. */
  lemma FailOnce(s: System, p: int, retryCount: nat, attempted: nat, writeOk: bool) returns (run: seq<Event>)
    requires OneRowAt(s, retryCount, attempted) && retryCount < MAX_RETRIES && Queue(s, p) == []
    ensures IsRun(s, run) && ByWorkers(run, {p}, writeOk)
    ensures var t := End(s, run);
            && OneRowAt(t, if writeOk then retryCount + 1 else retryCount, attempted + 1) && Queue(t, p) == []
            && forall q :: q != p ==> Queue(t, q) == Queue(s, q)
  {
    var claim := Claim(p, s.rows[0].nextRetry, [0]);
    ClaimOneRow(s, p);
    var t := After(s, claim);
    var e := Process(p, false, writeOk, 0);
    Failure(t, p, e, retryCount, attempted);
    RunTwo(s, claim, e);
    run := [claim, e];
  }

  /** An idle worker claims the one row as soon as it is ready. */
  lemma ClaimOneRow(s: System, p: int)
    requires |s.rows| == 1 && s.rows[0].status == Pending && Queue(s, p) == []
    ensures var claim := Claim(p, s.rows[0].nextRetry, [0]);
            && Enabled(s, claim)
            && After(s, claim).rows == s.rows && After(s, claim).attempts == s.attempts
            && |Queue(After(s, claim), p)| == 1 && Queue(After(s, claim), p)[0] == Copy(0, s.rows[0])
            && forall q :: q != p ==> Queue(After(s, claim), q) == Queue(s, q)
  {
    assert IsClaim(s.rows, s.rows[0].nextRetry, [0]);
    ClaimRows(s, p, [0], s.rows[0].nextRetry);
  }

  /** A failing call for the one row, from a copy made when its count was `counted`. */
  lemma Failure(s: System, p: int, e: Event, counted: nat, attempted: nat)
    requires |s.rows| == 1
    requires OneRowAt(s, s.rows[0].retryCount, attempted) && s.rows[0].retryCount < MAX_RETRIES && counted < MAX_RETRIES
    requires |Queue(s, p)| == 1 && Queue(s, p)[0].id == 0 && Queue(s, p)[0].row.retryCount == counted
    requires e.Process? && e.pod == p && !e.platformOk
    ensures Enabled(s, e) && Queue(After(s, e), p) == []
    ensures OneRowAt(After(s, e), if e.writeOk then counted + 1 else s.rows[0].retryCount, attempted + 1)
    ensures forall q :: q != p ==> Queue(After(s, e), q) == Queue(s, q)
  {
    var t := After(s, e);
    assert t.attempts[..|t.attempts| - 1] == s.attempts;
  }

  lemma {:induction false} FailTimes(s: System, p: int, retryCount: nat, attempted: nat, writeOk: bool, n: nat)
    returns (run: seq<Event>)
    requires OneRowAt(s, retryCount, attempted) && Queue(s, p) == []
    requires if writeOk then retryCount + n <= MAX_RETRIES else retryCount < MAX_RETRIES
    ensures IsRun(s, run) && ByWorkers(run, {p}, writeOk)
    ensures var t := End(s, run);
            && OneRowAt(t, if writeOk then retryCount + n else retryCount, attempted + n) && Queue(t, p) == []
            && forall q :: q != p ==> Queue(t, q) == Queue(s, q)
    decreases n
  {
    if n == 0 {
      run := [];
    } else {
      var first := FailOnce(s, p, retryCount, attempted, writeOk);
      var rest := FailTimes(End(s, first), p, if writeOk then retryCount + 1 else retryCount, attempted + 1, writeOk, n - 1);
      RunConcat(s, first, rest);
      run := first + rest;
    }
  }

  /**
   Two workers that keep their writes attempt a row nineteen times: one claims it and pauses, the other fails nine times,
   the first one's stale failure takes the count back to one, and the other fails nine more times.
   */
  lemma NineteenAttempts(s: System, p: int, q: int) returns (run: seq<Event>)
    requires OneRowAt(s, 0, 0) && p != q && Queue(s, p) == [] && Queue(s, q) == []
    ensures IsRun(s, run) && ByWorkers(run, {p, q}, true) && OneRowAt(End(s, run), MAX_RETRIES, 19)
  {
    var claim := Claim(p, s.rows[0].nextRetry, [0]);
    ClaimOneRow(s, p);
    var t := After(s, claim);
    var nine := FailTimes(t, q, 0, 0, true, 9);
    var rest := StaleThenNine(End(t, nine), p, q);
    RunConcat(t, nine, rest);
    RunCons(s, claim, nine + rest);
    run := [claim] + (nine + rest);
  }

  lemma StaleThenNine(s: System, p: int, q: int) returns (run: seq<Event>)
    requires OneRowAt(s, 9, 9) && p != q && Queue(s, q) == []
    requires |Queue(s, p)| == 1 && Queue(s, p)[0].id == 0 && Queue(s, p)[0].row.retryCount == 0
    ensures IsRun(s, run) && ByWorkers(run, {p, q}, true) && OneRowAt(End(s, run), MAX_RETRIES, 19)
  {
    var stale := Process(p, false, true, 0);
    Failure(s, p, stale, 0, 9);
    var more := FailTimes(After(s, stale), q, 1, 10, true, 9);
    RunCons(s, stale, more);
    run := [stale] + more;
  }

  lemma UnsafeAttemptsMore(pods: set<int>, writesKept: bool) returns (run: seq<Event>)
    requires !LoneAndReliable(pods, writesKept)
    ensures IsRun(EMPTY, run) && ByWorkers(run, pods, writesKept)
    ensures |End(EMPTY, run).rows| > 0 && AttemptsOn(End(EMPTY, run).attempts, 0) > MAX_RETRIES
  {
    var s := OneRowOutbox();
    var rest;
    if |pods| > 1 {
      var p, q := TwoOf(pods);
      rest := NineteenAttempts(s, p, q);
      ByMore(rest, {p, q}, pods, true, writesKept);
    } else {
      assert |pods| != 0;
      var p := Singleton(pods);
      rest := FailTimes(s, p, 0, 0, false, MAX_RETRIES + 1);
      ByMore(rest, {p}, pods, false, writesKept);
    }
    RunConcat(EMPTY, [Insert(ROW)], rest);
    run := [Insert(ROW)] + rest;
  }

  /** Under the same condition, and only then, the retry limit holds: no row is attempted more than ten times. */
  lemma KeepsToRetriesExactlyWhenLoneAndReliable(pods: set<int>, writesKept: bool)
    ensures KeepsToRetries(pods, writesKept) <==> LoneAndReliable(pods, writesKept)
  {
    if LoneAndReliable(pods, writesKept) {
      forall run | IsRun(EMPTY, run) && ByWorkers(run, pods, writesKept)
        ensures forall i :: 0 <= i < |End(EMPTY, run).rows| ==> AttemptsOn(End(EMPTY, run).attempts, i) <= MAX_RETRIES
      {
        var p := AsLoneWorker(run, pods, writesKept);
        LoneWorkerKeepsAccount(EMPTY, run, p);
      }
    } else {
      var run := UnsafeAttemptsMore(pods, writesKept);
      assert !(AttemptsOn(End(EMPTY, run).attempts, 0) <= MAX_RETRIES);
    }
  }
}
