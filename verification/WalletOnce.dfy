/**
 The billing saga and its outbox together: what happens to one pre-authorisation from the calls a request makes itself
 to the calls the workers make later for the rows it left behind.
 */
module WalletOnce {
  import Saga = BillingSaga
  import opened BillingOutbox
  import opened OutboxWorkers
  import opened OutboxDeployment

  function RowOf(e: Saga.Entry, now: int): Row
  {
    Row(if e.action.Settle? then Settle else Release, e.id, e.amount, Pending, 0, now, now)
  }

  /** The outbox right after a request has enqueued its rows, `now(i)` being the time of the `i`-th. */
  function Left(s: Saga.State, now: nat -> int): (t: System)
    ensures |t.rows| == |s.outbox| && t.held == map[] && t.attempts == []
    ensures forall i :: 0 <= i < |t.rows| ==> t.rows[i] == RowOf(s.outbox[i], now(i))
  {
    System(seq(|s.outbox|, i requires 0 <= i < |s.outbox| => RowOf(s.outbox[i], now(i))), map[], [])
  }

  /** Successful calls of the request itself on a pre-authorisation. */
  function DirectSuccesses(calls: seq<Saga.Call>, id: int): nat
  {
    if calls == [] then 0
    else
      var last := calls[|calls| - 1];
      DirectSuccesses(calls[..|calls| - 1], id) + (if last.id == id && last.ok then 1 else 0)
  }

  /** Successful calls of the workers on a pre-authorisation, from whichever row. */
  function LaterSuccesses(attempts: seq<Attempt>, id: int): nat
  {
    if attempts == [] then 0
    else
      var last := attempts[|attempts| - 1];
      LaterSuccesses(attempts[..|attempts| - 1], id) + (if last.preAuth == id && last.ok then 1 else 0)
  }

  /** Copies and attempts carry the pre-authorisation of their row, and `id` belongs to the row `row`, if to any. */
  ghost predicate OneRow(t: System, id: int, row: int)
  {
    && row < |t.rows| && (forall i :: 0 <= i < |t.rows| ==> (t.rows[i].preAuth == id <==> i == row))
    && (forall pod, k :: pod in t.held && 0 <= k < |t.held[pod]| ==>
          t.held[pod][k].id < |t.rows| && t.held[pod][k].row.preAuth == t.rows[t.held[pod][k].id].preAuth)
    && (forall k :: 0 <= k < |t.attempts| ==> (t.attempts[k].preAuth == id <==> t.attempts[k].id == row))
  }

  ghost predicate NoOtherRow(run: seq<Event>, id: int)
  {
    forall i :: 0 <= i < |run| && run[i].Insert? ==> run[i].row.preAuth != id
  }

  lemma EventKeepsOneRow(t: System, e: Event, id: int, row: int)
    requires OneRow(t, id, row) && Enabled(t, e) && (e.Insert? ==> e.row.preAuth != id)
    ensures OneRow(After(t, e), id, row)
  {
  }

  lemma {:induction false} RunKeepsOneRow(t: System, run: seq<Event>, id: int, row: int)
    requires OneRow(t, id, row) && IsRun(t, run) && NoOtherRow(run, id)
    ensures OneRow(End(t, run), id, row)
    decreases |run|
  {
    if run != [] {
      EventKeepsOneRow(t, run[0], id, row);
      assert NoOtherRow(run[1..], id);
      RunKeepsOneRow(After(t, run[0]), run[1..], id, row);
    }
  }

  lemma {:induction false} LaterSuccessesAreOfRow(attempts: seq<Attempt>, id: int, row: nat)
    requires forall k :: 0 <= k < |attempts| ==> (attempts[k].preAuth == id <==> attempts[k].id == row)
    ensures LaterSuccesses(attempts, id) == Successes(attempts, row)
  {
    if attempts != [] {
      LaterSuccessesAreOfRow(attempts[..|attempts| - 1], id, row);
    }
  }

  lemma {:induction false} NoDirectSuccess(calls: seq<Saga.Call>, id: int)
    requires forall k :: 0 <= k < |calls| && calls[k].id == id ==> !calls[k].ok
    ensures DirectSuccesses(calls, id) == 0
  {
    if calls != [] {
      NoDirectSuccess(calls[..|calls| - 1], id);
    }
  }

  lemma {:induction false} OneDirectSuccess(calls: seq<Saga.Call>, id: int)
    requires forall i, j :: 0 <= i < j < |calls| ==> calls[i].id != calls[j].id
    ensures DirectSuccesses(calls, id) <= 1
  {
    if calls != [] {
      var last := calls[|calls| - 1];
      OneDirectSuccess(calls[..|calls| - 1], id);
      if last.id == id {
        NoDirectSuccess(calls[..|calls| - 1], id);
      }
    }
  }

  /** A row left behind means that the request's own call failed. */
  lemma RowMeansFailedCall(s: Saga.State, k: nat)
    requires Saga.AtMostOnce(s) && k < |s.outbox|
    ensures DirectSuccesses(s.calls, s.outbox[k].id) == 0
  {
    assert Saga.Backs(s, s.outbox[k]);
    NoDirectSuccess(s.calls, s.outbox[k].id);
  }

  lemma RowSucceedsOnce(t: System, run: seq<Event>, k: nat)
    requires Owned(t) && IsRun(t, run) && ExclusiveRun(t, run) && k < |t.rows|
    ensures Successes(End(t, run).attempts, k) <= 1
  {
    ExclusiveRunCallsOnce(t, run);
    RowsRemain(t, run);
  }

  lemma {:induction false} NoLaterSuccess(attempts: seq<Attempt>, id: int)
    requires forall k :: 0 <= k < |attempts| ==> attempts[k].preAuth != id
    ensures LaterSuccesses(attempts, id) == 0
  {
    if attempts != [] {
      NoLaterSuccess(attempts[..|attempts| - 1], id);
    }
  }

  /** The row of a pre-authorisation accounts for all later successes on it. */
  lemma LeftWithRow(s: Saga.State, now: nat -> int, run: seq<Event>, k: nat)
    requires Saga.AtMostOnce(s) && k < |s.outbox|
    requires IsRun(Left(s, now), run) && NoOtherRow(run, s.outbox[k].id)
    ensures LaterSuccesses(End(Left(s, now), run).attempts, s.outbox[k].id) == Successes(End(Left(s, now), run).attempts, k)
  {
    var t, id := Left(s, now), s.outbox[k].id;
    RunKeepsOneRow(t, run, id, k);
    LaterSuccessesAreOfRow(End(t, run).attempts, id, k);
  }

  lemma LeftWithoutRow(s: Saga.State, now: nat -> int, run: seq<Event>, id: int)
    requires forall k :: 0 <= k < |s.outbox| ==> s.outbox[k].id != id
    requires IsRun(Left(s, now), run) && NoOtherRow(run, id)
    ensures LaterSuccesses(End(Left(s, now), run).attempts, id) == 0
  {
    RunKeepsOneRow(Left(s, now), run, id, -1);
    NoLaterSuccess(End(Left(s, now), run).attempts, id);
  }

  lemma OneSuccessAfter(s: Saga.State, now: nat -> int, run: seq<Event>, id: int)
    requires Saga.AtMostOnce(s)
    requires var t := Left(s, now); IsRun(t, run) && ExclusiveRun(t, run) && NoOtherRow(run, id)
    ensures DirectSuccesses(s.calls, id) + LaterSuccesses(End(Left(s, now), run).attempts, id) <= 1
  {
    if k :| 0 <= k < |s.outbox| && s.outbox[k].id == id {
      RowMeansFailedCall(s, k);
      LeftWithRow(s, now, run, k);
      RowSucceedsOnce(Left(s, now), run, k);
    } else {
      OneDirectSuccess(s.calls, id);
      LeftWithoutRow(s, now, run, id);
    }
  }

  /** A request and what the workers do about it afterwards. */
  datatype Story = Story(config: Saga.Config, start: Saga.State, ops: seq<Saga.Op>, now: nat -> int, run: seq<Event>)

  /**
   A request that returns its quota at most once, as its last operation, under fresh pre-authorisations, followed by any
   run of the workers.
   */
  ghost predicate Possible(story: Story, pods: set<int>, writesKept: bool)
  {
    && story.config.quotaPerUnit > 0.0 && Saga.AtMostOnce(story.start) && Saga.Untouched(story.start)
    && Saga.FreshGrants(story.config, story.start, story.ops)
    && (forall i :: 0 <= i < |story.ops| - 1 ==> !story.ops[i].Return?)
    && IsRun(Left(Served(story), story.now), story.run) && ByWorkers(story.run, pods, writesKept)
  }

  function Served(story: Story): Saga.State
    requires story.config.quotaPerUnit > 0.0
  {
    Saga.Run(story.config, story.start, story.ops)
  }

  /** Successful wallet actions on a pre-authorisation, by the request and by the workers after it. */
  ghost function WalletSuccesses(story: Story, id: int): nat
    requires story.config.quotaPerUnit > 0.0 && IsRun(Left(Served(story), story.now), story.run)
  {
    var request := Served(story);
    DirectSuccesses(request.calls, id) + LaterSuccesses(End(Left(request, story.now), story.run).attempts, id)
  }

  /** No pre-authorisation that is not reused for another row sees two successful wallet actions. */
  ghost predicate OneWalletAction(pods: set<int>, writesKept: bool)
  {
    forall story, id :: Possible(story, pods, writesKept) && NoOtherRow(story.run, id) ==> WalletSuccesses(story, id) <= 1
  }

  lemma LoneWorkerActsOnce(story: Story, pods: set<int>, writesKept: bool, id: int)
    requires Possible(story, pods, writesKept) && LoneAndReliable(pods, writesKept) && NoOtherRow(story.run, id)
    ensures WalletSuccesses(story, id) <= 1
  {
    var t := Left(Served(story), story.now);
    var p := AsLoneWorker(story.run, pods, writesKept);
    LoneWorkerIsExclusive(t, story.run, p);
    Saga.RunActsAtMostOnce(story.config, story.start, story.ops);
    OneSuccessAfter(Served(story), story.now, story.run, id);
  }

  /** A request whose settlement fails and is left to the workers. */
  function FailedSettlement(run: seq<Event>): Story
  {
    Story(Saga.Config(1, false, true, true, 1.0), Saga.State(1, 1, 1, 0, [], [], []),
          [Saga.Post(1, 0, Saga.Faults(true, true, true, false, true, true))], i => 0, run)
  }

  lemma FailedSettlementLeavesRow(run: seq<Event>)
    ensures var story := FailedSettlement(run);
            && Served(story).calls == [Saga.Call(1, Saga.Settle, 1.0, false)]
            && Served(story).outbox == [Saga.Entry(1, 1, Saga.Settle, 1.0)]
            && Left(Served(story), story.now) == System([ROW], map[], [])
  {
    var story := FailedSettlement(run);
    var t := Saga.Step(story.config, story.start, story.ops[0]);
    assert Saga.Run(story.config, t, []) == t;
    assert story.ops[1..] == [];
  }

  lemma UnsafeActsTwice(pods: set<int>, writesKept: bool) returns (story: Story)
    requires !LoneAndReliable(pods, writesKept)
    ensures Possible(story, pods, writesKept) && NoOtherRow(story.run, 1) && WalletSuccesses(story, 1) == 2
  {
    var run := UnsafeCallsTwiceFrom(pods, writesKept);
    story := FailedSettlement(run);
    FailedSettlementLeavesRow(run);
    var request := Served(story);
    assert Saga.AtMostOnce(request) by {
      assert Saga.Untouched(story.start) && Saga.AtMostOnce(story.start) && story.ops[1..] == [];
      Saga.RunActsAtMostOnce(story.config, story.start, story.ops);
    }
    LeftWithRow(request, story.now, run, 0);
    RowMeansFailedCall(request, 0);
  }

  /**
   From freezing to the end of all retries, every pre-authorisation sees at most one successful wallet action if and only
   if there is at most one worker and no write of its is lost.
   */
  lemma OneWalletActionExactlyWhenLoneAndReliable(pods: set<int>, writesKept: bool)
    ensures OneWalletAction(pods, writesKept) <==> LoneAndReliable(pods, writesKept)
  {
    if LoneAndReliable(pods, writesKept) {
      forall story, id | Possible(story, pods, writesKept) && NoOtherRow(story.run, id)
        ensures WalletSuccesses(story, id) <= 1
      {
        LoneWorkerActsOnce(story, pods, writesKept, id);
      }
    } else {
      var story := UnsafeActsTwice(pods, writesKept);
      assert !(WalletSuccesses(story, 1) <= 1);
    }
  }
}
