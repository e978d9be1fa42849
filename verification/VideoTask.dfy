/**
 Polling an asynchronous video task. Each poll works on a copy of the stored row: it may re-bill a successful task,
 then tries to save the copy, and credits the refund of a failed task only after the save. Replies, writes and the
 clock are arguments.
 */
module VideoTask {
  import opened Numbers
  import opened Wrappers

  datatype Status = NotStart | Submitted | Queued | InProgress | Failure | Success | Unknown

  datatype Task = Task(status: Status, progress: string, quota: int, startTime: int, finishTime: int, failReason: string)

  /**
   Ratio pricing of the model behind a task; absent for fixed prices and when the model or group is not known. A group may
   have a ratio of its own for its members.
   */
  datatype Price = Price(modelRatio: real, groupRatio: real, ownRatio: Option<real>)

  function FinalGroupRatio(p: Price): real
  {
    if p.ownRatio.Some? then p.ownRatio.value else p.groupRatio
  }

  datatype Reply =
    | FetchFailed
    | Unparsable
    | Result(status: Option<Status>, progress: string, url: string, reason: string, totalTokens: int, price: Option<Price>)

  datatype Faults = Faults(rebillWrite: bool, update: bool, refundWrite: bool)

  /** The quota a successful task is re-billed to, when its reply reports tokens and its model is priced by ratio. */
  function ActualQuota(r: Reply): Option<int>
    requires r.Result?
  {
    if r.totalTokens > 0 && r.price.Some? && r.price.value.modelRatio > 0.0 then
      Some(Truncate(r.totalTokens as real * r.price.value.modelRatio * FinalGroupRatio(r.price.value)))
    else None
  }

  /** Rows the polling query returns. */
  predicate Polled(t: Task)
  {
    t.progress != "100%" && t.status != Failure && t.status != Success
  }

  predicate IsDataUrl(url: string)
  {
    |url| > 5 && url[..5] == "data:"
  }

  /** What is reserved from the user for a task. */
  function HeldBy(t: Task): int
  {
    if t.status == Failure then 0 else t.quota
  }

  /** The stored row, the user's balance, and how many refunds have been credited. */
  datatype Ledger = Ledger(row: Task, balance: int, refunds: nat)

  /** The status a reply amounts to: an empty status counts as a failure. */
  function Reported(r: Reply): Status
    requires r.Result?
  {
    if r.status.None? then Failure else r.status.value
  }

  function OnSuccess(g: Ledger, r: Reply, now: int, f: Faults): Ledger
    requires r.Result?
  {
    var actual := ActualQuota(r);
    var rebilled := actual.Some? && actual.value != g.row.quota && f.rebillWrite;
    var task := g.row.(
      status := Success,
      progress := if r.progress != "" then r.progress else "100%",
      finishTime := if g.row.finishTime == 0 then now else g.row.finishTime,
      failReason := if IsDataUrl(r.url) then g.row.failReason else r.url,
      quota := if rebilled then actual.value else g.row.quota);
    g.(row := if f.update then task else g.row,
       balance := if rebilled then g.balance - (actual.value - g.row.quota) else g.balance)
  }

  function OnFailure(g: Ledger, r: Reply, now: int, f: Faults): Ledger
    requires r.Result?
  {
    if !f.update then g
    else
      var task := g.row.(
        status := Failure,
        progress := "100%",
        finishTime := if g.row.finishTime == 0 then now else g.row.finishTime,
        failReason := if r.status.None? then "upstream returned empty status" else r.reason);
      var credited := g.row.quota > 0 && g.row.status != Failure && f.refundWrite;
      Ledger(task, if credited then g.balance + g.row.quota else g.balance, if credited then g.refunds + 1 else g.refunds)
  }

  function OnWaiting(g: Ledger, r: Reply, progress: string, now: int, f: Faults): Ledger
    requires r.Result? && r.status.Some?
  {
    if !f.update then g
    else
      g.(row := g.row.(
           status := r.status.value,
           progress := if r.progress != "" then r.progress else progress,
           startTime := if r.status.value == InProgress && g.row.startTime == 0 then now else g.row.startTime))
  }

  function AfterPoll(g: Ledger, r: Reply, now: int, f: Faults): Ledger
  {
    if !r.Result? then g
    else
      match Reported(r)
      case Submitted => OnWaiting(g, r, "10%", now, f)
      case Queued => OnWaiting(g, r, "20%", now, f)
      case InProgress => OnWaiting(g, r, "30%", now, f)
      case Success => OnSuccess(g, r, now, f)
      case Failure => OnFailure(g, r, now, f)
      case _ => g
  }

  /** When a task's channel is gone its row is marked failed in bulk; nothing is refunded on this path. */
  function AfterChannelMissing(g: Ledger, update: bool): Ledger
  {
    if update then
      g.(row := g.row.(status := Failure, progress := "100%", failReason := "Failed to get channel info"))
    else g
  }

  class Poller {
    var row: Task
    var balance: int
    var refunds: nat

    constructor (row: Task, balance: int)
      ensures Value() == Ledger(row, balance, 0)
    {
      this.row, this.balance, refunds := row, balance, 0;
    }

    function Value(): Ledger
      reads this
    {
      Ledger(row, balance, refunds)
    }

    /** Books a change of the user's balance; a negative amount is rejected before the database is asked. */
    method DecreaseUserQuota(quota: int, write: bool) returns (ok: bool)
      modifies this`balance
      ensures ok <==> quota >= 0 && write
      ensures balance == if ok then old(balance) - quota else old(balance)
    {
      if quota < 0 || !write {
        return false;
      }
      balance := balance - quota;
      return true;
    }

    method IncreaseUserQuota(quota: int, write: bool) returns (ok: bool)
      modifies this`balance
      ensures ok <==> quota >= 0 && write
      ensures balance == if ok then old(balance) + quota else old(balance)
    {
      if quota < 0 || !write {
        return false;
      }
      balance := balance + quota;
      return true;
    }

    /** The re-billing of a successful task: the copy's quota follows the balance only if the balance was written. */
    method Rebill(task: Task, reply: Reply, write: bool) returns (t: Task)
      requires reply.Result?
      modifies this`balance
      ensures var actual := ActualQuota(reply);
              var rebilled := actual.Some? && actual.value != task.quota && write;
              && t == (if rebilled then task.(quota := actual.value) else task)
              && balance == (if rebilled then old(balance) - (actual.value - task.quota) else old(balance))
    {
      t := task;
      var actual := ActualQuota(reply);
      if actual.Some? {
        var quotaDelta := actual.value - task.quota;
        if quotaDelta > 0 {
          var ok := DecreaseUserQuota(quotaDelta, write);
          if ok {
            t := t.(quota := actual.value);
          }
        } else if quotaDelta < 0 {
          var ok := IncreaseUserQuota(-quotaDelta, write);
          if ok {
            t := t.(quota := actual.value);
          }
        }
      }
    }

    method UpdateVideoSingleTask(reply: Reply, now: int, f: Faults) returns (ok: bool)
      modifies this
      ensures Value() == AfterPoll(old(Value()), reply, now, f)
      ensures ok <==> reply.Result? && Reported(reply) != NotStart && Reported(reply) != Unknown
    {
      var task := row;
      if !reply.Result? {
        return false;
      }
      var status, progress, reason := reply.status, reply.progress, reply.reason;
      if status.None? {
        status, progress, reason := Some(Failure), "", "upstream returned empty status";
      }
      var shouldRefund := false;
      var quota := task.quota;
      var preStatus := task.status;
      task := task.(status := status.value);
      match status.value {
        case Submitted => task := task.(progress := "10%");
        case Queued => task := task.(progress := "20%");
        case InProgress =>
          task := task.(progress := "30%");
          if task.startTime == 0 {
            task := task.(startTime := now);
          }
        case Success =>
          task := task.(progress := "100%");
          if task.finishTime == 0 {
            task := task.(finishTime := now);
          }
          if !IsDataUrl(reply.url) {
            task := task.(failReason := reply.url);
          }
          task := Rebill(task, reply, f.rebillWrite);
        case Failure =>
          task := task.(progress := "100%", failReason := reason);
          if task.finishTime == 0 {
            task := task.(finishTime := now);
          }
          progress := "100%";
          if quota != 0 {
            if preStatus != Failure {
              shouldRefund := true;
            }
          }
        case _ => return false;
      }
      if progress != "" {
        task := task.(progress := progress);
      }
      if f.update {
        row := task;
      } else {
        shouldRefund := false;
      }
      if shouldRefund {
        var credited := IncreaseUserQuota(quota, f.refundWrite);
        if credited && quota > 0 {
          refunds := refunds + 1;
        }
      }
      return true;
    }
  }

  // ---- runs of polls ----

  datatype Event = Poll(reply: Reply, now: int, faults: Faults) | ChannelMissing(update: bool)

  /** An event reaches a task only while the polling query returns its row. */
  function Step(g: Ledger, e: Event): Ledger
  {
    if !Polled(g.row) then g
    else
      match e
      case Poll(r, now, f) => AfterPoll(g, r, now, f)
      case ChannelMissing(update) => AfterChannelMissing(g, update)
  }

  function Run(g: Ledger, events: seq<Event>): Ledger
    decreases |events|
  {
    if events == [] then g else Run(Step(g, events[0]), events[1..])
  }

  lemma {:induction false} FinishedStays(g: Ledger, events: seq<Event>)
    requires !Polled(g.row)
    ensures Run(g, events) == g
    decreases |events|
  {
    if events != [] {
      FinishedStays(g, events[1..]);
    }
  }

  /** However saves and refunds fail, a task is refunded at most once, and only as it becomes a stored failure. */
  lemma {:induction false} RefundedAtMostOnce(g: Ledger, events: seq<Event>)
    requires Polled(g.row)
    ensures var t := Run(g, events);
            && g.refunds <= t.refunds <= g.refunds + 1
            && (t.refunds == g.refunds + 1 ==> t.row.status == Failure)
    decreases |events|
  {
    if events != [] {
      var next := Step(g, events[0]);
      if Polled(next.row) {
        RefundedAtMostOnce(next, events[1..]);
      } else {
        FinishedStays(next, events[1..]);
      }
    }
  }

  // ---- conservation ----

  function Wealth(g: Ledger): int
  {
    g.balance + HeldBy(g.row)
  }

  /** A re-billing that was booked but whose row could not be saved. */
  predicate RebillLost(g: Ledger, r: Reply, f: Faults)
  {
    && r.Result? && Reported(r) == Success && !f.update && f.rebillWrite
    && ActualQuota(r).Some? && ActualQuota(r).value != g.row.quota
  }

  /** A stored failure whose refund was not credited. */
  predicate RefundLost(g: Ledger, r: Reply, f: Faults)
  {
    r.Result? && Reported(r) == Failure && f.update && g.row.quota != 0 && !(g.row.quota > 0 && f.refundWrite)
  }

  /** A poll conserves balance plus reservation exactly when it loses neither a re-billing nor a refund. */
  lemma PollConservesExactlyWhenNothingLost(g: Ledger, r: Reply, now: int, f: Faults)
    requires Polled(g.row)
    ensures Wealth(AfterPoll(g, r, now, f)) == Wealth(g) <==> !RebillLost(g, r, f) && !RefundLost(g, r, f)
  {
  }

  /** A vanished channel conserves exactly when the bulk update fails or nothing was reserved. */
  lemma ChannelMissingConservesExactlyWhenNothingHeld(g: Ledger, update: bool)
    requires Polled(g.row)
    ensures Wealth(AfterChannelMissing(g, update)) == Wealth(g) <==> !update || g.row.quota == 0
  {
  }

  predicate WritesOk(e: Event)
  {
    e.Poll? && e.faults.update && e.faults.refundWrite
  }

  predicate PricesNonNegative(e: Event)
  {
    e.Poll? && e.reply.Result? && e.reply.price.Some? ==> FinalGroupRatio(e.reply.price.value) >= 0.0
  }

  lemma ActualQuotaNonNegative(r: Reply)
    requires r.Result? && (r.price.Some? ==> FinalGroupRatio(r.price.value) >= 0.0)
    ensures ActualQuota(r).Some? ==> ActualQuota(r).value >= 0
  {
    if ActualQuota(r).Some? {
      ProductNonNegative(r.totalTokens as real, r.price.value.modelRatio);
      ProductNonNegative(r.totalTokens as real * r.price.value.modelRatio, FinalGroupRatio(r.price.value));
    }
  }

  /**
   A successful task is re-billed exactly when its reply reports tokens and its model has a ratio; to the tokens at the
   model's ratio and at that of the group, or the group's own for its members, without any fraction.
   */
  lemma RebilledByTokens(r: Reply)
    requires r.Result? && (r.price.Some? ==> FinalGroupRatio(r.price.value) >= 0.0)
    ensures ActualQuota(r).Some? <==> r.totalTokens > 0 && r.price.Some? && r.price.value.modelRatio > 0.0
    ensures ActualQuota(r).Some? ==>
              var worth := match r.price.value.ownRatio
                           case Some(own) => r.totalTokens as real * r.price.value.modelRatio * own
                           case None => r.totalTokens as real * r.price.value.modelRatio * r.price.value.groupRatio;
              ActualQuota(r).value as real <= worth < ActualQuota(r).value as real + 1.0
  {
    if ActualQuota(r).Some? {
      ProductNonNegative(r.totalTokens as real, r.price.value.modelRatio);
      ProductNonNegative(r.totalTokens as real * r.price.value.modelRatio, FinalGroupRatio(r.price.value));
    }
  }

  /** What a saved poll leaves in the row, field by field, for a reply with a known status. */
  lemma SavedPollRow(g: Ledger, r: Reply, now: int, f: Faults)
    requires r.Result? && f.update && Reported(r) != NotStart && Reported(r) != Unknown
    ensures var t := AfterPoll(g, r, now, f).row;
            && (r.status == Some(t.status) || (r.status.None? && t.status == Failure))
            // Progress is the reported one or a mark of the status; a failure is always complete.
            && t.progress == (match t.status
                              case Failure => "100%"
                              case Success => if r.progress == "" then "100%" else r.progress
                              case InProgress => if r.progress == "" then "30%" else r.progress
                              case Queued => if r.progress == "" then "20%" else r.progress
                              case _ => if r.progress == "" then "10%" else r.progress)
            // The times are set once, when the work is first seen to start or to end.
            && t.finishTime == (if (t.status == Failure || t.status == Success) && g.row.finishTime == 0 then now else g.row.finishTime)
            && t.startTime == (if t.status == InProgress && g.row.startTime == 0 then now else g.row.startTime)
            // A failure keeps its reason; a success keeps its address there, unless it carries the data itself.
            && t.failReason == (match t.status
                                case Failure => if r.status.Some? then r.reason else "upstream returned empty status"
                                case Success => if |r.url| > 5 && r.url[..5] == "data:" then g.row.failReason else r.url
                                case _ => g.row.failReason)
            && (t.quota != g.row.quota ==> t.status == Success && f.rebillWrite && ActualQuota(r) == Some(t.quota))
  {
  }

  /** A poll that fails to fetch, parse, save or know the status leaves the row as it was. */
  lemma UnsavedPollRow(g: Ledger, r: Reply, now: int, f: Faults)
    requires !r.Result? || !f.update || Reported(r) == NotStart || Reported(r) == Unknown
    ensures AfterPoll(g, r, now, f).row == g.row
  {
  }

  lemma ProductNonNegative(a: real, b: real)
    requires a >= 0.0 && b >= 0.0
    ensures a * b >= 0.0
  {
  }

  /** With saves and refunds succeeding, every run conserves balance plus reservation, whether or not re-billing does. */
  lemma {:induction false} RunConserves(g: Ledger, events: seq<Event>)
    requires g.row.quota >= 0
    requires forall i :: 0 <= i < |events| ==> WritesOk(events[i]) && PricesNonNegative(events[i])
    ensures Wealth(Run(g, events)) == Wealth(g)
    decreases |events|
  {
    if events != [] {
      var next := Step(g, events[0]);
      if Polled(g.row) {
        var e := events[0];
        PollConservesExactlyWhenNothingLost(g, e.reply, e.now, e.faults);
        if e.reply.Result? {
          ActualQuotaNonNegative(e.reply);
        }
      }
      RunConserves(next, events[1..]);
    }
  }

  /** Saving fails once after a re-billing: the next poll books the same difference again. */
  lemma LostSaveBillsTwice(g: Ledger, r: Reply, now: int, later: int)
    requires Polled(g.row) && r.Result? && r.status == Some(Success) && ActualQuota(r).Some?
    ensures var events := [Poll(r, now, Faults(true, false, true)), Poll(r, later, Faults(true, true, true))];
            var t := Run(g, events);
            && t.row.status == Success && t.row.quota == ActualQuota(r).value
            && t.balance == g.balance - 2 * (ActualQuota(r).value - g.row.quota)
  {
    var first, second := Poll(r, now, Faults(true, false, true)), Poll(r, later, Faults(true, true, true));
    var events := [first, second];
    assert events[1..] == [second];
    assert Step(g, first).row == g.row;
    assert Run(Step(g, first), [second]) == Run(Step(Step(g, first), second), []);
  }

  /** A saved poll takes a task out of polling before it has ended exactly when upstream reports it complete but waiting. */
  lemma AbandonedExactlyWhenReportedComplete(g: Ledger, r: Reply, now: int, f: Faults)
    requires Polled(g.row)
    ensures var t := AfterPoll(g, r, now, f).row;
            !Polled(t) && t.status != Success && t.status != Failure
            <==> f.update && r.Result? && r.status.Some? && r.progress == "100%"
                 && (r.status.value == Submitted || r.status.value == Queued || r.status.value == InProgress)
  {
  }
}
