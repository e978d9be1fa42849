/**
 A relayed request as a whole: pre-consumption, the routing loop, and settlement or the deferred refund. The two
 state machines share nothing but the way the loop ends.
 */
module RelayBilling {
  import Routing = ChannelRouting
  import Saga = BillingSaga

  /** How billing sees the end of the routing loop; a served request settles its final quota. */
  function EndingOf(served: bool, failed: bool, quota: int): Saga.Ending
  {
    if served then Saga.Served(quota) else if failed then Saga.Failed else Saga.Skipped
  }

  method Relay(r: Routing.Request, b: Saga.Request, world: Routing.World,
               estimate: int, freeModel: bool, quota: int, pf: Saga.PreFaults, f: Saga.Faults)
    returns (result: Saga.PreResult, outcome: Routing.Outcome, tried: nat, failed: bool,
             ghost calls: seq<Routing.UpstreamCall>, ghost rounds: nat)
    requires b.config.quotaPerUnit > 0.0
    requires r.Valid(world) && !r.channelMetaSet && r.param.GetRetry() == 0 && r.log == []
    modifies r, r.param, b
    ensures !freeModel && result != Saga.Accepted ==> failed && b.Value() == Saga.PreConsumed(b.config, old(b.Value()), estimate, pf).0
    ensures !freeModel ==> (result == Saga.Accepted <==> Saga.Accepts(b.config, old(b.Value()), estimate, pf))
    ensures !freeModel && result == Saga.Accepted ==>
              b.Value() == Saga.Relayed(b.config, old(b.Value()), estimate, pf, EndingOf(outcome.Served?, failed, quota), f)
    // No upstream is asked before the pre-consumption is accepted; then the answers decide how the request ends.
    ensures if freeModel || result == Saga.Accepted
            then tried == |calls| && Routing.EndedAfter(r.settings, world, calls, rounds, r.log, outcome)
            else tried == 0
    // A free request books its final quota when served and returns whatever it came with when it fails.
    ensures freeModel ==> result == Saga.Accepted
    ensures freeModel ==>
              b.Value() == Saga.Concluded(b.config, old(b.Value()), EndingOf(outcome.Served?, failed, quota), f)
    // A request ends without a reply and without an error exactly when every breaker it may ask is open.
    ensures freeModel || result == Saga.Accepted ==>
              (!failed && !outcome.Served? <==> Routing.EveryBreakerOpen(r.settings, world))
    // In that case no error is left for the deferred refund to see, and the held quota stays gone; failing is free.
    ensures !freeModel && result == Saga.Accepted && estimate >= 0 && Saga.LocalWritesOk(f) ==>
              b.user == old(b.user) - (if outcome.Served? then quota
                                       else if Routing.EveryBreakerOpen(r.settings, world)
                                       then Saga.HeldOf(b.config, estimate, pf) else 0)
    ensures Routing.KeepsTrying(r.settings, world) && (freeModel || result == Saga.Accepted) ==> outcome.NoChannel? && failed
  {
    ghost var before := b.Value();
    result := Saga.Accepted;
    Saga.AcceptedExactly(b.config, before, estimate, pf);
    if !freeModel {
      result := b.PreConsumeQuota(estimate, pf);
      if result != Saga.Accepted {
        return result, Routing.GaveUp, 0, true, [], 0;
      }
    }
    outcome, tried, failed, calls, rounds := r.Relay(world);
    if outcome.Served? {
      b.SettleDifference(quota, f);
    } else if failed && b.preConsumed != 0 {
      b.ReturnPreConsumedQuota(f);
    }
    if !freeModel && estimate >= 0 && Saga.LocalWritesOk(f) {
      Saga.RequestCharge(b.config, before, estimate, pf, EndingOf(outcome.Served?, failed, quota), f);
    }
  }
}
