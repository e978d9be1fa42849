/**
 The billing saga of one request: freeze the wallet, pre-debit the local quotas, then settle or refund the
 difference, with compensation when a local write fails and an outbox entry when a wallet call fails. Every database
 write, cached read and wallet call may fail or answer anything; those answers are arguments.
 */
module BillingSaga {
  import opened Wrappers

  datatype Action = Settle | Release

  /** A wallet call on a pre-authorisation made while serving the request. */
  datatype Call = Call(id: int, action: Action, amount: real, ok: bool)

  /** A row handed to the retry outbox. */
  datatype Entry = Entry(account: int, id: int, action: Action, amount: real)

  datatype Config = Config(account: int, playground: bool, tokenUnlimited: bool, unifiedBilling: bool, quotaPerUnit: real)

  /** Both local balances, what the request remembers, and everything sent to the platform wallet on its behalf. */
  datatype State = State(
    user: int, token: int, preAuth: int, preConsumed: int,
    calls: seq<Call>, outbox: seq<Entry>, debits: seq<real>)

  /** Which of the writes and calls of a settlement or refund succeed. */
  datatype Faults = Faults(userWrite: bool, tokenWrite: bool, compensation: bool, settle: bool, release: bool, enqueue: bool)

  /** What a pre-consumption reads and whether its writes succeed. */
  datatype PreFaults = PreFaults(
    skipPreAuth: bool, granted: Option<int>, userQuota: Option<int>, tokenLimit: int, tokenQuota: Option<int>,
    tokenWrite: bool, userWrite: bool, release: bool, enqueue: bool)

  datatype PreResult = Accepted | Refused | Unreadable | Insufficient | TokenFailed | WriteFailed

  // ---- the effect of each operation ----

  function Released(c: Config, s: State, release: bool, enqueue: bool): State
  {
    if s.preAuth <= 0 then s
    else
      s.(calls := s.calls + [Call(s.preAuth, Release, 0.0, release)],
         outbox := if !release && enqueue then s.outbox + [Entry(c.account, s.preAuth, Release, 0.0)] else s.outbox)
  }

  function Settled(c: Config, s: State, amount: real, settle: bool, enqueue: bool): State
  {
    s.(calls := s.calls + [Call(s.preAuth, Settle, amount, settle)],
       outbox := if !settle && enqueue then s.outbox + [Entry(c.account, s.preAuth, Settle, amount)] else s.outbox)
  }

  /** The wallet part of a settlement: nothing for an unlinked account or a total that is not positive. */
  function WalletSettled(c: Config, s: State, total: int, consistent: bool, f: Faults): State
    requires c.quotaPerUnit > 0.0
  {
    if c.account <= 0 || total <= 0 then s
    else if s.preAuth > 0 then
      (if !consistent then Released(c, s, f.release, f.enqueue)
       else Settled(c, s, total as real / c.quotaPerUnit, f.settle, f.enqueue)).(preAuth := 0)
    else s.(debits := s.debits + [total as real / c.quotaPerUnit])
  }

  function Consumed(c: Config, s: State, quota: int, pre: int, f: Faults): (State, bool)
    requires c.quotaPerUnit > 0.0
  {
    if !f.userWrite then (s, false)
    else
      var consistent := c.playground || f.tokenWrite;
      var local := s.(user := if consistent || !f.compensation then s.user - quota else s.user,
                      token := if c.playground || !f.tokenWrite then s.token else s.token - quota);
      (WalletSettled(c, local, quota + pre, consistent, f), consistent)
  }

  /** What a return books before it releases the pre-authorisation. */
  function Refunded(c: Config, s: State, f: Faults): State
    requires c.quotaPerUnit > 0.0
  {
    if s.preConsumed != 0 then Consumed(c, s, -s.preConsumed, 0, f).0 else s
  }

  function Returned(c: Config, s: State, f: Faults): State
    requires c.quotaPerUnit > 0.0
  {
    Released(c, Refunded(c, s, f), f.release, f.enqueue)
  }

  /** Settling the final quota of a served request: only a difference to the pre-consumed amount is booked. */
  function Finished(c: Config, s: State, quota: int, f: Faults): State
    requires c.quotaPerUnit > 0.0
  {
    if quota == s.preConsumed then s else Consumed(c, s, quota - s.preConsumed, s.preConsumed, f).0
  }

  function TrustQuota(c: Config): int
  {
    (10.0 * c.quotaPerUnit).Floor
  }

  /** The amount pre-consumed once trusted users are exempted. */
  function Held(c: Config, estimate: int, userQuota: int, tokenLimit: int): int
  {
    if userQuota > TrustQuota(c) && (c.tokenUnlimited || tokenLimit > TrustQuota(c)) then 0 else estimate
  }

  /** The pre-authorisation step: the identifier the request then carries, or no value when the platform refuses. */
  function PreAuthorized(c: Config, s: State, estimate: int, f: PreFaults): Option<int>
  {
    if s.preAuth > 0 then Some(s.preAuth)
    else if c.unifiedBilling && c.account > 0 && estimate > 0 && !f.skipPreAuth then f.granted
    else Some(s.preAuth)
  }

  function PreConsumed(c: Config, s: State, estimate: int, f: PreFaults): (State, PreResult)
  {
    var granted := PreAuthorized(c, s, estimate, f);
    if granted.None? then (s, Refused)
    else
      var s := s.(preAuth := granted.value);
      var abandoned := Released(c, s, f.release, f.enqueue).(preAuth := 0);
      if f.userQuota.None? then (s, Unreadable)
      else if f.userQuota.value <= 0 || f.userQuota.value < estimate then (abandoned, Insufficient)
      else
        var held := Held(c, estimate, f.userQuota.value, f.tokenLimit);
        if held <= 0 then (s.(preConsumed := held), Accepted) else Debited(c, s, held, f)
  }

  /** Debiting the token and then the user for an amount to hold. */
  function Debited(c: Config, s: State, held: int, f: PreFaults): (State, PreResult)
  {
    var abandoned := Released(c, s, f.release, f.enqueue).(preAuth := 0);
    if !TokenDebits(c, held, f) then (abandoned, TokenFailed)
    else
      var token := if c.playground then s.token else s.token - held;
      if !f.userWrite then (abandoned.(token := token), WriteFailed)
      else (s.(user := s.user - held, token := token, preConsumed := held), Accepted)
  }

  predicate TokenDebits(c: Config, quota: int, f: PreFaults)
  {
    c.playground || (f.tokenQuota.Some? && (c.tokenUnlimited || f.tokenQuota.value >= quota) && f.tokenWrite)
  }

  // ---- the operations themselves ----

  class Request {
    const config: Config
    var user: int
    var token: int
    var preAuth: int
    var preConsumed: int
    var calls: seq<Call>
    var outbox: seq<Entry>
    var debits: seq<real>

    constructor (config: Config, user: int, token: int)
      ensures this.config == config && Value() == State(user, token, 0, 0, [], [], [])
    {
      this.config, this.user, this.token, preAuth, preConsumed := config, user, token, 0, 0;
      calls, outbox, debits := [], [], [];
    }

    function Value(): State
      reads this
    {
      State(user, token, preAuth, preConsumed, calls, outbox, debits)
    }

    method DecreaseUserQuota(quota: int, write: bool) returns (ok: bool)
      modifies this`user
      ensures ok <==> quota >= 0 && write
      ensures user == if ok then old(user) - quota else old(user)
    {
      if quota < 0 || !write {
        return false;
      }
      user := user - quota;
      return true;
    }

    method IncreaseUserQuota(quota: int, write: bool) returns (ok: bool)
      modifies this`user
      ensures ok <==> quota >= 0 && write
      ensures user == if ok then old(user) + quota else old(user)
    {
      if quota < 0 || !write {
        return false;
      }
      user := user + quota;
      return true;
    }

    method DecreaseTokenQuota(quota: int, write: bool) returns (ok: bool)
      modifies this`token
      ensures ok <==> quota >= 0 && write
      ensures token == if ok then old(token) - quota else old(token)
    {
      if quota < 0 || !write {
        return false;
      }
      token := token - quota;
      return true;
    }

    method IncreaseTokenQuota(quota: int, write: bool) returns (ok: bool)
      modifies this`token
      ensures ok <==> quota >= 0 && write
      ensures token == if ok then old(token) + quota else old(token)
    {
      if quota < 0 || !write {
        return false;
      }
      token := token + quota;
      return true;
    }

    method ReleasePlatformPreAuth(release: bool, enqueue: bool)
      modifies this`calls, this`outbox
      ensures Value() == Released(config, old(Value()), release, enqueue)
    {
      if preAuth <= 0 {
        return;
      }
      calls := calls + [Call(preAuth, Release, 0.0, release)];
      if !release && enqueue {
        outbox := outbox + [Entry(config.account, preAuth, Release, 0.0)];
      }
    }

    method PreConsumeTokenQuota(quota: int, f: PreFaults) returns (ok: bool)
      modifies this`token
      ensures ok <==> quota >= 0 && (config.playground
                                     || (f.tokenQuota.Some? && (config.tokenUnlimited || quota <= f.tokenQuota.value) && f.tokenWrite))
      ensures token == if ok && !config.playground then old(token) - quota else old(token)
    {
      if quota < 0 {
        return false;
      }
      if config.playground {
        return true;
      }
      if f.tokenQuota.None? || (!config.tokenUnlimited && f.tokenQuota.value < quota) {
        return false;
      }
      ok := DecreaseTokenQuota(quota, f.tokenWrite);
    }

    method PreConsumeQuota(estimate: int, f: PreFaults) returns (r: PreResult)
      modifies this
      ensures (Value(), r) == PreConsumed(config, old(Value()), estimate, f)
      // The platform is asked for a grant only when none is carried, and may refuse.
      ensures var asked := old(preAuth) <= 0 && config.unifiedBilling && config.account > 0 && estimate > 0 && !f.skipPreAuth;
              && (r == Refused <==> asked && f.granted.None?)
              && (r == Accepted || r == Unreadable ==> preAuth == if asked then f.granted.value else old(preAuth))
    {
      if preAuth <= 0 && config.unifiedBilling && config.account > 0 && estimate > 0 && !f.skipPreAuth {
        if f.granted.None? {
          return Refused;
        }
        preAuth := f.granted.value;
      }
      if f.userQuota.None? {
        return Unreadable;
      }
      var userQuota := f.userQuota.value;
      if userQuota <= 0 || userQuota - estimate < 0 {
        ReleasePlatformPreAuth(f.release, f.enqueue);
        preAuth := 0;
        return Insufficient;
      }
      var held := estimate;
      if userQuota > TrustQuota(config) {
        if config.tokenUnlimited || f.tokenLimit > TrustQuota(config) {
          held := 0;
        }
      }
      if held > 0 {
        r := DebitBoth(held, f);
        return;
      }
      preConsumed := held;
      return Accepted;
    }

    /** The debits of a pre-consumption that holds something. */
    method DebitBoth(held: int, f: PreFaults) returns (r: PreResult)
      requires held > 0
      modifies this
      ensures (Value(), r) == Debited(config, old(Value()), held, f)
    {
      var ok := PreConsumeTokenQuota(held, f);
      if !ok {
        ReleasePlatformPreAuth(f.release, f.enqueue);
        preAuth := 0;
        return TokenFailed;
      }
      ok := DecreaseUserQuota(held, f.userWrite);
      if !ok {
        ReleasePlatformPreAuth(f.release, f.enqueue);
        preAuth := 0;
        return WriteFailed;
      }
      preConsumed := held;
      return Accepted;
    }

    method PostConsumeQuota(quota: int, pre: int, f: Faults) returns (ok: bool)
      requires config.quotaPerUnit > 0.0
      modifies this
      ensures (Value(), ok) == Consumed(config, old(Value()), quota, pre, f)
    {
      if quota > 0 {
        ok := DecreaseUserQuota(quota, f.userWrite);
      } else {
        ok := IncreaseUserQuota(-quota, f.userWrite);
      }
      if !ok {
        return false;
      }
      var localQuotaConsistent := true;
      if !config.playground {
        if quota > 0 {
          ok := DecreaseTokenQuota(quota, f.tokenWrite);
        } else {
          ok := IncreaseTokenQuota(-quota, f.tokenWrite);
        }
        if !ok {
          localQuotaConsistent := false;
          if quota > 0 {
            var _ := IncreaseUserQuota(quota, f.compensation);
          } else {
            var _ := DecreaseUserQuota(-quota, f.compensation);
          }
        }
      }
      var totalQuota := quota + pre;
      if config.account > 0 && totalQuota > 0 {
        var amount := totalQuota as real / config.quotaPerUnit;
        if preAuth > 0 {
          if !localQuotaConsistent {
            ReleasePlatformPreAuth(f.release, f.enqueue);
          } else {
            calls := calls + [Call(preAuth, Settle, amount, f.settle)];
            if !f.settle && f.enqueue {
              outbox := outbox + [Entry(config.account, preAuth, Settle, amount)];
            }
          }
          preAuth := 0;
        } else {
          debits := debits + [amount];
        }
      }
      return localQuotaConsistent;
    }

    method ReturnPreConsumedQuota(f: Faults)
      requires config.quotaPerUnit > 0.0
      modifies this
      ensures Value() == Returned(config, old(Value()), f)
    {
      if preConsumed != 0 {
        var _ := PostConsumeQuota(-preConsumed, 0, f);
      }
      ReleasePlatformPreAuth(f.release, f.enqueue);
    }

    /** The settlement at the end of a served request with final quota `quota`. */
    method SettleDifference(quota: int, f: Faults)
      requires config.quotaPerUnit > 0.0
      modifies this
      ensures Value() == Finished(config, old(Value()), quota, f)
    {
      var quotaDelta := quota - preConsumed;
      if quotaDelta != 0 {
        var _ := PostConsumeQuota(quotaDelta, preConsumed, f);
      }
    }
  }

  // ---- the local ledger ----

  function TokenShare(c: Config, quota: int): int
  {
    if c.playground then 0 else quota
  }

  /**
   A settlement that reports success moved both balances. One that reports an error moved neither, unless the token
   write and then the compensating write both failed: exactly then the user balance moved alone, if there was anything
   to move.
   */
  lemma PostConsumeIsAtomic(c: Config, s: State, quota: int, pre: int, f: Faults)
    requires c.quotaPerUnit > 0.0
    ensures var (t, ok) := Consumed(c, s, quota, pre, f);
            && (ok <==> f.userWrite && (c.playground || f.tokenWrite))
            && (ok ==> t.user == s.user - quota && t.token == s.token - TokenShare(c, quota))
            && (!ok ==> t.token == s.token)
            && (!ok ==> (t.user == s.user <==> quota == 0 || !f.userWrite || f.compensation))
  {
  }

  /** The cached user quota was read and covers the estimate. */
  predicate Affordable(estimate: int, f: PreFaults)
  {
    f.userQuota.Some? && f.userQuota.value > 0 && f.userQuota.value >= estimate
  }

  /** A trusted caller is not pre-charged: both quotas are worth more than ten units. */
  predicate Trusted(c: Config, f: PreFaults)
    requires f.userQuota.Some?
  {
    f.userQuota.value as real > 10.0 * c.quotaPerUnit && (c.tokenUnlimited || f.tokenLimit as real > 10.0 * c.quotaPerUnit)
  }

  /** There is something to debit, and the token lets it be debited. */
  predicate DebitsToken(c: Config, estimate: int, f: PreFaults)
    requires Affordable(estimate, f)
  {
    estimate > 0 && !Trusted(c, f) && TokenDebits(c, estimate, f)
  }

  /**
   A rejected pre-consumption leaves the user balance alone, and the token's too with one exception: the user debit is
   the last write, and when it alone fails the token debit before it is not undone.
   */
  lemma RejectionKeepsBalances(c: Config, s: State, estimate: int, f: PreFaults)
    ensures var (t, r) := PreConsumed(c, s, estimate, f);
            && (r != Accepted ==> t.user == s.user)
            && (r != Accepted && t.token != s.token <==>
                && PreAuthorized(c, s, estimate, f).Some? && Affordable(estimate, f) && DebitsToken(c, estimate, f)
                && !c.playground && !f.userWrite)
  {
  }

  /** When pre-consumption accepts a request, in terms of what it reads and which of its writes succeed. */
  predicate Accepts(c: Config, s: State, estimate: int, f: PreFaults)
  {
    && PreAuthorized(c, s, estimate, f).Some? && Affordable(estimate, f)
    && (estimate <= 0 || Trusted(c, f) || (TokenDebits(c, estimate, f) && f.userWrite))
  }

  /** The amount an accepted pre-consumption leaves held. */
  function HeldOf(c: Config, estimate: int, f: PreFaults): int
    requires f.userQuota.Some?
  {
    if Trusted(c, f) then 0 else estimate
  }

  lemma AcceptedExactly(c: Config, s: State, estimate: int, f: PreFaults)
    ensures var (t, r) := PreConsumed(c, s, estimate, f);
            && (r == Accepted <==> Accepts(c, s, estimate, f))
            && (r == Accepted ==> t.preConsumed == HeldOf(c, estimate, f) && t.calls == s.calls)
            && (r == Refused <==> PreAuthorized(c, s, estimate, f).None?)
            && (r == Unreadable <==> PreAuthorized(c, s, estimate, f).Some? && f.userQuota.None?)
            && (r == Insufficient <==> PreAuthorized(c, s, estimate, f).Some? && f.userQuota.Some? && !Affordable(estimate, f))
            && (r == TokenFailed <==> PreAuthorized(c, s, estimate, f).Some? && Affordable(estimate, f) && estimate > 0
                                      && !Trusted(c, f) && !TokenDebits(c, estimate, f))
  {
  }

  /** All local writes of a settlement or refund succeed. */
  predicate LocalWritesOk(f: Faults)
  {
    f.userWrite && f.tokenWrite
  }

  /**
   Pre-consuming and then settling costs exactly the final quota, however the estimate and the trust rule came out. The
   one exception is a negative estimate of an untrusted caller: it is remembered without having been credited, and the
   request costs that much more.
   */
  lemma ServedCostsFinalQuota(c: Config, s: State, estimate: int, pf: PreFaults, quota: int, f: Faults)
    requires c.quotaPerUnit > 0.0 && LocalWritesOk(f)
    requires Accepts(c, s, estimate, pf)
    ensures var t := Finished(c, PreConsumed(c, s, estimate, pf).0, quota, f);
            var cost := if estimate < 0 && !Trusted(c, pf) && quota != estimate then quota - estimate
                        else if estimate < 0 && !Trusted(c, pf) then 0 else quota;
            t.user == s.user - cost && t.token == s.token - TokenShare(c, cost)
  {
    AcceptedExactly(c, s, estimate, pf);
    var held := PreConsumed(c, s, estimate, pf).0;
    if quota != held.preConsumed {
      var delta := quota - held.preConsumed;
      assert Consumed(c, held, delta, held.preConsumed, f).0.user == held.user - delta;
    }
  }

  /** Pre-consuming and then returning restores both balances. */
  lemma ReturnRestoresBalances(c: Config, s: State, estimate: int, pf: PreFaults, f: Faults)
    requires c.quotaPerUnit > 0.0 && LocalWritesOk(f) && estimate >= 0
    requires Accepts(c, s, estimate, pf)
    ensures var t := Returned(c, PreConsumed(c, s, estimate, pf).0, f);
            t.user == s.user && t.token == s.token
  {
  }

  /** A settled or directly debited amount, in quota units, is the final quota. */
  lemma SettledAmountIsFinalQuota(c: Config, s: State, quota: int, f: Faults)
    requires c.quotaPerUnit > 0.0
    ensures var t := Finished(c, s, quota, f);
            && (forall i :: |s.calls| <= i < |t.calls| && t.calls[i].action == Settle
                            ==> t.calls[i].amount * c.quotaPerUnit == quota as real)
            && (forall i :: |s.outbox| <= i < |t.outbox| && t.outbox[i].action == Settle
                            ==> t.outbox[i].amount * c.quotaPerUnit == quota as real)
            && (forall i :: |s.debits| <= i < |t.debits| ==> t.debits[i] * c.quotaPerUnit == quota as real)
  {
    UnitsRoundTrip(quota, c.quotaPerUnit);
  }

  lemma UnitsRoundTrip(total: int, quotaPerUnit: real)
    requires quotaPerUnit > 0.0
    ensures total as real / quotaPerUnit * quotaPerUnit == total as real
  {
  }

  // ---- what reaches the wallet ----

  /** The row that stands in for a failed wallet call. */
  function FallbackRows(c: Config, call: Call, enqueue: bool): seq<Entry>
  {
    if !call.ok && enqueue then [Entry(c.account, call.id, call.action, call.amount)] else []
  }

  /** One call was made for a request, and its row enqueued if it failed. */
  predicate HandedOver(c: Config, s: State, t: State, call: Call, enqueue: bool)
  {
    t.calls == s.calls + [call] && t.outbox == s.outbox + FallbackRows(c, call, enqueue) && t.debits == s.debits
  }

  predicate NothingHandedOver(s: State, t: State)
  {
    t.calls == s.calls && t.outbox == s.outbox && t.debits == s.debits
  }

  /**
   A settlement reaches the wallet if the user was charged, the account is linked and the total is positive. It then
   settles the total of a carried pre-authorisation if the token was charged as well, and releases it if not; without
   a pre-authorisation it debits the total.
   */
  lemma SettlementOnWallet(c: Config, s: State, quota: int, pre: int, f: Faults)
    requires c.quotaPerUnit > 0.0
    ensures var t := Consumed(c, s, quota, pre, f).0;
            var total := quota + pre;
            if !f.userWrite || c.account <= 0 || total <= 0 then NothingHandedOver(s, t) && t.preAuth == s.preAuth
            else if s.preAuth <= 0 then
              && t.calls == s.calls && t.outbox == s.outbox && t.preAuth == s.preAuth
              && |t.debits| == |s.debits| + 1 && t.debits[..|s.debits|] == s.debits
              && t.debits[|s.debits|] * c.quotaPerUnit == total as real
            else
              && t.preAuth == 0
              && (if c.playground || f.tokenWrite
                  then |t.calls| > 0 && t.calls[|t.calls| - 1].amount * c.quotaPerUnit == total as real
                       && HandedOver(c, s, t, Call(s.preAuth, Settle, t.calls[|t.calls| - 1].amount, f.settle), f.enqueue)
                  else HandedOver(c, s, t, Call(s.preAuth, Release, 0.0, f.release), f.enqueue))
  {
    UnitsRoundTrip(quota + pre, c.quotaPerUnit);
  }

  /** A return of a non-negative amount releases the carried pre-authorisation, and nothing else reaches the wallet. */
  lemma ReturnOnWallet(c: Config, s: State, f: Faults)
    requires c.quotaPerUnit > 0.0 && s.preConsumed >= 0
    ensures var t := Returned(c, s, f);
            && t.preAuth == s.preAuth
            && (if s.preAuth > 0 then HandedOver(c, s, t, Call(s.preAuth, Release, 0.0, f.release), f.enqueue)
                else NothingHandedOver(s, t))
  {
    var refunded := Refunded(c, s, f);
    assert NothingHandedOver(s, refunded) && refunded.preAuth == s.preAuth;
  }

  /** A rejected pre-consumption releases what it was granted, except when the user's quota could not be read. */
  lemma RejectionOnWallet(c: Config, s: State, estimate: int, f: PreFaults)
    ensures var (t, r) := PreConsumed(c, s, estimate, f);
            var granted := PreAuthorized(c, s, estimate, f);
            if granted.Some? && f.userQuota.Some? && !Accepts(c, s, estimate, f) then
              && t.preAuth == 0
              && (if granted.value > 0
                  then HandedOver(c, s, t, Call(granted.value, Release, 0.0, f.release), f.enqueue)
                  else NothingHandedOver(s, t))
            else NothingHandedOver(s, t) && t.preAuth == (if granted.Some? then granted.value else s.preAuth)
  {
    AcceptedExactly(c, s, estimate, f);
  }

  /** Whatever the platform is sent for a failed request is a release of the granted pre-authorisation. */
  lemma FailureOnlyReleases(c: Config, s: State, estimate: int, pf: PreFaults, f: Faults)
    requires c.quotaPerUnit > 0.0 && estimate >= 0 && PreAuthorized(c, s, estimate, pf).Some?
    ensures var id := PreAuthorized(c, s, estimate, pf).value;
            var t := Relayed(c, s, estimate, pf, Failed, f);
            && t.debits == s.debits && |t.calls| <= |s.calls| + 1
            && (forall k :: |s.calls| <= k < |t.calls| ==>
                  t.calls[k].id == id && t.calls[k].action == Release && t.calls[k].amount == 0.0)
            && (forall k :: |s.outbox| <= k < |t.outbox| ==> t.outbox[k] == Entry(c.account, id, Release, 0.0))
  {
    AcceptedExactly(c, s, estimate, pf);
    RejectionOnWallet(c, s, estimate, pf);
    var (held, r) := PreConsumed(c, s, estimate, pf);
    if r == Accepted {
      ReturnOnWallet(c, held, f);
    }
  }

  // ---- at most one wallet action per pre-authorisation ----

  datatype Op =
    | Pre(estimate: int, preFaults: PreFaults)
    | Post(quota: int, pre: int, faults: Faults)
    | Return(faults: Faults)

  function Step(c: Config, s: State, op: Op): State
    requires c.quotaPerUnit > 0.0
  {
    match op
    case Pre(estimate, f) => PreConsumed(c, s, estimate, f).0
    case Post(quota, pre, f) => Consumed(c, s, quota, pre, f).0
    case Return(f) => Returned(c, s, f)
  }

  function Run(c: Config, s: State, ops: seq<Op>): State
    requires c.quotaPerUnit > 0.0
    decreases |ops|
  {
    if ops == [] then s else Run(c, Step(c, s, ops[0]), ops[1..])
  }

  predicate Acted(s: State, id: int)
  {
    exists i :: 0 <= i < |s.calls| && s.calls[i].id == id
  }

  /** The platform issues positive identifiers it has not issued before. */
  ghost predicate FreshGrants(c: Config, s: State, ops: seq<Op>)
    requires c.quotaPerUnit > 0.0
    decreases |ops|
  {
    ops != [] ==>
      && (ops[0].Pre? && ops[0].preFaults.granted.Some? ==>
            ops[0].preFaults.granted.value > 0 && !Acted(s, ops[0].preFaults.granted.value))
      && FreshGrants(c, Step(c, s, ops[0]), ops[1..])
  }

  /** No identifier has two calls, and outbox rows stand for distinct failed calls. */
  ghost predicate AtMostOnce(s: State)
  {
    && (forall i, j :: 0 <= i < j < |s.calls| ==> s.calls[i].id != s.calls[j].id)
    && (forall i, j :: 0 <= i < j < |s.outbox| ==> s.outbox[i].id != s.outbox[j].id)
    && (forall i :: 0 <= i < |s.outbox| ==> Backs(s, s.outbox[i]))
  }

  ghost predicate Backs(s: State, e: Entry)
  {
    exists j :: 0 <= j < |s.calls| && s.calls[j] == Call(e.id, e.action, e.amount, false)
  }

  /** The pre-authorisation carried by the request has not been acted on. */
  predicate Untouched(s: State)
  {
    s.preAuth > 0 ==> !Acted(s, s.preAuth)
  }

  /** One more call on an untouched identifier, with its outbox fallback. */
  lemma OneMoreCall(s: State, t: State, call: Call, e: Entry)
    requires AtMostOnce(s) && !Acted(s, call.id)
    requires t.calls == s.calls + [call]
    requires t.outbox == s.outbox || (t.outbox == s.outbox + [e] && call == Call(e.id, e.action, e.amount, false))
    ensures AtMostOnce(t)
  {
    forall i | 0 <= i < |s.outbox| ensures Backs(t, s.outbox[i]) && s.outbox[i].id != call.id {
      assert Backs(s, s.outbox[i]);
      var j :| 0 <= j < |s.calls| && s.calls[j] == Call(s.outbox[i].id, s.outbox[i].action, s.outbox[i].amount, false);
      assert t.calls[j] == s.calls[j];
    }
    if t.outbox == s.outbox + [e] {
      assert t.calls[|s.calls|] == call;
      assert Backs(t, e) || t.outbox == s.outbox;
    }
  }

  lemma ReleaseActsOnce(c: Config, s: State, release: bool, enqueue: bool)
    requires AtMostOnce(s) && Untouched(s)
    ensures AtMostOnce(Released(c, s, release, enqueue))
  {
    if s.preAuth > 0 {
      OneMoreCall(s, Released(c, s, release, enqueue), Call(s.preAuth, Release, 0.0, release),
                  Entry(c.account, s.preAuth, Release, 0.0));
    }
  }

  lemma SameWallet(s: State, t: State)
    requires s.calls == t.calls && s.outbox == t.outbox
    ensures AtMostOnce(s) ==> AtMostOnce(t)
    ensures forall id :: Acted(s, id) <==> Acted(t, id)
  {
    if AtMostOnce(s) {
      forall i | 0 <= i < |t.outbox| ensures Backs(t, t.outbox[i]) {
        assert Backs(s, s.outbox[i]);
      }
    }
  }

  lemma ConsumeActsOnce(c: Config, s: State, quota: int, pre: int, f: Faults)
    requires c.quotaPerUnit > 0.0 && AtMostOnce(s) && Untouched(s)
    ensures AtMostOnce(Consumed(c, s, quota, pre, f).0) && Untouched(Consumed(c, s, quota, pre, f).0)
    ensures quota + pre <= 0 ==> Consumed(c, s, quota, pre, f).0.calls == s.calls
  {
    var t := Consumed(c, s, quota, pre, f).0;
    if c.account > 0 && quota + pre > 0 && s.preAuth > 0 && f.userWrite {
      var amount := (quota + pre) as real / c.quotaPerUnit;
      if c.playground || f.tokenWrite {
        OneMoreCall(s, t, Call(s.preAuth, Settle, amount, f.settle), Entry(c.account, s.preAuth, Settle, amount));
      } else {
        ReleaseActsOnce(c, s, f.release, f.enqueue);
        SameWallet(Released(c, s, f.release, f.enqueue), t);
      }
    } else {
      SameWallet(s, t);
    }
  }

  lemma PreActsOnce(c: Config, s: State, estimate: int, f: PreFaults)
    requires AtMostOnce(s) && Untouched(s)
    requires f.granted.Some? ==> f.granted.value > 0 && !Acted(s, f.granted.value)
    ensures AtMostOnce(PreConsumed(c, s, estimate, f).0) && Untouched(PreConsumed(c, s, estimate, f).0)
  {
    var granted := PreAuthorized(c, s, estimate, f);
    if granted.Some? {
      var carried := s.(preAuth := granted.value);
      SameWallet(s, carried);
      ReleaseActsOnce(c, carried, f.release, f.enqueue);
      var abandoned := Released(c, carried, f.release, f.enqueue);
      var t := PreConsumed(c, s, estimate, f).0;
      if t.calls == s.calls && t.outbox == s.outbox {
        SameWallet(s, t);
      } else {
        SameWallet(abandoned, t);
      }
    }
  }

  lemma ReturnActsOnce(c: Config, s: State, f: Faults)
    requires c.quotaPerUnit > 0.0 && AtMostOnce(s) && Untouched(s)
    ensures AtMostOnce(Returned(c, s, f))
  {
    if s.preConsumed != 0 {
      ConsumeActsOnce(c, s, -s.preConsumed, 0, f);
    }
    var refunded := Refunded(c, s, f);
    assert AtMostOnce(refunded) && Untouched(refunded);
    ReleaseActsOnce(c, refunded, f.release, f.enqueue);
  }

  /**
   Over any run that returns its quota at most once, as its last operation, each pre-authorisation gets at most one
   wallet action, direct or through the outbox, and never both kinds.
   */
  lemma {:induction false} RunActsAtMostOnce(c: Config, s: State, ops: seq<Op>)
    requires c.quotaPerUnit > 0.0 && AtMostOnce(s) && Untouched(s)
    requires FreshGrants(c, s, ops)
    requires forall i :: 0 <= i < |ops| - 1 ==> !ops[i].Return?
    ensures AtMostOnce(Run(c, s, ops))
    decreases |ops|
  {
    if ops != [] {
      match ops[0] {
        case Pre(estimate, f) => PreActsOnce(c, s, estimate, f);
        case Post(quota, pre, f) => ConsumeActsOnce(c, s, quota, pre, f);
        case Return(f) => ReturnActsOnce(c, s, f);
      }
      if |ops| > 1 {
        RunActsAtMostOnce(c, Step(c, s, ops[0]), ops[1..]);
      }
    }
  }

  /** The total an operation books for the wallet. */
  function BookedBy(s: State, op: Op): int
  {
    match op
    case Pre(_, _) => 0
    case Post(quota, pre, _) => quota + pre
    case Return(_) => -s.preConsumed
  }

  /** A call that settles what an operation booked, all of whose local writes were kept. */
  predicate SettlesFor(c: Config, s: State, op: Op, call: Call)
  {
    && !op.Pre? && op.faults.userWrite && (c.playground || op.faults.tokenWrite)
    && call.id == s.preAuth && BookedBy(s, op) > 0 && call.amount * c.quotaPerUnit == BookedBy(s, op) as real
  }

  /** Calls are only ever added, and an added settlement is one of the operation's. */
  predicate AddsBooked(c: Config, s: State, op: Op, t: State, k: nat)
  {
    && |t.calls| >= |s.calls|
    && (k < |s.calls| ==> t.calls[k] == s.calls[k])
    && (|s.calls| <= k < |t.calls| && t.calls[k].action == Settle ==> SettlesFor(c, s, op, t.calls[k]))
  }

  lemma PostSettles(c: Config, s: State, quota: int, pre: int, f: Faults, k: nat)
    requires c.quotaPerUnit > 0.0
    ensures AddsBooked(c, s, Post(quota, pre, f), Consumed(c, s, quota, pre, f).0, k)
  {
    SettlementOnWallet(c, s, quota, pre, f);
  }

  lemma ReturnSettles(c: Config, s: State, f: Faults, k: nat)
    requires c.quotaPerUnit > 0.0
    ensures AddsBooked(c, s, Return(f), Returned(c, s, f), k)
  {
    if s.preConsumed >= 0 {
      ReturnOnWallet(c, s, f);
    } else {
      PostSettles(c, s, -s.preConsumed, 0, f, k);
      ReleaseSettlesNothing(c, Refunded(c, s, f), f.release, f.enqueue, k);
    }
  }

  lemma ReleaseSettlesNothing(c: Config, s: State, release: bool, enqueue: bool, k: nat)
    ensures var t := Released(c, s, release, enqueue);
            && |t.calls| >= |s.calls|
            && (k < |s.calls| ==> t.calls[k] == s.calls[k])
            && (|s.calls| <= k < |t.calls| ==> t.calls[k].action == Release)
  {
  }

  lemma StepSettles(c: Config, s: State, op: Op, k: nat)
    requires c.quotaPerUnit > 0.0
    ensures AddsBooked(c, s, op, Step(c, s, op), k)
  {
    match op {
      case Pre(estimate, f) => RejectionOnWallet(c, s, estimate, f);
      case Post(quota, pre, f) => PostSettles(c, s, quota, pre, f, k);
      case Return(f) => ReturnSettles(c, s, f, k);
    }
  }

  /**
   Over any run, a settlement is only ever sent by an operation that charged user and token, and for the total that
   operation books.
   */
  lemma {:induction false} EverySettlementIsBooked(c: Config, s: State, ops: seq<Op>, k: nat) returns (i: nat)
    requires c.quotaPerUnit > 0.0 && |s.calls| <= k < |Run(c, s, ops).calls|
    requires Run(c, s, ops).calls[k].action == Settle
    ensures i < |ops| && SettlesFor(c, Run(c, s, ops[..i]), ops[i], Run(c, s, ops).calls[k])
    decreases |ops|
  {
    var t := Step(c, s, ops[0]);
    StepSettles(c, s, ops[0], k);
    if k < |t.calls| {
      i := 0;
      CallsStay(c, t, ops[1..], k);
    } else {
      var j := EverySettlementIsBooked(c, t, ops[1..], k);
      i := j + 1;
      assert ops[..i][0] == ops[0] && ops[..i][1..] == ops[1..][..j];
    }
  }

  lemma {:induction false} CallsStay(c: Config, s: State, ops: seq<Op>, k: nat)
    requires c.quotaPerUnit > 0.0 && k < |s.calls|
    ensures k < |Run(c, s, ops).calls| && Run(c, s, ops).calls[k] == s.calls[k]
    decreases |ops|
  {
    if ops != [] {
      StepSettles(c, s, ops[0], k);
      CallsStay(c, Step(c, s, ops[0]), ops[1..], k);
    }
  }

  /** The writes an operation needs to keep the two balances together. */
  predicate KeepsTogether(op: Op)
  {
    match op
    case Pre(_, f) => f.userWrite || !f.tokenWrite
    case Post(_, _, f) => f.tokenWrite || f.compensation || !f.userWrite
    case Return(f) => f.tokenWrite || f.compensation || !f.userWrite
  }

  lemma StepMovesTogether(c: Config, s: State, op: Op)
    requires c.quotaPerUnit > 0.0 && !c.playground && KeepsTogether(op)
    ensures Step(c, s, op).user - s.user == Step(c, s, op).token - s.token
  {
    match op {
      case Pre(_, _) =>
      case Post(_, _, _) =>
      case Return(f) => assert Refunded(c, s, f).user - s.user == Refunded(c, s, f).token - s.token;
    }
  }

  /**
   Outside the playground user and token balance move together over every run in which no debit is left half done: no
   user debit fails after the token's succeeded, and no failed token write goes uncompensated.
   */
  lemma {:induction false} RunMovesBalancesTogether(c: Config, s: State, ops: seq<Op>)
    requires c.quotaPerUnit > 0.0 && !c.playground
    requires forall i :: 0 <= i < |ops| ==> KeepsTogether(ops[i])
    ensures Run(c, s, ops).user - s.user == Run(c, s, ops).token - s.token
    decreases |ops|
  {
    if ops != [] {
      StepMovesTogether(c, s, ops[0]);
      RunMovesBalancesTogether(c, Step(c, s, ops[0]), ops[1..]);
    }
  }

  function CallsOn(calls: seq<Call>, id: int): nat
  {
    if calls == [] then 0 else CallsOn(calls[..|calls| - 1], id) + (if calls[|calls| - 1].id == id then 1 else 0)
  }

  lemma CallsAfterOneMore(calls: seq<Call>, call: Call)
    ensures CallsOn(calls + [call], call.id) == CallsOn(calls, call.id) + 1
  {
    assert (calls + [call])[..|calls|] == calls;
  }

  lemma ConsumedCalls(c: Config, s: State, quota: int, pre: int, f: Faults)
    requires c.quotaPerUnit > 0.0 && s.preAuth > 0
    ensures CallsOn(Consumed(c, s, quota, pre, f).0.calls, s.preAuth) ==
            CallsOn(s.calls, s.preAuth) + (if f.userWrite && c.account > 0 && quota + pre > 0 then 1 else 0)
  {
    var t := Consumed(c, s, quota, pre, f).0;
    if |t.calls| > |s.calls| {
      CallsAfterOneMore(s.calls, t.calls[|s.calls|]);
    }
  }

  /** A return uses up the identifier: refunding a negative amount settles it. */
  predicate UsedUp(c: Config, preConsumed: int, f: Faults)
  {
    preConsumed < 0 && c.account > 0 && f.userWrite
  }

  /**
   A return releases the identifier and, unless the refund itself used it up, keeps it, so a settlement after the return
   acts on it a second time exactly when it reaches the wallet.
   */
  lemma ActingAfterReturn(c: Config, s: State, f: Faults, quota: int, pre: int, g: Faults)
    requires c.quotaPerUnit > 0.0 && s.preAuth > 0
    ensures var t := Consumed(c, Returned(c, s, f), quota, pre, g).0;
            CallsOn(t.calls, s.preAuth) ==
            CallsOn(s.calls, s.preAuth)
            + (if !UsedUp(c, s.preConsumed, f) && g.userWrite && c.account > 0 && quota + pre > 0 then 2 else 1)
  {
    var refunded, once := Refunded(c, s, f), Returned(c, s, f);
    if UsedUp(c, s.preConsumed, f) {
      CallsAfterOneMore(s.calls, refunded.calls[|s.calls|]);
      assert Consumed(c, once, quota, pre, g).0.calls == once.calls == refunded.calls;
    } else {
      assert refunded.calls == s.calls && refunded.preAuth == s.preAuth;
      CallsAfterOneMore(s.calls, Call(s.preAuth, Release, 0.0, f.release));
      ConsumedCalls(c, once, quota, pre, g);
    }
  }

  /** A refund of what is held changes nothing: there is nothing held, or its booking fails without leaving a trace. */
  predicate RefundsNothing(c: Config, preConsumed: int, f: Faults)
  {
    || preConsumed == 0 || !f.userWrite
    || (!c.playground && !f.tokenWrite && f.compensation && (c.account <= 0 || preConsumed > 0))
  }

  /**
   Returning twice is meant to be harmless. It is exactly when there is nothing left to return: with quota held the
   second call refunds it again as far as its writes succeed, and with a pre-authorisation still carried it releases
   it again.
   */
  lemma ReturnTwiceHarmlessExactlyWhenNothingHeld(c: Config, s: State, f: Faults, g: Faults)
    requires c.quotaPerUnit > 0.0
    ensures var once := Returned(c, s, f);
            Returned(c, once, g) == once <==>
            (s.preAuth <= 0 || UsedUp(c, s.preConsumed, f)) && RefundsNothing(c, s.preConsumed, g)
    ensures var once := Returned(c, s, f);
            LocalWritesOk(g) ==> Returned(c, once, g).user - once.user == s.preConsumed
  {
    var once := Returned(c, s, f);
    assert once.preConsumed == s.preConsumed;
    assert once.preAuth <= 0 <==> s.preAuth <= 0 || UsedUp(c, s.preConsumed, f);
    SecondReturn(c, once, g);
  }

  /** When a return changes nothing. */
  lemma SecondReturn(c: Config, s: State, f: Faults)
    requires c.quotaPerUnit > 0.0
    ensures Returned(c, s, f) == s <==> s.preAuth <= 0 && RefundsNothing(c, s.preConsumed, f)
  {
    var refunded := Refunded(c, s, f);
    assert |refunded.calls| >= |s.calls|;
    if s.preAuth > 0 {
      assert |Returned(c, s, f).calls| > |s.calls|;
    } else {
      assert Returned(c, s, f) == refunded;
      RefundTrace(c, s, f);
    }
  }

  lemma RefundTrace(c: Config, s: State, f: Faults)
    requires c.quotaPerUnit > 0.0 && s.preAuth <= 0
    ensures Refunded(c, s, f) == s <==> RefundsNothing(c, s.preConsumed, f)
  {
    if s.preConsumed != 0 && f.userWrite && c.account > 0 && s.preConsumed < 0 {
      assert |Refunded(c, s, f).debits| == |s.debits| + 1;
    }
  }

  // ---- a whole request ----

  /** How the relay loop ends: served with a final quota, failed, or skipped by every circuit breaker without an error. */
  datatype Ending = Served(quota: int) | Failed | Skipped

  /** What follows the relay loop; the deferred refund runs only for a failure with quota held. */
  function Concluded(c: Config, held: State, ending: Ending, f: Faults): State
    requires c.quotaPerUnit > 0.0
  {
    match ending
    case Served(quota) => Finished(c, held, quota, f)
    case Failed => if held.preConsumed != 0 then Returned(c, held, f) else held
    case Skipped => held
  }

  /** A request from pre-consumption to the deferred refund. */
  function Relayed(c: Config, s: State, estimate: int, pf: PreFaults, ending: Ending, f: Faults): State
    requires c.quotaPerUnit > 0.0
  {
    var (held, r) := PreConsumed(c, s, estimate, pf);
    if r != Accepted then held else Concluded(c, held, ending, f)
  }

  /** The paths on which nobody acts on the pre-authorisation the request was granted. */
  predicate LeftFrozen(c: Config, s: State, estimate: int, pf: PreFaults, ending: Ending, f: Faults)
  {
    || pf.userQuota.None?
    || (Accepts(c, s, estimate, pf) &&
        match ending
        case Served(quota) => quota == HeldOf(c, estimate, pf) || quota <= 0 || !f.userWrite
        case Failed => HeldOf(c, estimate, pf) == 0
        case Skipped => true)
  }

  /**
   Every pre-authorisation is meant to be settled or released. A granted one gets exactly one wallet action, unless
   the request ends on one of the paths that leave it to expire, and then it gets none. The action is a settlement of the
   final quota exactly for a served request whose token was charged; it is a release in every other case.
   */
  lemma GrantActedOnExactlyOnceUnlessLeft(c: Config, s: State, estimate: int, pf: PreFaults, ending: Ending, f: Faults)
    requires c.quotaPerUnit > 0.0 && s.preAuth <= 0 && s.calls == [] && s.outbox == [] && estimate >= 0
    requires PreAuthorized(c, s, estimate, pf).Some? && PreAuthorized(c, s, estimate, pf).value > 0
    ensures var id := PreAuthorized(c, s, estimate, pf).value;
            var t := Relayed(c, s, estimate, pf, ending, f);
            && t.debits == s.debits
            && (if LeftFrozen(c, s, estimate, pf, ending, f) then t.calls == [] && t.outbox == []
                else |t.calls| == 1 && t.calls[0].id == id
                     && (if Accepts(c, s, estimate, pf) && ending.Served? && (c.playground || f.tokenWrite)
                         then t.calls[0].action == Settle && t.calls[0].amount * c.quotaPerUnit == ending.quota as real
                         else t.calls[0].action == Release && t.calls[0].amount == 0.0)
                     && t.outbox == FallbackRows(c, t.calls[0], if Accepts(c, s, estimate, pf) then f.enqueue else pf.enqueue))
  {
    AcceptedExactly(c, s, estimate, pf);
    var (held, r) := PreConsumed(c, s, estimate, pf);
    if r == Accepted && ending.Failed? && held.preConsumed != 0 {
      assert Refunded(c, held, f).calls == [] && Refunded(c, held, f).outbox == [];
    }
    if r == Accepted && ending.Served? {
      UnitsRoundTrip(ending.quota, c.quotaPerUnit);
    }
  }

  /** What a request is charged locally: its final quota, nothing on failure, but the held quota when it was skipped. */
  lemma RequestCharge(c: Config, s: State, estimate: int, pf: PreFaults, ending: Ending, f: Faults)
    requires c.quotaPerUnit > 0.0 && LocalWritesOk(f) && estimate >= 0
    requires Accepts(c, s, estimate, pf)
    ensures var charge := match ending
                          case Served(quota) => quota
                          case Failed => 0
                          case Skipped => HeldOf(c, estimate, pf);
            var t := Relayed(c, s, estimate, pf, ending, f);
            t.user == s.user - charge && t.token == s.token - TokenShare(c, charge)
  {
    AcceptedExactly(c, s, estimate, pf);
    match ending {
      case Served(quota) => ServedCostsFinalQuota(c, s, estimate, pf, quota, f);
      case Failed => ReturnRestoresBalances(c, s, estimate, pf, f);
      case Skipped =>
    }
  }
}
