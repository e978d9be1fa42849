/**
 Channel selection across automatic groups, and the relay loop that drives it. The loop counter lives in the retry
 parameter and is reset by the selection itself, so neither termination nor the visiting order is visible in the loop.
 Channel lookup, circuit breakers, context setup, request bodies and upstream answers are arbitrary oracles.
 */
module ChannelRouting {
  import opened Wrappers

  /** The settings one request runs under. */
  datatype Settings = Settings(auto: bool, autoEnabled: bool, groups: nat, crossGroupRetry: bool, retryTimes: int, specificChannel: bool)

  datatype ApiError = ApiError(channelError: bool, skipRetry: bool, statusCode: int)

  /** What the outside world answers; the first argument counts the calls of that kind. */
  datatype World = World(
    lookup: (nat, int, int) -> Option<int>,
    allow: nat -> bool,
    setupOk: nat -> bool,
    bodyOk: nat -> bool,
    answer: nat -> Option<ApiError>)

  /** One consultation of a group's channels at one priority level. */
  datatype Lookup = Lookup(group: int, priority: int, found: bool)

  function ShouldRetry(e: ApiError, retryTimes: int, specificChannel: bool): bool
  {
    if e.channelError then true
    else if e.skipRetry then false
    else if retryTimes <= 0 then false
    else if specificChannel then false
    else if e.statusCode == 429 then true
    else if e.statusCode == 307 then true
    else if e.statusCode / 100 == 5 then e.statusCode != 504 && e.statusCode != 524
    else if e.statusCode == 400 then false
    else if e.statusCode == 408 then false
    else if e.statusCode / 100 == 2 then false
    else true
  }

  /**
   Which errors deserve another attempt: an error of the channel itself always, any other only while retries are left,
   nothing pins the request to a channel, and the status is none of the final ones.
   */
  predicate WorthRetrying(e: ApiError, retriesLeft: int, pinned: bool)
  {
    || e.channelError
    || (!e.skipRetry && retriesLeft > 0 && !pinned
        && !(200 <= e.statusCode < 300) && e.statusCode !in {400, 408, 504, 524})
  }

  /** The chain of tests decides exactly that. */
  lemma RetriedUnlessFinal(e: ApiError, retryTimes: int, specificChannel: bool)
    ensures ShouldRetry(e, retryTimes, specificChannel) <==> WorthRetrying(e, retryTimes, specificChannel)
  {
  }

  /** An error worth retrying whenever a retry is left. */
  predicate Retryable(e: ApiError, s: Settings)
  {
    WorthRetrying(e, 1, s.specificChannel)
  }

  // ---- the visiting order ----

  /** Where the search goes after a lookup: the next priority, or the next group from its first priority. */
  function Next(s: Settings, l: Lookup): (int, int)
  {
    if !l.found || (s.auto && s.crossGroupRetry && l.priority >= s.retryTimes) then (l.group + 1, 0)
    else (l.group, l.priority + 1)
  }

  /** The retries left after a lookup that found a channel: all of them, if the search leaves the group now. */
  function RetriesAfter(s: Settings, l: Lookup): int
  {
    if Next(s, l).0 > l.group then s.retryTimes else s.retryTimes - l.priority
  }

  ghost predicate Chained(s: Settings, log: seq<Lookup>)
  {
    forall i, j :: 0 <= i && j == i + 1 && j < |log| ==> (log[j].group, log[j].priority) == Next(s, log[i])
  }

  ghost predicate InBounds(s: Settings, log: seq<Lookup>)
  {
    forall i :: 0 <= i < |log| ==> 0 <= log[i].group < s.groups && 0 <= log[i].priority <= s.retryTimes
  }

  /** Every lookup was answered by the world. */
  ghost predicate Honest(w: World, log: seq<Lookup>)
  {
    forall i :: 0 <= i < |log| ==> (log[i].found <==> w.lookup(i, log[i].group, log[i].priority).Some?)
  }

  ghost predicate GoodLog(s: Settings, w: World, log: seq<Lookup>)
  {
    Chained(s, log) && InBounds(s, log) && Honest(w, log)
  }

  lemma GoodLogExtended(s: Settings, w: World, log: seq<Lookup>, l: Lookup)
    requires GoodLog(s, w, log)
    requires 0 <= l.group < s.groups && 0 <= l.priority <= s.retryTimes
    requires l.found <==> w.lookup(|log|, l.group, l.priority).Some?
    requires log != [] ==> (l.group, l.priority) == Next(s, log[|log| - 1])
    ensures GoodLog(s, w, log + [l])
  {
  }

  /** The log grew by lookups that start at `start`, advance one group at a time and end at the first success. */
  ghost predicate Probed(before: seq<Lookup>, after: seq<Lookup>, start: (int, int), found: bool)
  {
    && |before| < |after| && before == after[..|before|]
    && (after[|before|].group, after[|before|].priority) == start
    && after[|after| - 1].group == start.0 + |after| - |before| - 1
    && (forall i :: |before| <= i < |after| - 1 ==> !after[i].found)
    && after[|after| - 1].found == found
  }

  /** The log part way through a selection that is about to consult group `i`. */
  ghost predicate Probing(s: Settings, w: World, before: seq<Lookup>, now: seq<Lookup>, start: (int, int), i: int)
  {
    && GoodLog(s, w, now)
    && (if i == start.0 then now == before else i > start.0 && Probed(before, now, start, false))
    && |now| == |before| + i - start.0
    && (now != [] ==> (i, if i == start.0 then start.1 else 0) == Next(s, now[|now| - 1]))
  }

  lemma ProbingStep(s: Settings, w: World, before: seq<Lookup>, now: seq<Lookup>, start: (int, int), i: int, l: Lookup)
    requires Probing(s, w, before, now, start, i)
    requires 0 <= start.0 && 0 <= start.1 <= s.retryTimes && i < s.groups
    requires l.group == i && l.priority == (if i == start.0 then start.1 else 0)
    requires l.found <==> w.lookup(|now|, l.group, l.priority).Some?
    ensures Probed(before, now + [l], start, l.found) && GoodLog(s, w, now + [l])
    ensures !l.found ==> Probing(s, w, before, now + [l], start, i + 1)
  {
    GoodLogExtended(s, w, now, l);
    assert (now + [l])[..|before|] == now[..|before|];
  }

  /** An upstream call: the round it was made in, and how many retries were left and lookups made by then. */
  datatype UpstreamCall = UpstreamCall(round: nat, retriesLeft: int, lookups: nat)

  datatype Outcome = Served | NoChannel | SetupFailed | BodyFailed | GaveUp | RetriesUsed

  class RetryParam {
    var retry: Option<int>
    var resetNextTry: bool

    constructor (retry: int)
      ensures this.retry == Some(retry) && !resetNextTry
    {
      this.retry := Some(retry);
      resetNextTry := false;
    }

    function GetRetry(): int
      reads this
    {
      if retry.None? then 0 else retry.value
    }

    method SetRetry(r: int)
      modifies this
      ensures GetRetry() == r && resetNextTry == old(resetNextTry)
    {
      retry := Some(r);
    }

    method IncreaseRetry()
      modifies this
      ensures !resetNextTry
      ensures GetRetry() == if old(resetNextTry) then old(GetRetry()) else old(GetRetry()) + 1
    {
      if resetNextTry {
        resetNextTry := false;
        return;
      }
      if retry.None? {
        retry := Some(0);
      }
      retry := Some(retry.value + 1);
    }

    method ResetRetryNextTry()
      modifies this
      ensures resetNextTry && GetRetry() == old(GetRetry())
    {
      resetNextTry := true;
    }
  }

  class Request {
    const settings: Settings
    const param: RetryParam
    var autoGroupIndex: Option<int>
    var channelMetaSet: bool
    var log: seq<Lookup>

    constructor (settings: Settings, autoGroupIndex: Option<int>)
      requires autoGroupIndex.Some? ==> autoGroupIndex.value >= 0
      ensures this.settings == settings && this.autoGroupIndex == autoGroupIndex
      ensures fresh(param) && param.GetRetry() == 0 && !param.resetNextTry
      ensures !channelMetaSet && log == []
    {
      this.settings := settings;
      this.autoGroupIndex := autoGroupIndex;
      param := new RetryParam(0);
      channelMetaSet := false;
      log := [];
    }

    /** The group a selection starts from; a request outside the automatic groups has just one, numbered zero. */
    function StartIndex(): int
      reads this
    {
      if settings.auto && autoGroupIndex.Some? then autoGroupIndex.value else 0
    }

    /** The lookup the next selection would begin with. */
    function Position(): (int, int)
      reads this, param
    {
      (StartIndex(), param.GetRetry())
    }

    /** The state between two attempts: the next selection goes on where the log says it must. */
    ghost predicate Valid(world: World)
      reads this, param
    {
      && StartIndex() >= 0 && param.GetRetry() >= 0 && !param.resetNextTry
      && (!settings.auto ==> settings.groups == 1)
      && GoodLog(settings, world, log)
      && (log != [] ==> channelMetaSet && Position() == Next(settings, log[|log| - 1]))
    }

    /** A channel was found, and the counters are set so that the loop's step leads to the next position. */
    ghost predicate ReadyToStep()
      reads this, param
    {
      && log != [] && log[|log| - 1].found
      && (settings.auto ==> StartIndex() == Next(settings, log[|log| - 1]).0)
      && (param.resetNextTry <==> Next(settings, log[|log| - 1]).0 > log[|log| - 1].group)
      && param.GetRetry() == (if param.resetNextTry then 0 else log[|log| - 1].priority)
    }

    /** Consult one group, and set the index and the counters for wherever the search goes next. */
    method TryGroup(world: World, i: int, priorityRetry: int) returns (channel: Option<int>)
      modifies this, param
      ensures channelMetaSet == old(channelMetaSet)
      ensures channel == world.lookup(|old(log)|, i, priorityRetry)
      ensures log == old(log) + [Lookup(i, priorityRetry, channel.Some?)]
      ensures var leave := settings.crossGroupRetry && priorityRetry >= settings.retryTimes;
              && autoGroupIndex == Some(if channel.None? || leave then i + 1 else i)
              && param.GetRetry() == (if channel.None? || leave then 0 else old(param.GetRetry()))
              && (param.resetNextTry <==> old(param.resetNextTry) || (channel.Some? && leave))
    {
      channel := world.lookup(|log|, i, priorityRetry);
      log := log + [Lookup(i, priorityRetry, channel.Some?)];
      if channel.None? {
        autoGroupIndex := Some(i + 1);
        param.SetRetry(0);
        return;
      }
      if settings.crossGroupRetry && priorityRetry >= settings.retryTimes {
        autoGroupIndex := Some(i + 1);
        param.SetRetry(0);
        param.ResetRetryNextTry();
      } else {
        autoGroupIndex := Some(i);
      }
    }

    /** One selection among the automatic groups: probe them from the current one on until one has a channel. */
    method SelectAuto(world: World) returns (channel: Option<int>)
      requires Valid(world) && param.GetRetry() <= settings.retryTimes && settings.auto
      modifies this, param
      ensures channelMetaSet == old(channelMetaSet) && GoodLog(settings, world, log)
      ensures channel.Some? ==>
                && Probed(old(log), log, old(Position()), true) && ReadyToStep()
                && channel == world.lookup(|log| - 1, log[|log| - 1].group, log[|log| - 1].priority)
      ensures channel.None? ==>
                if old(StartIndex()) >= settings.groups then log == old(log)
                else Probed(old(log), log, old(Position()), false) && log[|log| - 1].group == settings.groups - 1
    {
      channel := None;
      var startGroupIndex := StartIndex();
      var i := startGroupIndex;
      ghost var start, before := Position(), log;
      while i < settings.groups
        invariant startGroupIndex <= i && (i <= settings.groups || i == startGroupIndex)
        invariant Probing(settings, world, before, log, start, i)
        invariant StartIndex() == i && !param.resetNextTry
        invariant param.GetRetry() == if i == startGroupIndex then start.1 else 0
        invariant channelMetaSet == old(channelMetaSet) && channel.None?
      {
        var priorityRetry := param.GetRetry();
        if i > startGroupIndex {
          priorityRetry := 0;
        }
        ghost var now := log;
        channel := TryGroup(world, i, priorityRetry);
        ProbingStep(settings, world, before, now, start, i, Lookup(i, priorityRetry, channel.Some?));
        if channel.Some? {
          return;
        }
        i := i + 1;
      }
    }

    /** A selection that consults no group: none is configured, or all are behind. */
    predicate NowhereToLook()
      reads this
    {
      settings.auto && (!settings.autoEnabled || StartIndex() >= settings.groups)
    }

    method CacheGetRandomSatisfiedChannel(world: World) returns (channel: Option<int>)
      requires Valid(world) && param.GetRetry() <= settings.retryTimes
      modifies this, param
      ensures channelMetaSet == old(channelMetaSet) && GoodLog(settings, world, log)
      ensures channel.Some? ==>
                && Probed(old(log), log, old(Position()), true) && ReadyToStep()
                && channel == world.lookup(|log| - 1, log[|log| - 1].group, log[|log| - 1].priority)
      ensures channel.None? ==> if old(NowhereToLook()) then log == old(log)
                                else Probed(old(log), log, old(Position()), false) && log[|log| - 1].group == settings.groups - 1
    {
      if settings.auto {
        if !settings.autoEnabled {
          return None;
        }
        channel := SelectAuto(world);
      } else {
        var retry := param.GetRetry();
        channel := world.lookup(|log|, 0, retry);
        GoodLogExtended(settings, world, log, Lookup(0, retry, channel.Some?));
        log := log + [Lookup(0, retry, channel.Some?)];
      }
    }

    /** The channel for the next attempt: the one routed to beforehand until an attempt was made, a selection from then on. */
    method GetChannel(world: World, round: nat) returns (outcome: Outcome)
      requires Valid(world) && param.GetRetry() <= settings.retryTimes
      modifies this, param
      ensures channelMetaSet == old(channelMetaSet) && GoodLog(settings, world, log)
      ensures !old(channelMetaSet) ==> outcome.Served? && unchanged(this) && unchanged(param)
      ensures outcome.Served? || outcome.SetupFailed? || outcome.NoChannel?
      ensures old(channelMetaSet) && !outcome.NoChannel? ==>
                && Probed(old(log), log, old(Position()), true) && ReadyToStep()
                && (outcome.Served? <==> world.setupOk(round))
      ensures outcome.NoChannel? ==> if old(NowhereToLook()) then log == old(log)
                                     else Probed(old(log), log, old(Position()), false) && log[|log| - 1].group == settings.groups - 1
    {
      if !channelMetaSet {
        return Served;
      }
      var channel := CacheGetRandomSatisfiedChannel(world);
      if channel.None? {
        return NoChannel;
      }
      return if world.setupOk(round) then Served else SetupFailed;
    }

    /** The position after a successful selection once the loop has stepped the counter. */
    lemma StepReachesNext(world: World)
      requires ReadyToStep() && GoodLog(settings, world, log) && (!settings.auto ==> settings.groups == 1)
      ensures (StartIndex(), if param.resetNextTry then param.GetRetry() else param.GetRetry() + 1)
              == Next(settings, log[|log| - 1])
    {
    }

    /** What one round does to the log: nothing before the first attempt, one selection afterwards. */
    ghost predicate OneSelection(before: seq<Lookup>, start: (int, int), selects: bool)
      reads this
    {
      log == before || (selects && (Probed(before, log, start, true) || Probed(before, log, start, false)))
    }

    /**
     The upstream call of a round, unless the breaker of the channel is open. The loop ends here exactly if the body
     cannot be read, the call is answered, or the error it is answered with does not deserve another attempt.
     */
    method Attempt(world: World, round: nat) returns (verdict: Option<Outcome>, called: bool, failed: bool)
      modifies this`channelMetaSet
      ensures channelMetaSet <==> old(channelMetaSet) || called
      ensures Attempted(settings, world, round, RetriesLeft(), verdict, called, failed)
    {
      called, failed := false, false;
      if world.allow(round) {
        if !world.bodyOk(round) {
          return Some(BodyFailed), false, true;
        }
        called, channelMetaSet := true, true;
        var answer := world.answer(round);
        if answer.None? {
          return Some(Served), true, false;
        }
        failed := true;
        RetriedUnlessFinal(answer.value, RetriesLeft(), settings.specificChannel);
        if !ShouldRetry(answer.value, settings.retryTimes - param.GetRetry(), settings.specificChannel) {
          return Some(GaveUp), true, true;
        }
      }
      return None, called, failed;
    }

    function RetriesLeft(): int
      reads this, param
    {
      settings.retryTimes - param.GetRetry()
    }

    /** The step of the counter after a round whose selection, if there was one, went from `start` on after `before`. */
    method Advance(world: World, ghost before: seq<Lookup>, ghost start: (int, int), ghost selected: bool)
      requires GoodLog(settings, world, log) && start.0 >= 0 && start.1 >= 0 && (!settings.auto ==> settings.groups == 1)
      requires if selected then channelMetaSet && Probed(before, log, start, true) && ReadyToStep()
               else log == [] && Position() == start && !param.resetNextTry
      modifies param
      ensures Valid(world)
      ensures !selected ==> Position() == (start.0, start.1 + 1)
      ensures selected ==>
                && log != [] && Position() == Next(settings, log[|log| - 1])
                && (StartIndex() > start.0 || Position() == (start.0, start.1 + 1))
                && (settings.auto ==> StartIndex() <= settings.groups)
    {
      if selected {
        StepReachesNext(world);
      }
      param.IncreaseRetry();
    }

    /** One round of the loop, with the step of the counter; no verdict means that the loop goes on. */
    method Round(world: World, round: nat)
      returns (verdict: Option<Outcome>, called: bool, failed: bool, ghost retriesLeft: int)
      requires Valid(world) && param.GetRetry() <= settings.retryTimes
      modifies this, param
      ensures GoodLog(settings, world, log) && OneSelection(old(log), old(Position()), old(channelMetaSet))
      ensures channelMetaSet <==> old(channelMetaSet) || called
      ensures if WithoutChannel(world, round, verdict, log) then old(channelMetaSet) && !called && failed
              else Attempted(settings, world, round, retriesLeft, verdict, called, failed)
                   && LeftInRound(settings, log, old(param.GetRetry()), old(channelMetaSet), retriesLeft)
      ensures verdict.None? ==> Valid(world)
      ensures verdict.None? && !old(channelMetaSet) ==> Position() == (old(StartIndex()), old(param.GetRetry()) + 1)
      ensures verdict.None? && old(channelMetaSet) ==>
                && log != [] && Position() == Next(settings, log[|log| - 1])
                && (StartIndex() > old(StartIndex()) || Position() == (old(StartIndex()), old(param.GetRetry()) + 1))
                && (settings.auto ==> StartIndex() <= settings.groups)
      ensures verdict == Some(NoChannel) && settings.auto && settings.autoEnabled
              ==> AllGroupsTried(settings, old(StartIndex()), if log == old(log) then [] else log)
      ensures verdict == Some(NoChannel) && !settings.auto ==> log != [] && !log[|log| - 1].found
    {
      ghost var before, start, selects := log, Position(), channelMetaSet;
      var outcome := GetChannel(world, round);
      retriesLeft := RetriesLeft();
      if !outcome.Served? {
        return Some(outcome), false, true, retriesLeft;
      }
      verdict, called, failed := Attempt(world, round);
      if verdict.Some? {
        return;
      }
      Advance(world, before, start, selects);
      return None, called, failed, retriesLeft;
    }

    /** A round of a run, with the calls of the run after it. */
    method RoundOfRun(world: World, round: nat, ghost calls: seq<UpstreamCall>)
      returns (verdict: Option<Outcome>, called: bool, failed: bool, ghost more: seq<UpstreamCall>)
      requires Valid(world) && param.GetRetry() <= settings.retryTimes && History(settings, world, calls, round, log)
      requires !channelMetaSet ==> round == param.GetRetry() && forall k :: 0 <= k < round ==> !world.allow(k)
      modifies this, param
      ensures GoodLog(settings, world, log)
      ensures if old(log) != [] then log != [] && log[0] == old(log)[0]
              else log != [] ==> old(channelMetaSet) && (log[0].group, log[0].priority) == old(Position())
      ensures channelMetaSet <==> old(channelMetaSet) || called
      ensures |more| == if called then |calls| + 1 else |calls|
      ensures if verdict.None? then Valid(world) && History(settings, world, more, round + 1, log)
              else EndedAfter(settings, world, more, round, log, verdict.value)
      ensures failed <==> if verdict.None? then called else !verdict.value.Served?
      ensures verdict.Some? ==> !verdict.value.RetriesUsed? && (verdict.value.Served? ==> called)
      ensures if called || (verdict.Some? && !old(channelMetaSet)) then world.allow(round)
              else old(channelMetaSet) || !world.allow(round)
      ensures verdict.None? && !old(channelMetaSet) ==> Position() == (old(StartIndex()), old(param.GetRetry()) + 1) && log == []
      ensures verdict.None? && old(channelMetaSet) ==>
                && log != [] && Position() == Next(settings, log[|log| - 1])
                && (StartIndex() > old(StartIndex()) || Position() == (old(StartIndex()), old(param.GetRetry()) + 1))
                && (settings.auto ==> StartIndex() <= settings.groups)
      ensures verdict == Some(NoChannel) && settings.auto && settings.autoEnabled
              ==> AllGroupsTried(settings, old(StartIndex()), if log == old(log) then [] else log)
      ensures verdict == Some(NoChannel) && !settings.auto ==> log != [] && !log[|log| - 1].found
      ensures verdict.Some? && KeepsTrying(settings, world) ==> verdict == Some(NoChannel)
    {
      ghost var before, selected, retry, left := log, channelMetaSet, param.GetRetry(), 0;
      verdict, called, failed, left := Round(world, round);
      OneMoreRound(settings, world, calls, before, log, round, left, verdict, called, failed, selected, retry);
      more := WithCall(calls, called, UpstreamCall(round, left, |log|));
    }

    /**
     The relay loop: `tried` counts the upstream calls, `failed` says whether an error is left for the deferred refund.
     All calls and the number of rounds before the last one are returned to state what ended it.
     */
    method Relay(world: World)
      returns (outcome: Outcome, tried: nat, failed: bool, ghost calls: seq<UpstreamCall>, ghost rounds: nat)
      requires Valid(world) && !channelMetaSet && param.GetRetry() == 0 && log == []
      modifies this, param
      ensures GoodLog(settings, world, log)
      ensures log != [] ==> log[0].group == old(StartIndex()) && log[0].priority >= 1
      ensures tried == |calls| && EndedAfter(settings, world, calls, rounds, log, outcome)
      ensures outcome.RetriesUsed? ==> param.GetRetry() > settings.retryTimes
      ensures outcome.NoChannel? && settings.auto && settings.autoEnabled ==> AllGroupsTried(settings, old(StartIndex()), log)
      ensures outcome.NoChannel? && !settings.auto ==> log != [] && !log[|log| - 1].found
      ensures KeepsTrying(settings, world) ==> outcome.NoChannel?
      // A run ends without a reply and without an error exactly when every breaker it may ask is open.
      ensures !failed && !outcome.Served? <==> EveryBreakerOpen(settings, world)
      ensures EveryBreakerOpen(settings, world) ==> outcome.RetriesUsed? && tried == 0
    {
      tried, failed, calls, rounds := 0, false, [], 0;
      var round := 0;
      while param.GetRetry() <= settings.retryTimes
        invariant Valid(world)
        invariant log != [] ==> log[0].group == old(StartIndex()) && log[0].priority >= 1
        invariant log == [] ==> StartIndex() == old(StartIndex())
        invariant rounds == round && tried == |calls| && History(settings, world, calls, round, log)
        invariant !channelMetaSet ==> round == param.GetRetry() && forall k :: 0 <= k < round ==> !world.allow(k)
        invariant channelMetaSet ==> !EveryBreakerOpen(settings, world)
        invariant channelMetaSet && log == [] ==> param.GetRetry() >= 1
        invariant KeepsTrying(settings, world) ==> param.GetRetry() <= settings.retryTimes
        invariant channelMetaSet <==> tried > 0
        invariant failed <==> tried > 0
        decreases if channelMetaSet then 0 else 1,
                  if settings.auto && StartIndex() < settings.groups then settings.groups - StartIndex() else 0,
                  settings.retryTimes + 1 - param.GetRetry()
      {
        var verdict, called, error, more := RoundOfRun(world, round, calls);
        tried := if called then tried + 1 else tried;
        failed := if called || error then error else failed;
        calls := more;
        if verdict.Some? {
          return verdict.value, tried, failed, calls, rounds;
        }
        round, rounds := round + 1, rounds + 1;
      }
      outcome := RetriesUsed;
    }
  }

  // ---- the upstream calls of a run ----

  /** A call was answered by an error that deserves another attempt. */
  predicate Again(s: Settings, w: World, round: nat, retriesLeft: int)
  {
    w.answer(round).Some? && WorthRetrying(w.answer(round).value, retriesLeft, s.specificChannel)
  }

  /** What comes of a round that has a channel. */
  predicate Attempted(s: Settings, w: World, round: nat, retriesLeft: int, verdict: Option<Outcome>, called: bool, failed: bool)
  {
    && (called <==> w.allow(round) && w.bodyOk(round))
    && (verdict == Some(BodyFailed) <==> w.allow(round) && !w.bodyOk(round))
    && (verdict == Some(Served) <==> called && w.answer(round).None?)
    && (verdict == Some(GaveUp) <==> called && w.answer(round).Some? && !Again(s, w, round, retriesLeft))
    && (verdict.None? <==> !w.allow(round) || (called && Again(s, w, round, retriesLeft)))
    && (failed <==> w.allow(round) && verdict != Some(Served))
  }

  /** The loop ends before a call because there is no channel or its context cannot be set up. */
  predicate WithoutChannel(w: World, round: nat, verdict: Option<Outcome>, log: seq<Lookup>)
  {
    verdict == Some(NoChannel) || (verdict == Some(SetupFailed) && !w.setupOk(round) && log != [] && log[|log| - 1].found)
  }

  /** The retries left when the call of a round is made: counted within the group whose channel is used. */
  predicate LeftInRound(s: Settings, log: seq<Lookup>, round: int, selected: bool, retriesLeft: int)
  {
    if selected then log != [] && log[|log| - 1].found && retriesLeft == RetriesAfter(s, log[|log| - 1])
    else log == [] && retriesLeft == s.retryTimes - round
  }

  function WithCall(calls: seq<UpstreamCall>, called: bool, call: UpstreamCall): seq<UpstreamCall>
  {
    if called then calls + [call] else calls
  }

  /** A call past an open breaker, with the channel of the last lookup before it. */
  predicate GoodCall(s: Settings, w: World, call: UpstreamCall, log: seq<Lookup>)
  {
    && w.allow(call.round) && w.bodyOk(call.round) && call.lookups <= |log|
    && (if call.lookups == 0 then call.retriesLeft == s.retryTimes - call.round
        else log[call.lookups - 1].found && call.retriesLeft == RetriesAfter(s, log[call.lookups - 1]))
  }

  /** The calls of some rounds after which the loop went on. */
  ghost predicate History(s: Settings, w: World, calls: seq<UpstreamCall>, rounds: nat, log: seq<Lookup>)
  {
    if rounds == 0 then calls == []
    else if w.allow(rounds - 1) then
      && calls != [] && calls[|calls| - 1].round == rounds - 1 && GoodCall(s, w, calls[|calls| - 1], log)
      && Again(s, w, rounds - 1, calls[|calls| - 1].retriesLeft)
      && History(s, w, calls[..|calls| - 1], rounds - 1, log)
    else History(s, w, calls, rounds - 1, log)
  }

  /** How a run ended after some rounds that it went on from. */
  ghost predicate EndedAfter(s: Settings, w: World, calls: seq<UpstreamCall>, rounds: nat, log: seq<Lookup>, outcome: Outcome)
  {
    match outcome
    case Served => LastCalled(s, w, calls, rounds, log) && w.answer(rounds).None?
    case GaveUp =>
      && LastCalled(s, w, calls, rounds, log) && w.answer(rounds).Some?
      && !Again(s, w, rounds, calls[|calls| - 1].retriesLeft)
    case BodyFailed => History(s, w, calls, rounds, log) && w.allow(rounds) && !w.bodyOk(rounds)
    case SetupFailed => History(s, w, calls, rounds, log) && log != [] && log[|log| - 1].found && !w.setupOk(rounds)
    case NoChannel => History(s, w, calls, rounds, log)
    case RetriesUsed => History(s, w, calls, rounds, log)
  }

  ghost predicate LastCalled(s: Settings, w: World, calls: seq<UpstreamCall>, rounds: nat, log: seq<Lookup>)
  {
    && calls != [] && calls[|calls| - 1].round == rounds && GoodCall(s, w, calls[|calls| - 1], log)
    && History(s, w, calls[..|calls| - 1], rounds, log)
  }

  lemma {:induction false} HistoryKept(s: Settings, w: World, calls: seq<UpstreamCall>, rounds: nat, before: seq<Lookup>, after: seq<Lookup>)
    requires History(s, w, calls, rounds, before) && before <= after
    ensures History(s, w, calls, rounds, after)
  {
    if rounds > 0 {
      if w.allow(rounds - 1) {
        HistoryKept(s, w, calls[..|calls| - 1], rounds - 1, before, after);
        var call := calls[|calls| - 1];
        assert call.lookups > 0 ==> after[call.lookups - 1] == before[call.lookups - 1];
      } else {
        HistoryKept(s, w, calls, rounds - 1, before, after);
      }
    }
  }

  /** What one more round adds, and that a run that keeps trying does not end with it for another reason than no channel. */
  lemma OneMoreRound(s: Settings, w: World, calls: seq<UpstreamCall>, before: seq<Lookup>, log: seq<Lookup>, round: nat,
                     retriesLeft: int, verdict: Option<Outcome>, called: bool, failed: bool, selected: bool, retry: int)
    requires History(s, w, calls, round, before) && before <= log && GoodLog(s, w, log)
    requires if WithoutChannel(w, round, verdict, log) then !called
             else Attempted(s, w, round, retriesLeft, verdict, called, failed) && LeftInRound(s, log, retry, selected, retriesLeft)
    requires !selected ==> retry == round && forall k :: 0 <= k < round ==> !w.allow(k)
    ensures var more := WithCall(calls, called, UpstreamCall(round, retriesLeft, |log|));
            if verdict.None? then History(s, w, more, round + 1, log) else EndedAfter(s, w, more, round, log, verdict.value)
    ensures verdict.Some? && KeepsTrying(s, w) ==> verdict == Some(NoChannel)
  {
    HistoryKept(s, w, calls, round, before, log);
    if called {
      assert (calls + [UpstreamCall(round, retriesLeft, |log|)])[..|calls|] == calls;
    }
    if verdict.Some? && KeepsTrying(s, w) && verdict != Some(NoChannel) {
      assert w.setupOk(round) && w.bodyOk(round);
      RetriesRemain(s, w, log, round, retry, selected, retriesLeft);
    }
  }

  lemma RetriesRemain(s: Settings, w: World, log: seq<Lookup>, round: nat, retry: int, selected: bool, retriesLeft: int)
    requires KeepsTrying(s, w) && LeftInRound(s, log, retry, selected, retriesLeft) && GoodLog(s, w, log)
    requires !selected ==> retry == round && w.allow(round) && forall k :: 0 <= k < round ==> !w.allow(k)
    ensures retriesLeft > 0
  {
    var k :| 0 <= k < s.retryTimes && w.allow(k);
    assert selected || round <= k;
  }

  /**
   What the calls of a run tell: they were made in the order of their rounds and every round let through by its breaker
   before the end has one; all but the last were answered by an error that deserved another attempt with the retries then
   left. The run is served exactly if the last one was answered without an error, and gives up exactly if it was answered
   by an error that does not deserve another attempt.
   */
  lemma CallsDecideOutcome(s: Settings, w: World, calls: seq<UpstreamCall>, rounds: nat, log: seq<Lookup>, outcome: Outcome)
    requires EndedAfter(s, w, calls, rounds, log, outcome)
    ensures forall i, j :: 0 <= i < j < |calls| ==> calls[i].round < calls[j].round
    ensures forall k :: 0 <= k < rounds && w.allow(k) ==> exists i :: 0 <= i < |calls| && calls[i].round == k
    ensures forall i :: 0 <= i < |calls| ==> GoodCall(s, w, calls[i], log)
    ensures forall i :: 0 <= i < |calls| - 1 ==> Again(s, w, calls[i].round, calls[i].retriesLeft)
    ensures outcome.Served? <==> calls != [] && w.answer(calls[|calls| - 1].round).None?
    ensures outcome.GaveUp? <==> calls != [] && w.answer(calls[|calls| - 1].round).Some?
                                 && !Again(s, w, calls[|calls| - 1].round, calls[|calls| - 1].retriesLeft)
  {
    if outcome.Served? || outcome.GaveUp? {
      var front := calls[..|calls| - 1];
      HistoryTells(s, w, front, rounds, log);
      assert forall i :: 0 <= i < |front| ==> calls[i] == front[i];
      forall k | 0 <= k < rounds && w.allow(k) ensures exists i :: 0 <= i < |calls| && calls[i].round == k {
        var i := CallOfRound(s, w, front, rounds, log, k);
        assert calls[i].round == k;
      }
    } else {
      HistoryTells(s, w, calls, rounds, log);
      forall k | 0 <= k < rounds && w.allow(k) ensures exists i :: 0 <= i < |calls| && calls[i].round == k {
        var i := CallOfRound(s, w, calls, rounds, log, k);
      }
    }
  }

  lemma {:induction false} HistoryTells(s: Settings, w: World, calls: seq<UpstreamCall>, rounds: nat, log: seq<Lookup>)
    requires History(s, w, calls, rounds, log)
    ensures forall i :: 0 <= i < |calls| ==> calls[i].round < rounds
    ensures forall i, j :: 0 <= i < j < |calls| ==> calls[i].round < calls[j].round
    ensures forall i :: 0 <= i < |calls| ==>
              GoodCall(s, w, calls[i], log) && Again(s, w, calls[i].round, calls[i].retriesLeft)
  {
    if rounds > 0 {
      if w.allow(rounds - 1) {
        var front := calls[..|calls| - 1];
        HistoryTells(s, w, front, rounds - 1, log);
        assert forall i :: 0 <= i < |front| ==> calls[i] == front[i];
      } else {
        HistoryTells(s, w, calls, rounds - 1, log);
      }
    }
  }

  /** The call of a round that was let through. */
  lemma {:induction false} CallOfRound(s: Settings, w: World, calls: seq<UpstreamCall>, rounds: nat, log: seq<Lookup>, k: nat)
    returns (i: nat)
    requires History(s, w, calls, rounds, log) && k < rounds && w.allow(k)
    ensures i < |calls| && calls[i].round == k
  {
    if k == rounds - 1 {
      i := |calls| - 1;
    } else if w.allow(rounds - 1) {
      i := CallOfRound(s, w, calls[..|calls| - 1], rounds - 1, log, k);
    } else {
      i := CallOfRound(s, w, calls, rounds - 1, log, k);
    }
  }

  /** No round up to the last retry gets past the circuit breaker of its channel. */
  ghost predicate EveryBreakerOpen(s: Settings, w: World)
  {
    forall k :: 0 <= k <= s.retryTimes ==> !w.allow(k)
  }

  /** The search left no automatic group from the starting one on unconsulted. */
  ghost predicate AllGroupsTried(s: Settings, start: int, log: seq<Lookup>)
  {
    if log == [] then start >= s.groups else Next(s, log[|log| - 1]).0 >= s.groups
  }

  /**
   Cross-group retry is on, some round before the last retry gets past the breaker of the preselected channel, context
   setup and request bodies never fail, and whatever is tried fails with an error worth retrying.
   */
  ghost predicate KeepsTrying(s: Settings, w: World)
  {
    && s.auto && s.autoEnabled && s.crossGroupRetry
    && (exists k :: 0 <= k < s.retryTimes && w.allow(k))
    && forall k :: w.setupOk(k) && w.bodyOk(k) && w.answer(k).Some? && Retryable(w.answer(k).value, s)
  }

  // ---- what the visiting order implies ----

  ghost predicate LexLess(a: Lookup, b: Lookup)
  {
    a.group < b.group || (a.group == b.group && a.priority < b.priority)
  }

  /** No position is ever consulted twice: positions strictly increase, group first, priority second. */
  lemma {:induction false} StrictlyIncreasing(s: Settings, log: seq<Lookup>, i: nat, j: nat)
    requires Chained(s, log) && i < j < |log|
    ensures LexLess(log[i], log[j])
    decreases j
  {
    assert (log[j].group, log[j].priority) == Next(s, log[j - 1]);
    if i < j - 1 {
      StrictlyIncreasing(s, log, i, j - 1);
    }
  }

  function Rank(s: Settings, l: Lookup): int
  {
    l.group * (s.retryTimes + 1) + l.priority
  }

  lemma RankIncreases(s: Settings, a: Lookup, b: Lookup)
    requires LexLess(a, b) && 0 <= a.priority <= s.retryTimes && 0 <= b.priority
    ensures Rank(s, a) < Rank(s, b)
  {
    var w := s.retryTimes + 1;
    if a.group < b.group {
      assert b.group * w >= (a.group + 1) * w == a.group * w + w;
    }
  }

  lemma MulBetween(a: int, n: int, w: int)
    requires 0 <= a < n && w >= 0
    ensures 0 <= a * w && a * w + w <= n * w
  {
    assert (a + 1) * w <= n * w;
  }

  lemma RankBound(s: Settings, l: Lookup)
    requires 0 <= l.group < s.groups && 0 <= l.priority <= s.retryTimes
    ensures 0 <= Rank(s, l) < s.groups * (s.retryTimes + 1)
  {
    MulBetween(l.group, s.groups, s.retryTimes + 1);
  }

  lemma {:induction false} RankGrowsWithIndex(s: Settings, log: seq<Lookup>, i: nat)
    requires Chained(s, log) && InBounds(s, log) && i < |log|
    ensures Rank(s, log[i]) >= i
  {
    if i == 0 {
      RankBound(s, log[0]);
    } else {
      RankGrowsWithIndex(s, log, i - 1);
      StrictlyIncreasing(s, log, i - 1, i);
      RankIncreases(s, log[i - 1], log[i]);
    }
  }

  /** One run consults at most one channel per group and priority. */
  lemma LookupsBounded(s: Settings, log: seq<Lookup>)
    requires Chained(s, log) && InBounds(s, log) && s.retryTimes >= 0
    ensures |log| <= s.groups * (s.retryTimes + 1)
  {
    if log == [] {
      assert s.groups * (s.retryTimes + 1) >= 0;
    } else {
      RankGrowsWithIndex(s, log, |log| - 1);
      RankBound(s, log[|log| - 1]);
    }
  }

  /** Between two groups of a log every group in between is entered at its first priority. */
  lemma {:induction false} EveryGroupEntered(s: Settings, log: seq<Lookup>, g: int) returns (k: nat)
    requires Chained(s, log) && log != [] && log[0].group < g < Next(s, log[|log| - 1]).0
    ensures k < |log| && log[k].group == g && log[k].priority == 0
  {
    k := 0;
    while log[k].group != g || log[k].priority != 0
      invariant k < |log|
      invariant log[k].group < g || (log[k].group == g && log[k].priority == 0)
      decreases |log| - k
    {
      if k + 1 < |log| {
        assert (log[k + 1].group, log[k + 1].priority) == Next(s, log[k]);
      }
      k := k + 1;
    }
  }

  /**
   When the loop keeps trying, every automatic group after the first one consulted is consulted at its first priority;
   a group that has a channel there is therefore selected.
   */
  lemma EveryLaterGroupConsulted(s: Settings, w: World, start: int, log: seq<Lookup>, g: int) returns (k: nat)
    requires GoodLog(s, w, log) && AllGroupsTried(s, start, log)
    requires log != [] && log[0].group == start < g < s.groups
    ensures k < |log| && log[k].group == g && log[k].priority == 0
    ensures w.lookup(k, g, 0).Some? ==> log[k].found
  {
    k := EveryGroupEntered(s, log, g);
  }

  /** Within a group that answers, priorities are taken one after another until the retries of the group are used up. */
  lemma {:induction false} PrioritiesInOrder(s: Settings, log: seq<Lookup>, k: nat, n: nat)
    requires Chained(s, log) && s.auto && s.crossGroupRetry && k + n < |log|
    requires log[k].priority == 0 && n <= s.retryTimes
    requires forall i :: k <= i < k + n ==> log[i].found
    ensures log[k + n].group == log[k].group && log[k + n].priority == n
  {
    if n > 0 {
      PrioritiesInOrder(s, log, k, n - 1);
      assert (log[k + n].group, log[k + n].priority) == Next(s, log[k + n - 1]);
    }
  }
}
