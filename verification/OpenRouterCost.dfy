/**
 Inferring prompt-cache writes from the price an OpenRouter reply reports, and charging for them. The provider
 reports a total cost but not how many prompt tokens were written to the cache; the price formula is inverted to
 recover that count. Arithmetic is over exact reals.
 */
module OpenRouterCost {
  import opened Numbers

  const QUOTA_PER_UNIT := 500_000.0

  datatype PriceData = PriceData(
    modelRatio: real, groupRatio: real, completionRatio: real, cacheRatio: real,
    cacheCreationRatio: real, cacheCreation5mRatio: real, cacheCreation1hRatio: real,
    modelPrice: real, usePrice: bool)

  /** The reported cost is untyped: it may be missing, a decoded number, or an integer set by other code. */
  datatype Cost = Missing | Float(value: real) | Integer(count: int)

  datatype Usage = Usage(
    promptTokens: int, completionTokens: int, cachedTokens: int, cachedCreationTokens: int,
    creation5mTokens: int, creation1hTokens: int, cost: Cost)

  /** Comparing the untyped cost with the integer zero: only an integer zero is equal to it. */
  predicate CostIsNotZero(c: Cost)
  {
    c != Integer(0)
  }

  function CostValue(c: Cost): real
  {
    match c
    case Float(v) => v
    case _ => 0.0
  }

  /** The quantity left of the cost once everything but cache writes is taken out of it. */
  function Unexplained(u: Usage, p: PriceData): real
  {
    var quotaPrice := p.modelRatio / QUOTA_PER_UNIT;
    CostValue(u.cost)
    - u.promptTokens as real * quotaPrice
    + u.cachedTokens as real * (quotaPrice - quotaPrice * p.cacheRatio)
    - u.completionTokens as real * (quotaPrice * p.completionRatio)
  }

  /** What a cache write costs over an ordinary prompt token. */
  function WritePremium(p: PriceData): real
  {
    var quotaPrice := p.modelRatio / QUOTA_PER_UNIT;
    quotaPrice * p.cacheCreationRatio - quotaPrice
  }

  /** The inferred number of cache writes; `nonNumber` is what a quotient by zero becomes when converted to an integer. */
  function CalcOpenRouterCacheCreateTokens(u: Usage, p: PriceData, nonNumber: int): int
  {
    if p.cacheCreationRatio == 1.0 then 0
    else if WritePremium(p) == 0.0 then nonNumber
    else Round(Unexplained(u, p) / WritePremium(p))
  }

  lemma PremiumNonZero(p: PriceData)
    requires p.modelRatio != 0.0 && p.cacheCreationRatio != 1.0
    ensures WritePremium(p) != 0.0
  {
    var q := p.modelRatio / QUOTA_PER_UNIT;
    PremiumIsMultiple(q, p.cacheCreationRatio);
    NonZeroProduct(q, p.cacheCreationRatio - 1.0);
  }

  lemma PremiumIsMultiple(q: real, ratio: real)
    ensures q * ratio - q == q * (ratio - 1.0)
  {
  }

  lemma NonZeroProduct(a: real, b: real)
    requires a != 0.0 && b != 0.0
    ensures a * b != 0.0
  {
  }

  // ---- the price formula and its inverse ----

  /** Prompt-token equivalents of a reply in which `create` prompt tokens were written to the cache. */
  function Units(u: Usage, p: PriceData, create: int): real
  {
    (u.promptTokens - u.cachedTokens - create) as real
    + u.cachedTokens as real * p.cacheRatio
    + create as real * p.cacheCreationRatio
    + u.completionTokens as real * p.completionRatio
  }

  /** The reported cost is the price of the reply with `create` cache writes. */
  ghost predicate PricedFor(u: Usage, p: PriceData, create: int)
  {
    u.cost == Float(p.modelRatio / QUOTA_PER_UNIT * Units(u, p, create))
  }

  /** Taking the other items out of a price leaves exactly the premium of the cache writes. */
  lemma UnexplainedIsPremium(u: Usage, p: PriceData, create: int)
    requires PricedFor(u, p, create)
    ensures Unexplained(u, p) == create as real * WritePremium(p)
  {
    var q := p.modelRatio / QUOTA_PER_UNIT;
    var a, r, k, c := u.promptTokens as real, u.cachedTokens as real, create as real, u.completionTokens as real;
    Expand(q, a, r, k, c, p.cacheRatio, p.cacheCreationRatio, p.completionRatio);
  }

  lemma Expand(q: real, a: real, r: real, k: real, c: real, x: real, y: real, z: real)
    ensures q * (a - r - k + r * x + k * y + c * z) - a * q + r * (q - q * x) - c * (q * z) == k * (q * y - q)
  {
    var rx, ky, cz := r * x, k * y, c * z;
    assert q * (a - r - k + rx + ky + cz) == q * a - q * r - q * k + q * rx + q * ky + q * cz;
    assert r * (q - q * x) == r * q - q * rx;
    assert c * (q * z) == q * cz;
    assert k * (q * y - q) == q * ky - k * q;
  }

  lemma QuotientOfMultiple(k: int, d: real, n: real)
    requires d != 0.0 && n == k as real * d
    ensures n / d == k as real
  {
  }

  /** The inference recovers the number of cache writes that went into the cost. */
  lemma InferenceInvertsPrice(u: Usage, p: PriceData, create: int, nonNumber: int)
    requires p.modelRatio != 0.0 && p.cacheCreationRatio != 1.0
    requires PricedFor(u, p, create)
    ensures CalcOpenRouterCacheCreateTokens(u, p, nonNumber) == create
  {
    PremiumNonZero(p);
    UnexplainedIsPremium(u, p, create);
    QuotientOfMultiple(create, WritePremium(p), Unexplained(u, p));
  }

  lemma UnexplainedByNone(u: Usage, p: PriceData)
    ensures Unexplained(u, p) == CostValue(u.cost) - p.modelRatio / QUOTA_PER_UNIT * Units(u, p, 0)
  {
    var q := p.modelRatio / QUOTA_PER_UNIT;
    var a, r, c := u.promptTokens as real, u.cachedTokens as real, u.completionTokens as real;
    Expand(q, a, r, 0.0, c, p.cacheRatio, p.cacheCreationRatio, p.completionRatio);
    assert Units(u, p, 0) == a - r - 0.0 + r * p.cacheRatio + 0.0 * p.cacheCreationRatio + c * p.completionRatio;
  }

  lemma PriceOfWrites(u: Usage, p: PriceData, create: int)
    ensures p.modelRatio / QUOTA_PER_UNIT * Units(u, p, create) ==
            p.modelRatio / QUOTA_PER_UNIT * Units(u, p, 0) + create as real * WritePremium(p)
  {
    var q := p.modelRatio / QUOTA_PER_UNIT;
    assert Units(u, p, create) == Units(u, p, 0) + create as real * (p.cacheCreationRatio - 1.0);
    PremiumIsMultiple(q, p.cacheCreationRatio);
    MoveFactor(q, Units(u, p, 0), create as real, p.cacheCreationRatio - 1.0);
  }

  lemma MoveFactor(q: real, a: real, n: real, e: real)
    ensures q * (a + n * e) == q * a + n * (q * e)
  {
  }

  lemma QuotientTimes(n: real, d: real) returns (x: real)
    requires d != 0.0
    ensures x == n / d && x * d == n
  {
    x := n / d;
  }

  lemma Near(x: real, k: real, e: real, d: real)
    requires k - e <= x <= k + e && d > 0.0
    ensures k * d - e * d <= x * d <= k * d + e * d
  {
    TimesAtMost(k - e, x, d);
    TimesAtMost(x, k + e, d);
    TimesSum(k, e, d);
  }

  lemma TimesAtMost(a: real, b: real, d: real)
    requires a <= b && d > 0.0
    ensures a * d <= b * d
  {
  }

  lemma TimesSum(k: real, e: real, d: real)
    ensures (k + e) * d == k * d + e * d && (k - e) * d == k * d - e * d
  {
  }

  /** For any reported cost, the inferred count is the one whose price comes within half a write's premium of it. */
  lemma InferenceIsNearest(u: Usage, p: PriceData, nonNumber: int)
    requires p.modelRatio > 0.0 && p.cacheCreationRatio > 1.0
    ensures var inferred := CalcOpenRouterCacheCreateTokens(u, p, nonNumber);
            var price := p.modelRatio / QUOTA_PER_UNIT * Units(u, p, inferred);
            var half := 0.5 * WritePremium(p);
            half > 0.0 && price - half <= CostValue(u.cost) <= price + half
  {
    var d, k := WritePremium(p), CalcOpenRouterCacheCreateTokens(u, p, nonNumber);
    PremiumPositive(p);
    UnexplainedByNone(u, p);
    PriceOfWrites(u, p, k);
    NearestWrites(CostValue(u.cost), Unexplained(u, p), d, k as real, Unexplained(u, p) / d,
                  p.modelRatio / QUOTA_PER_UNIT * Units(u, p, 0), p.modelRatio / QUOTA_PER_UNIT * Units(u, p, k));
  }

  lemma NearestWrites(cost: real, unexplained: real, d: real, k: real, x: real, without: real, price: real)
    requires d > 0.0 && x == unexplained / d && k - 0.5 <= x <= k + 0.5
    requires unexplained == cost - without && price == without + k * d
    ensures price - 0.5 * d <= cost <= price + 0.5 * d
  {
    var y := QuotientTimes(unexplained, d);
    Near(x, k, 0.5, d);
    Within(cost, unexplained, k * d, 0.5 * d, without, price);
  }

  lemma PremiumPositive(p: PriceData)
    requires p.modelRatio > 0.0 && p.cacheCreationRatio > 1.0
    ensures WritePremium(p) > 0.0
  {
    var q := p.modelRatio / QUOTA_PER_UNIT;
    PremiumIsMultiple(q, p.cacheCreationRatio);
    PositiveProduct(q, p.cacheCreationRatio - 1.0);
  }

  lemma Within(cost: real, unexplained: real, writes: real, half: real, without: real, price: real)
    requires unexplained == cost - without && price == without + writes
    requires writes - half <= unexplained <= writes + half
    ensures price - half <= cost <= price + half
  {
  }

  lemma PositiveProduct(a: real, b: real)
    requires a > 0.0 && b > 0.0
    ensures a * b > 0.0
  {
  }

  // ---- the charge ----

  /** Prompt tokens charged plainly and cache writes charged at the write rate. */
  datatype Split = Split(promptTokens: int, creationTokens: int)

  method SplitPrompt(u: Usage, p: PriceData, openRouter: bool, customSettings: bool, nonNumber: int) returns (s: Split)
    ensures !openRouter ==> s == Split(u.promptTokens, u.cachedCreationTokens)
    ensures openRouter ==> s.promptTokens + s.creationTokens == u.promptTokens - u.cachedTokens
    ensures openRouter && u.cachedCreationTokens != 0 ==> s.creationTokens == u.cachedCreationTokens
    ensures openRouter && customSettings ==> s.creationTokens == u.cachedCreationTokens
    // Every accepted inference explains the reported cost and fits in the prompt.
    ensures forall create ::
              openRouter && !customSettings && u.cachedCreationTokens == 0 && p.cacheCreationRatio != 1.0
              && p.modelRatio != 0.0 && PricedFor(u, p, create) && 0 <= create <= u.promptTokens - u.cachedTokens
              ==> s.creationTokens == create
    // It is made for every cost but the integer zero, and accepted exactly if it fits.
    ensures var inferred := CalcOpenRouterCacheCreateTokens(u, p, nonNumber);
            openRouter ==>
              s.creationTokens == if !customSettings && u.cachedCreationTokens == 0 && p.cacheCreationRatio != 1.0
                                     && u.cost != Integer(0) && 0 <= inferred <= u.promptTokens - u.cachedTokens
                                  then inferred else u.cachedCreationTokens
  {
    var promptTokens, cacheCreationTokens := u.promptTokens, u.cachedCreationTokens;
    if openRouter {
      promptTokens := promptTokens - u.cachedTokens;
      if cacheCreationTokens == 0 && p.cacheCreationRatio != 1.0 && CostIsNotZero(u.cost) && !customSettings {
        forall create | p.modelRatio != 0.0 && PricedFor(u, p, create)
          ensures CalcOpenRouterCacheCreateTokens(u, p, nonNumber) == create
        {
          InferenceInvertsPrice(u, p, create, nonNumber);
        }
        var maybe := CalcOpenRouterCacheCreateTokens(u, p, nonNumber);
        if maybe >= 0 && promptTokens >= maybe {
          cacheCreationTokens := maybe;
        }
      }
      promptTokens := promptTokens - cacheCreationTokens;
    }
    s := Split(promptTokens, cacheCreationTokens);
  }

  function At(count: int, rate: real): real
  {
    count as real * rate
  }

  /** Everything a reply is charged for, in prompt-token equivalents. */
  function WeightedTokens(u: Usage, p: PriceData, s: Split): real
  {
    var remaining := s.creationTokens - u.creation5mTokens - u.creation1hTokens;
    s.promptTokens as real
    + At(u.cachedTokens, p.cacheRatio)
    + At(u.creation5mTokens, p.cacheCreation5mRatio)
    + At(u.creation1hTokens, p.cacheCreation1hRatio)
    + (if remaining > 0 then At(remaining, p.cacheCreationRatio) else 0.0)
    + At(u.completionTokens, p.completionRatio)
  }

  method AddUpTokens(u: Usage, p: PriceData, s: Split) returns (calculateQuota: real)
    ensures calculateQuota == WeightedTokens(u, p, s)
  {
    calculateQuota := s.promptTokens as real;
    calculateQuota := calculateQuota + At(u.cachedTokens, p.cacheRatio);
    calculateQuota := calculateQuota + At(u.creation5mTokens, p.cacheCreation5mRatio);
    calculateQuota := calculateQuota + At(u.creation1hTokens, p.cacheCreation1hRatio);
    var remaining := s.creationTokens - u.creation5mTokens - u.creation1hTokens;
    if remaining > 0 {
      calculateQuota := calculateQuota + At(remaining, p.cacheCreationRatio);
    }
    calculateQuota := calculateQuota + At(u.completionTokens, p.completionRatio);
  }

  /** The quota charged for a reply, given how its prompt divides. */
  method ChargedQuota(u: Usage, p: PriceData, s: Split) returns (quota: int)
    ensures quota == Charge(u, p, s)
    // Nothing for a reply without tokens; otherwise what the reply is worth, less any fraction, and one unit if that is
    // nothing although the model has a price.
    ensures s.promptTokens + u.completionTokens == 0 ==> quota == 0
    ensures s.promptTokens + u.completionTokens != 0 && RawCharge(u, p, s) > 0.0 ==>
              quota as real <= RawCharge(u, p, s) < quota as real + 1.0
    ensures s.promptTokens + u.completionTokens != 0 && RawCharge(u, p, s) <= 0.0 && p.modelRatio != 0.0 ==> quota == 1
  {
    var calculateQuota := 0.0;
    if !p.usePrice {
      calculateQuota := AddUpTokens(u, p, s);
      calculateQuota := calculateQuota * p.groupRatio * p.modelRatio;
    } else {
      calculateQuota := p.modelPrice * QUOTA_PER_UNIT * p.groupRatio;
    }
    if p.modelRatio != 0.0 && calculateQuota <= 0.0 {
      calculateQuota := 1.0;
    }
    quota := Truncate(calculateQuota);
    if s.promptTokens + u.completionTokens == 0 {
      quota := 0;
    }
  }

  /** Quota before the minimum, the truncation and the empty-reply rule. */
  function RawCharge(u: Usage, p: PriceData, s: Split): real
  {
    if p.usePrice then p.modelPrice * QUOTA_PER_UNIT * p.groupRatio
    else WeightedTokens(u, p, s) * p.groupRatio * p.modelRatio
  }

  function Charge(u: Usage, p: PriceData, s: Split): int
  {
    var raw := RawCharge(u, p, s);
    if s.promptTokens + u.completionTokens == 0 then 0
    else Truncate(if p.modelRatio != 0.0 && raw <= 0.0 then 1.0 else raw)
  }

  /** What one token more of each sort adds to the weight of a reply. */
  lemma OneMoreToken(u: Usage, p: PriceData, s: Split)
    ensures var weight, rest := WeightedTokens(u, p, s), s.creationTokens - u.creation5mTokens - u.creation1hTokens;
            && WeightedTokens(u, p, s.(promptTokens := s.promptTokens + 1)) == weight + 1.0
            && WeightedTokens(u.(cachedTokens := u.cachedTokens + 1), p, s) == weight + p.cacheRatio
            && WeightedTokens(u.(completionTokens := u.completionTokens + 1), p, s) == weight + p.completionRatio
            // Cache writes of either duration have their own rate and take the place of writes at the plain rate.
            && WeightedTokens(u.(creation5mTokens := u.creation5mTokens + 1), p, s) ==
               weight + p.cacheCreation5mRatio - (if rest > 0 then p.cacheCreationRatio else 0.0)
            && WeightedTokens(u.(creation1hTokens := u.creation1hTokens + 1), p, s) ==
               weight + p.cacheCreation1hRatio - (if rest > 0 then p.cacheCreationRatio else 0.0)
            && WeightedTokens(u, p, s.(creationTokens := s.creationTokens + 1)) ==
               weight + (if rest >= 0 then p.cacheCreationRatio else 0.0)
  {
    OneMoreAt(s.creationTokens - u.creation5mTokens - u.creation1hTokens, p.cacheCreationRatio);
    OneMoreAt(s.creationTokens - u.creation5mTokens - u.creation1hTokens - 1, p.cacheCreationRatio);
    OneMoreAt(u.cachedTokens, p.cacheRatio);
    OneMoreAt(u.completionTokens, p.completionRatio);
    OneMoreAt(u.creation5mTokens, p.cacheCreation5mRatio);
    OneMoreAt(u.creation1hTokens, p.cacheCreation1hRatio);
  }

  lemma OneMoreAt(n: int, rate: real)
    ensures At(n + 1, rate) == At(n, rate) + rate
    ensures n == 0 ==> At(n, rate) == 0.0
  {
  }

  /** Together with the previous lemma: what a reply is worth, by tokens or at a fixed price. */
  lemma WorthOfReply(u: Usage, p: PriceData, s: Split)
    ensures p.usePrice ==> RawCharge(u, p, s) == p.modelPrice * 500_000.0 * p.groupRatio
    ensures !p.usePrice ==> RawCharge(u, p, s) == WeightedTokens(u, p, s) * p.groupRatio * p.modelRatio
    ensures WeightedTokens(Usage(0, 0, 0, 0, 0, 0, u.cost), p, Split(0, 0)) == 0.0
  {
    OneMoreAt(0, p.cacheRatio);
    OneMoreAt(0, p.completionRatio);
    OneMoreAt(0, p.cacheCreation5mRatio);
    OneMoreAt(0, p.cacheCreation1hRatio);
  }

  /**
   The minimum charge does not reach every reply. For a model with a price, a reply with tokens comes free exactly when
   it is worth something but less than one unit; one worth nothing at all is charged a unit.
   */
  lemma FreeExactlyBelowOneUnit(u: Usage, p: PriceData, s: Split)
    requires p.modelRatio != 0.0 && s.promptTokens + u.completionTokens != 0
    ensures Charge(u, p, s) == 0 <==> 0.0 < RawCharge(u, p, s) < 1.0
    ensures Charge(u, p, s) >= 0
  {
    var raw := RawCharge(u, p, s);
    if raw > 0.0 {
      assert Charge(u, p, s) == Truncate(raw) == raw.Floor;
    }
  }

  /**
   On the inference path the user is charged the reported cost, scaled by the group ratio. A reply whose prompt was
   entirely read from or written to the cache and that completed nothing is charged nothing, whatever it cost.
   */
  lemma ChargeFollowsReportedCost(u: Usage, p: PriceData, create: int)
    requires !p.usePrice && p.modelRatio != 0.0
    requires u.creation5mTokens == 0 && u.creation1hTokens == 0
    requires create >= 0 && PricedFor(u, p, create)
    ensures var s := Split(u.promptTokens - u.cachedTokens - create, create);
            var billed := u.cost.value * QUOTA_PER_UNIT * p.groupRatio;
            && RawCharge(u, p, s) == billed
            && Charge(u, p, s) == if s.promptTokens + u.completionTokens == 0 then 0
                                  else if billed > 0.0 then billed.Floor else 1
  {
    var s := Split(u.promptTokens - u.cachedTokens - create, create);
    assert WeightedTokens(u, p, s) == Units(u, p, create);
    CancelUnit(p.modelRatio, Units(u, p, create), p.groupRatio);
  }

  lemma CancelUnit(m: real, units: real, g: real)
    ensures m / QUOTA_PER_UNIT * units * QUOTA_PER_UNIT * g == units * g * m
  {
    var q := m / QUOTA_PER_UNIT;
    assert q * QUOTA_PER_UNIT == m;
    assert q * units * QUOTA_PER_UNIT == m * units;
    assert m * units * g == units * g * m;
  }

  // ---- replies that report no cost ----

  /** What a reply without cache writes is worth in prompt tokens. */
  function Worth(u: Usage, p: PriceData): real
  {
    (u.promptTokens - u.cachedTokens) as real
    + u.cachedTokens as real * p.cacheRatio
    + u.completionTokens as real * p.completionRatio
  }

  /**
   The test for a non-zero cost lets a missing cost and a decoded cost of zero through, since only the integer zero is
   equal to it. Cache writes that were never reported are then inferred and accepted exactly if they are cheaper than
   prompt tokens and the reply is worth between half the discount and just over what all uncached tokens would save.
   */
  lemma ZeroCostInfersWriteExactly(u: Usage, p: PriceData, nonNumber: int)
    requires CostValue(u.cost) == 0.0 && p.modelRatio > 0.0 && p.cacheRatio >= 0.0 && p.completionRatio >= 0.0
    requires 0 <= u.cachedTokens <= u.promptTokens && u.completionTokens >= 0
    ensures var inferred := CalcOpenRouterCacheCreateTokens(u, p, nonNumber);
            var uncached := u.promptTokens - u.cachedTokens;
            var discount := 1.0 - p.cacheCreationRatio;
            0 < inferred <= uncached
            <==> discount > 0.0 && 0.5 * discount <= Worth(u, p) < (uncached as real + 0.5) * discount
  {
    var q, r := p.modelRatio / QUOTA_PER_UNIT, p.cacheCreationRatio;
    UnexplainedIsWorth(u, p);
    WorthNonNegative(u, p);
    PremiumIsMultiple(q, r);
    if r != 1.0 {
      PremiumNonZero(p);
      CancelFactor(q, Worth(u, p), r - 1.0, Unexplained(u, p), WritePremium(p));
      InferredFromWorth(Worth(u, p), 1.0 - r, Unexplained(u, p) / WritePremium(p), u.promptTokens - u.cachedTokens);
    }
  }

  lemma UnexplainedIsWorth(u: Usage, p: PriceData)
    requires CostValue(u.cost) == 0.0
    ensures Unexplained(u, p) == -(p.modelRatio / QUOTA_PER_UNIT * Worth(u, p))
  {
    var q := p.modelRatio / QUOTA_PER_UNIT;
    var a, r, c := u.promptTokens as real, u.cachedTokens as real, u.completionTokens as real;
    Expand(q, a, r, 0.0, c, p.cacheRatio, 0.0, p.completionRatio);
    assert Worth(u, p) == a - r - 0.0 + r * p.cacheRatio + 0.0 * 0.0 + c * p.completionRatio;
  }

  lemma WorthNonNegative(u: Usage, p: PriceData)
    requires p.cacheRatio >= 0.0 && p.completionRatio >= 0.0
    requires 0 <= u.cachedTokens <= u.promptTokens && u.completionTokens >= 0
    ensures Worth(u, p) >= 0.0
  {
    PositiveOrZero(u.cachedTokens as real, p.cacheRatio);
    PositiveOrZero(u.completionTokens as real, p.completionRatio);
  }

  lemma PositiveOrZero(a: real, b: real)
    requires a >= 0.0 && b >= 0.0
    ensures a * b >= 0.0
  {
  }

  /** The unit price cancels out of the inferred quotient. */
  lemma CancelFactor(q: real, worth: real, e: real, n: real, d: real)
    requires q > 0.0 && e != 0.0 && n == -(q * worth) && d == q * e && d != 0.0
    ensures n / d * -e == worth
  {
    var x := n / d;
    assert x * d == n;
    assert x * (q * e) == q * (x * e);
    assert q * (x * e) == q * -worth;
    CancelLeft(q, x * e, -worth);
  }

  lemma CancelLeft(q: real, a: real, b: real)
    requires q > 0.0 && q * a == q * b
    ensures a == b
  {
    if a < b {
      OrderedProduct(q, a, b);
    } else if b < a {
      OrderedProduct(q, b, a);
    }
  }

  lemma OrderedProduct(q: real, a: real, b: real)
    requires q > 0.0
    ensures a < b ==> q * a < q * b
    ensures a <= b ==> q * a <= q * b
  {
  }

  /** Rounding the quotient `x` of `worth` by `discount` gives a count within `limit`, in terms of the two. */
  lemma InferredFromWorth(worth: real, discount: real, x: real, limit: nat)
    requires worth >= 0.0 && discount != 0.0 && x * discount == worth
    ensures 0 < Round(x) <= limit <==> discount > 0.0 && 0.5 * discount <= worth < (limit as real + 0.5) * discount
  {
    if discount > 0.0 {
      var low, high := 0.5, limit as real + 0.5;
      Compare(x, 0.0, discount);
      Compare(x, low, discount);
      Compare(x, high, discount);
      RoundWithin(x, limit);
      assert x < low <==> worth < low * discount;
      assert x < high <==> worth < high * discount;
    } else {
      NegativeQuotient(x, discount);
      assert Round(x) <= 0;
    }
  }

  lemma RoundWithin(x: real, limit: nat)
    requires x >= 0.0
    ensures 0 < Round(x) <= limit <==> 0.5 <= x < limit as real + 0.5
  {
  }

  lemma Compare(x: real, y: real, d: real)
    requires d > 0.0
    ensures x < y <==> x * d < y * d
  {
    OrderedProduct(d, x, y);
    OrderedProduct(d, y, x);
  }

  lemma NegativeQuotient(x: real, d: real)
    requires d < 0.0 && x * d >= 0.0
    ensures x <= 0.0
  {
  }
}
