/** The TWAP planner and the request validators it relies on. */
module TwapSlicer {
  import opened Base
  import opened OrderIds

  datatype PlanRequest = PlanRequest(
    symbol: string, side: Side, qty: int, durationMinutes: int, orderType: OrderType,
    intervalSeconds: int, maxSliceQty: Option<int>,
    limitPrice: Option<Price>, stopPrice: Option<Price>, timeInForce: TimeInForce, tradeDate: Option<Date>)

  datatype SliceDetail = SliceDetail(sliceNum: nat, qty: nat, scheduledTime: int, clientOrderId: string,
                                     strategyId: string)

  datatype SlicingPlan = SlicingPlan(
    parentId: string, totalQty: int, totalSlices: nat, durationMinutes: int, intervalSeconds: int,
    slices: seq<SliceDetail>)

  datatype PlanError =
    | QtyTooSmall | DurationTooShort | IntervalTooShort | MaxSliceQtyTooSmall
    | TooManySlicesForDuration | FewerSharesThanSlices | LimitPriceMissing | StopPriceMissing

  /** math.ceil(a / b) */
  function CeilDiv(a: nat, b: nat): nat
    requires b > 0
  {
    (a + b - 1) / b
  }

  predicate InRange(r: PlanRequest) {
    r.qty >= 1 && r.durationMinutes >= 1 && r.intervalSeconds >= 1 && (r.maxSliceQty.Some? ==> r.maxSliceQty.value >= 1)
  }

  function BaseSlices(r: PlanRequest): nat
    requires InRange(r)
  {
    CeilDiv(r.durationMinutes * 60, r.intervalSeconds)
  }

  function SliceCount(r: PlanRequest): nat
    requires InRange(r)
  {
    if r.maxSliceQty.None? || CeilDiv(r.qty, r.maxSliceQty.value) <= BaseSlices(r)
    then BaseSlices(r) else CeilDiv(r.qty, r.maxSliceQty.value)
  }

  function EffectiveInterval(r: PlanRequest): nat
    requires InRange(r)
  {
    if SliceCount(r) > BaseSlices(r) && SliceCount(r) > 1 then r.durationMinutes * 60 / (SliceCount(r) - 1)
    else r.intervalSeconds
  }

  /** Why a request is refused, in the order the planner checks. */
  function PlanFailure(r: PlanRequest): Option<PlanError> {
    if r.qty < 1 then Some(QtyTooSmall)
    else if r.durationMinutes < 1 then Some(DurationTooShort)
    else if r.intervalSeconds < 1 then Some(IntervalTooShort)
    else if r.maxSliceQty.Some? && r.maxSliceQty.value < 1 then Some(MaxSliceQtyTooSmall)
    else if SliceCount(r) > BaseSlices(r) && SliceCount(r) - 1 > r.durationMinutes * 60 then
      Some(TooManySlicesForDuration)
    else if r.qty < SliceCount(r) then Some(FewerSharesThanSlices)
    else if r.orderType in {Limit, StopLimit} && r.limitPrice.None? then Some(LimitPriceMissing)
    else if r.orderType in {Stop, StopLimit} && r.stopPrice.None? then Some(StopPriceMissing)
    else None
  }

  /** random.sample(range(n), k): k distinct indices below n, any of them. */
  ghost predicate IsSample(sample: seq<nat>, n: nat, k: nat) {
    && |sample| == k
    && (forall i :: 0 <= i < k ==> sample[i] < n)
    && (forall i, j :: 0 <= i < j < k ==> sample[i] != sample[j])
  }

  function Sum(qtys: seq<nat>): nat
    decreases |qtys|
  {
    if qtys == [] then 0 else Sum(qtys[..|qtys| - 1]) + qtys[|qtys| - 1]
  }

  lemma {:induction false} SumOfUpdate(qtys: seq<nat>, i: nat, x: nat)
    requires i < |qtys|
    ensures Sum(qtys[i := x]) == Sum(qtys) - qtys[i] + x
    decreases |qtys|
  {
    var n := |qtys| - 1;
    if i < n {
      assert qtys[i := x][..n] == qtys[..n][i := x];
      SumOfUpdate(qtys[..n], i, x);
    } else {
      assert qtys[i := x][..n] == qtys[..n];
    }
  }

  lemma {:induction false} SumOfEqual(qtys: seq<nat>, x: nat)
    requires forall i :: 0 <= i < |qtys| ==> qtys[i] == x
    ensures Sum(qtys) == |qtys| * x
    decreases |qtys|
  {
    if qtys != [] {
      SumOfEqual(qtys[..|qtys| - 1], x);
    }
  }

  function EvenShare(qty: nat, n: nat): nat
    requires n > 0
  {
    qty / n
  }

  function Remainder(qty: nat, n: nat): nat
    requires n > 0
    ensures Remainder(qty, n) < n
  {
    qty % n
  }

  /** Share i when every part is `base` and the sampled ones get one share more. */
  function ShareOf(base: nat, sample: seq<nat>, i: nat): nat {
    base + if i in sample then 1 else 0
  }

  lemma NextShare(base: nat, sample: seq<nat>, k: nat, i: nat)
    requires k < |sample| && sample[k] !in sample[..k]
    ensures ShareOf(base, sample[..k + 1], i) == ShareOf(base, sample[..k], i) + if i == sample[k] then 1 else 0
  {
    assert sample[..k + 1] == sample[..k] + [sample[k]];
  }

  method DistributeQty(base: nat, remainder: nat, n: nat, sample: seq<nat>) returns (qtys: seq<nat>)
    requires IsSample(sample, n, remainder)
    ensures |qtys| == n && Sum(qtys) == n * base + remainder
    ensures forall i :: 0 <= i < n ==> qtys[i] == ShareOf(base, sample, i)
  {
    var parts := new nat[n](_ => base);
    SumOfEqual(parts[..], base);
    ghost var total := n * base;
    assert forall i :: 0 <= i < n ==> parts[i] == ShareOf(base, sample[..0], i);
    hide Sum, ShareOf;
    for k := 0 to |sample|
      invariant forall i :: 0 <= i < n ==> parts[i] == ShareOf(base, sample[..k], i)
      invariant Sum(parts[..]) == total + k
    {
      var idx := sample[k];
      ghost var before := parts[..];
      SumOfUpdate(before, idx, before[idx] + 1);
      parts[idx] := parts[idx] + 1;
      assert parts[..] == before[idx := before[idx] + 1];
      forall i | 0 <= i < n ensures parts[i] == ShareOf(base, sample[..k + 1], i) {
        NextShare(base, sample, k, i);
      }
    }
    assert sample[..|sample|] == sample;
    qtys := parts[..];
  }

  function ParentStrategy(durationMinutes: nat, intervalSeconds: nat): string {
    "twap_parent_" + Digits(durationMinutes) + "m_" + Digits(intervalSeconds) + "s"
  }

  function SliceStrategy(parentId: string, i: nat): string {
    "twap_slice_" + parentId + "_" + Digits(i)
  }

  /** The trading day of the ids: the requested one, or the day the plan is made. */
  function OrderDay(r: PlanRequest, today: Date): Date {
    if r.tradeDate.Some? then r.tradeDate.value else today
  }

  function ParamsOf(r: PlanRequest, day: Date, qty: nat, strategyId: string): OrderParams {
    OrderParams(r.symbol, r.side, qty, r.limitPrice, r.stopPrice, r.orderType, r.timeInForce, strategyId, day)
  }

  /** The text the random generator is seeded from; a day that was not requested is not part of it. */
  function SeedText(r: PlanRequest, intervalSeconds: nat): string
    requires r.qty >= 0 && r.durationMinutes >= 0
  {
    r.symbol + "_" + SideText(r.side) + "_" + Digits(r.qty) + "_" + Digits(r.durationMinutes) + "_" +
      Digits(intervalSeconds)
    + if r.tradeDate.Some? then "_" + IsoFormat(r.tradeDate.value) else ""
  }

  ghost predicate IsDigest(digest: string -> string) {
    forall text :: |digest(text)| >= ORDER_ID_MAX_LENGTH
  }

  function OrderId(p: OrderParams, digest: string -> string): string
    requires IsDigest(digest)
  {
    ReconstructOrderParamsHash(p, digest)
  }

  function SliceOf(r: PlanRequest, day: Date, parentId: string, now: int, interval: int, i: nat, qty: nat,
                   digest: string -> string)
    : SliceDetail
    requires IsDigest(digest)
  {
    var strategyId := SliceStrategy(parentId, i);
    SliceDetail(i, qty, now + i * interval,
                OrderId(ParamsOf(r, day, qty, strategyId), digest), strategyId)
  }

  /** `sample` stands for sample(range(n), k) of a generator seeded from a text, `digest` for SHA-256. */
  ghost predicate IsSampler(sample: (string, nat, nat) -> seq<nat>) {
    forall seed, n, k :: k <= n ==> IsSample(sample(seed, n, k), n, k)
  }

  class TWAPSlicer {
    constructor () {
    }

    method Plan(r: PlanRequest, now: int, today: Date, sample: (string, nat, nat) -> seq<nat>, digest: string -> string)
      returns (plan: Result<SlicingPlan, PlanError>)
      requires IsSampler(sample) && IsDigest(digest)
      ensures plan.Err? <==> PlanFailure(r).Some?
      ensures plan.Err? ==> plan.error == PlanFailure(r).value
      ensures plan.Ok? ==> |plan.value.slices| == SliceCount(r) && plan.value.intervalSeconds == EffectiveInterval(r)
      ensures plan.Ok? ==> GoodPlan(r, now, plan.value)
      ensures plan.Ok? ==>
              SampledQuantities(r, sample, plan.value) && HashedIds(r, OrderDay(r, today), digest, plan.value)
    {
      hide CeilDiv, IsSample, GoodPlan, SampledQuantities, HashedIds, ParamsOf, ShareOf, EvenShare, Remainder,
           SliceStrategy, ParentStrategy, OrderId, SeedText, Sum;
      if r.qty < 1 { return Err(QtyTooSmall); }
      if r.durationMinutes < 1 { return Err(DurationTooShort); }
      if r.intervalSeconds < 1 { return Err(IntervalTooShort); }
      var total: nat := r.durationMinutes * 60;
      var numSlices := CeilDiv(total, r.intervalSeconds);
      var baseSlices := numSlices;
      var interval := r.intervalSeconds;
      if r.maxSliceQty.Some? {
        if r.maxSliceQty.value < 1 { return Err(MaxSliceQtyTooSmall); }
        var liquiditySlices := CeilDiv(r.qty, r.maxSliceQty.value);
        if liquiditySlices > numSlices {
          numSlices := liquiditySlices;
        }
      }
      CeilDivBound(total, r.intervalSeconds, 0);
      if r.maxSliceQty.Some? && numSlices > baseSlices {
        if numSlices != 1 {
          var maxInterval := total / (numSlices - 1);
          QuotientBound(total, numSlices - 1, 1);
          if maxInterval < 1 { return Err(TooManySlicesForDuration); }
          interval := maxInterval;
        }
      }
      if r.qty < numSlices { return Err(FewerSharesThanSlices); }
      if r.orderType in {Limit, StopLimit} && r.limitPrice.None? { return Err(LimitPriceMissing); }
      if r.orderType in {Stop, StopLimit} && r.stopPrice.None? { return Err(StopPriceMissing); }
      EuclidOf(r.qty, numSlices);
      var chosen := sample(SeedText(r, interval), numSlices, Remainder(r.qty, numSlices));
      var qtys := DistributeQty(EvenShare(r.qty, numSlices), Remainder(r.qty, numSlices), numSlices, chosen);
      var day := OrderDay(r, today);
      var parentId := OrderId(ParamsOf(r, day, r.qty, ParentStrategy(r.durationMinutes, interval)), digest);
      var slices: seq<SliceDetail> := [];
      for i := 0 to numSlices
        invariant |slices| == i
        invariant forall j :: 0 <= j < i ==> slices[j] == SliceOf(r, day, parentId, now, interval, j, qtys[j], digest)
      {
        slices := slices + [SliceOf(r, day, parentId, now, interval, i, qtys[i], digest)];
      }
      plan := Ok(SlicingPlan(parentId, r.qty, numSlices, r.durationMinutes, interval, slices));
      PlanIsGood(r, day, now, plan.value, qtys, chosen, digest);
      PlanIsOfTheRequest(r, day, now, plan.value, qtys, sample, digest);
    }
  }

  // ---------------------------------------------------------------------------
  // Ceilings
  // ---------------------------------------------------------------------------

  /** The ceiling is the least n with n * b >= a. */
  lemma CeilDivBound(a: nat, b: nat, n: nat)
    requires b > 0
    ensures n >= CeilDiv(a, b) <==> n * b >= a
  {
    var c := CeilDiv(a, b);
    assert c * b <= a + b - 1 < c * b + b;
    if n >= c {
      assert n * b >= c * b;
    } else {
      assert (n + 1) * b <= c * b;
    }
  }

  /** The floor is the greatest q with q * b <= a. */
  lemma QuotientBound(a: nat, b: nat, q: nat)
    requires b > 0
    ensures q <= a / b <==> q * b <= a
  {
    var d := a / b;
    assert d * b <= a < d * b + b;
    if q <= d {
      assert q * b <= d * b;
    } else {
      assert q * b >= (d + 1) * b;
    }
  }

  /** n slices are enough for the requested spacing, and none exceeds the liquidity cap. */
  predicate Fits(r: PlanRequest, n: nat)
    requires InRange(r) && n > 0
  {
    && n * r.intervalSeconds >= r.durationMinutes * 60
    && (r.maxSliceQty.Some? ==> CeilDiv(r.qty, n) <= r.maxSliceQty.value)
  }

  /** The slice count is the least that fits. */
  lemma SliceCountIsLeast(r: PlanRequest, n: nat)
    requires InRange(r) && n > 0
    ensures Fits(r, n) <==> n >= SliceCount(r)
  {
    hide CeilDiv;
    CeilDivBound(r.durationMinutes * 60, r.intervalSeconds, n);
    if r.maxSliceQty.Some? {
      var cap := r.maxSliceQty.value;
      CeilDivBound(r.qty, n, cap);
      CeilDivBound(r.qty, cap, n);
      assert n * cap == cap * n;
    }
  }

  /** A request with its prices is refused only when no number of slices will do. */
  lemma RefusedOnlyWhenNothingFits(r: PlanRequest)
    requires InRange(r)
    requires r.orderType in {Limit, StopLimit} ==> r.limitPrice.Some?
    requires r.orderType in {Stop, StopLimit} ==> r.stopPrice.Some?
    ensures PlanFailure(r).None? <==>
      exists n: nat :: 0 < n <= r.qty && Fits(r, n) && n - 1 <= r.durationMinutes * 60
  {
    hide CeilDiv, Fits;
    var total := r.durationMinutes * 60;
    CeilDivBound(total, r.intervalSeconds, 0);
    CeilDivBound(total, r.intervalSeconds, total);
    Monotone(1, r.intervalSeconds, total);
    Commute(total, r.intervalSeconds);
    var n := SliceCount(r);
    SliceCountIsLeast(r, n);
    forall m: nat | 0 < m && Fits(r, m)
      ensures m >= n
    {
      SliceCountIsLeast(r, m);
    }
  }

  /** Some number of slices meets spacing and cap at no less than a second a gap. */
  ghost predicate SomeCountFits(r: PlanRequest, most: int)
    requires InRange(r)
  {
    exists n: nat :: 0 < n <= most && Fits(r, n) && n - 1 <= r.durationMinutes * 60
  }

  predicate NeedsLimitPrice(r: PlanRequest) {
    r.orderType in {Limit, StopLimit} && r.limitPrice.None?
  }

  predicate NeedsStopPrice(r: PlanRequest) {
    r.orderType in {Stop, StopLimit} && r.stopPrice.None?
  }

  /** Which error a request is refused with: a number out of range, in the order of the arguments; no number
      of slices that the duration has room for; none that the shares suffice for; or a missing price. */
  lemma FailuresIff(r: PlanRequest)
    ensures PlanFailure(r) == Some(QtyTooSmall) <==> r.qty < 1
    ensures PlanFailure(r) == Some(DurationTooShort) <==> r.qty >= 1 && r.durationMinutes < 1
    ensures PlanFailure(r) == Some(IntervalTooShort) <==>
            r.qty >= 1 && r.durationMinutes >= 1 && r.intervalSeconds < 1
    ensures PlanFailure(r) == Some(MaxSliceQtyTooSmall) <==>
            r.qty >= 1 && r.durationMinutes >= 1 && r.intervalSeconds >= 1 &&
            r.maxSliceQty.Some? && r.maxSliceQty.value < 1
    ensures PlanFailure(r) == Some(TooManySlicesForDuration) <==> InRange(r) && !SomeCountFits(r, SliceCount(r))
    ensures PlanFailure(r) == Some(FewerSharesThanSlices) <==>
            InRange(r) && SomeCountFits(r, SliceCount(r)) && !SomeCountFits(r, r.qty)
    ensures PlanFailure(r) == Some(LimitPriceMissing) <==>
            InRange(r) && SomeCountFits(r, r.qty) && NeedsLimitPrice(r)
    ensures PlanFailure(r) == Some(StopPriceMissing) <==>
            InRange(r) && SomeCountFits(r, r.qty) && !NeedsLimitPrice(r) && NeedsStopPrice(r)
  {
    hide CeilDiv, Fits, SomeCountFits;
    if InRange(r) {
      CountsThatFit(r, r.qty);
      CountsThatFit(r, SliceCount(r));
    }
  }

  lemma CountsThatFit(r: PlanRequest, most: nat)
    requires InRange(r)
    ensures SomeCountFits(r, most) <==> SliceCount(r) <= most && SliceCount(r) - 1 <= r.durationMinutes * 60
    ensures SliceCount(r) <= BaseSlices(r) ==> SliceCount(r) - 1 <= r.durationMinutes * 60
  {
    hide CeilDiv, Fits, BaseSlices, SliceCount;
    CountIsPositive(r);
    BaseFitsTheDuration(r);
    SliceCountIsLeast(r, SliceCount(r));
    forall m: nat | 0 < m && Fits(r, m) ensures m >= SliceCount(r) {
      SliceCountIsLeast(r, m);
    }
  }

  lemma BaseFitsTheDuration(r: PlanRequest)
    requires InRange(r)
    ensures BaseSlices(r) <= r.durationMinutes * 60
  {
    hide CeilDiv;
    var total: nat := r.durationMinutes * 60;
    CeilDivBound(total, r.intervalSeconds, total);
    Monotone(1, r.intervalSeconds, total);
    Commute(total, r.intervalSeconds);
  }

  // ---------------------------------------------------------------------------
  // What the planner promises
  // ---------------------------------------------------------------------------

  function Quantities(slices: seq<SliceDetail>): seq<nat> {
    seq(|slices|, i requires 0 <= i < |slices| => slices[i].qty)
  }

  ghost predicate GoodQuantities(r: PlanRequest, plan: SlicingPlan) {
    && plan.totalQty == r.qty == Sum(Quantities(plan.slices))
    && (forall s <- plan.slices :: 1 <= s.qty && (r.maxSliceQty.Some? ==> s.qty <= r.maxSliceQty.value))
    && (forall s <- plan.slices, t <- plan.slices :: s.qty <= t.qty + 1)
  }

  ghost predicate GoodSchedule(r: PlanRequest, now: int, plan: SlicingPlan) {
    && (forall i, j :: 0 <= i < j < |plan.slices| ==> plan.slices[i].scheduledTime < plan.slices[j].scheduledTime)
    && (forall i :: 0 < i < |plan.slices| ==>
          plan.slices[i].scheduledTime == plan.slices[i - 1].scheduledTime + plan.intervalSeconds)
    && (plan.slices != [] ==> plan.slices[0].scheduledTime == now)
    && (forall s <- plan.slices :: now <= s.scheduledTime <= now + r.durationMinutes * 60)
  }

  /** The requested spacing is kept while it yields enough slices; otherwise it shrinks no more
      than the duration forces. */
  ghost predicate GoodInterval(r: PlanRequest, plan: SlicingPlan) {
    var n := |plan.slices|;
    && 1 <= plan.intervalSeconds <= r.intervalSeconds
    && ((n - 1) * r.intervalSeconds < r.durationMinutes * 60 ==> plan.intervalSeconds == r.intervalSeconds)
    && ((n - 1) * r.intervalSeconds >= r.durationMinutes * 60 ==>
          (n - 1) * (plan.intervalSeconds + 1) > r.durationMinutes * 60)
  }

  ghost predicate GoodPlan(r: PlanRequest, now: int, plan: SlicingPlan) {
    && InRange(r)
    && plan.totalSlices == |plan.slices| > 0
    && plan.durationMinutes == r.durationMinutes
    && (forall n :: 0 < n ==> (Fits(r, n) <==> n >= |plan.slices|))
    && (forall i :: 0 <= i < |plan.slices| ==> plan.slices[i].sliceNum == i)
    && GoodQuantities(r, plan)
    && GoodInterval(r, plan)
    && GoodSchedule(r, now, plan)
  }

  ghost predicate SampledQuantities(r: PlanRequest, sample: (string, nat, nat) -> seq<nat>, plan: SlicingPlan) {
    var n := |plan.slices|;
    n > 0 && r.qty > 0 && r.durationMinutes > 0 && plan.intervalSeconds > 0 &&
    forall i :: 0 <= i < n ==>
      plan.slices[i].qty == ShareOf(EvenShare(r.qty, n),
        sample(SeedText(r, plan.intervalSeconds), n, Remainder(r.qty, n)), i)
  }

  ghost predicate HashedIds(r: PlanRequest, day: Date, digest: string -> string, plan: SlicingPlan)
    requires IsDigest(digest)
  {
    && r.qty > 0 && r.durationMinutes > 0 && plan.intervalSeconds > 0
    && plan.parentId ==
       OrderId(ParamsOf(r, day, r.qty, ParentStrategy(r.durationMinutes, plan.intervalSeconds)), digest)
    && (forall i :: 0 <= i < |plan.slices| ==>
          && plan.slices[i].strategyId == SliceStrategy(plan.parentId, i)
          && plan.slices[i].clientOrderId ==
             OrderId(ParamsOf(r, day, plan.slices[i].qty, plan.slices[i].strategyId), digest))
  }

  lemma CountIsPositive(r: PlanRequest)
    requires InRange(r)
    ensures SliceCount(r) >= BaseSlices(r) > 0
  {
    hide CeilDiv;
    CeilDivBound(r.durationMinutes * 60, r.intervalSeconds, 0);
  }

  lemma IntervalIsGood(r: PlanRequest)
    requires InRange(r) && PlanFailure(r).None?
    ensures 1 <= EffectiveInterval(r) <= r.intervalSeconds
    ensures (SliceCount(r) - 1) * EffectiveInterval(r) <= r.durationMinutes * 60
    ensures var gaps := SliceCount(r) - 1; var total := r.durationMinutes * 60;
      && (gaps * r.intervalSeconds < total ==> EffectiveInterval(r) == r.intervalSeconds)
      && (gaps * r.intervalSeconds >= total ==> gaps * (EffectiveInterval(r) + 1) > total)
  {
    hide CeilDiv;
    CountIsPositive(r);
    var gaps, total: nat := SliceCount(r) - 1, r.durationMinutes * 60;
    CeilDivBound(total, r.intervalSeconds, gaps);
    if SliceCount(r) > BaseSlices(r) {
      QuotientBound(total, gaps, EffectiveInterval(r));
      QuotientBound(total, gaps, EffectiveInterval(r) + 1);
      QuotientBound(total, gaps, 1);
      QuotientBound(total, gaps, r.intervalSeconds + 1);
      Commute(gaps, EffectiveInterval(r));
      Commute(gaps, EffectiveInterval(r) + 1);
      assert (r.intervalSeconds + 1) * gaps == gaps * r.intervalSeconds + gaps;
    }
  }

  lemma Commute(a: int, b: int)
    ensures a * b == b * a
  {
  }

  lemma Monotone(a: int, b: int, c: nat)
    requires a <= b
    ensures a * c <= b * c
  {
  }

  lemma SharesAreGood(r: PlanRequest, sample: seq<nat>, i: nat)
    requires InRange(r) && PlanFailure(r).None? && SliceCount(r) > 0
    requires IsSample(sample, SliceCount(r), Remainder(r.qty, SliceCount(r)))
    ensures 1 <= ShareOf(EvenShare(r.qty, SliceCount(r)), sample, i)
    ensures r.maxSliceQty.Some? ==> ShareOf(EvenShare(r.qty, SliceCount(r)), sample, i) <= r.maxSliceQty.value
  {
    hide Fits, SliceCount;
    var n := SliceCount(r);
    SliceCountIsLeast(r, n);
    QuotientBound(r.qty, n, 1);
    if r.maxSliceQty.Some? {
      FitsCap(r, n);
      SharesUnderCap(r.qty, n, r.maxSliceQty.value);
    }
  }

  lemma EuclidOf(qty: nat, n: nat)
    requires n > 0
    ensures n * EvenShare(qty, n) + Remainder(qty, n) == qty
  {
  }

  lemma SharesUnderCap(qty: nat, n: nat, cap: nat)
    requires n > 0 && cap * n >= qty
    ensures qty / n <= cap && (qty % n > 0 ==> qty / n < cap)
  {
  }

  lemma FitsCap(r: PlanRequest, n: nat)
    requires InRange(r) && n > 0 && Fits(r, n) && r.maxSliceQty.Some?
    ensures r.maxSliceQty.value * n >= r.qty
  {
    hide CeilDiv;
    CeilDivBound(r.qty, n, r.maxSliceQty.value);
  }

  lemma TimesAreGood(r: PlanRequest, now: int, interval: nat, n: nat, i: nat, j: nat)
    requires 0 < interval && i < j < n && (n - 1) * interval <= r.durationMinutes * 60
    ensures i * interval + interval <= j * interval <= r.durationMinutes * 60
  {
    Monotone(i + 1, j, interval);
    Monotone(j, n - 1, interval);
    assert (i + 1) * interval == i * interval + interval;
  }

  lemma PlanIsGood(r: PlanRequest, day: Date, now: int, plan: SlicingPlan, qtys: seq<nat>, sample: seq<nat>,
                   digest: string -> string)
    requires InRange(r) && PlanFailure(r).None? && SliceCount(r) > 0 && IsDigest(digest)
    requires IsSample(sample, SliceCount(r), Remainder(r.qty, SliceCount(r)))
    requires |qtys| == |plan.slices| == plan.totalSlices == SliceCount(r)
    requires Sum(qtys) == r.qty == plan.totalQty && plan.durationMinutes == r.durationMinutes
    requires plan.intervalSeconds == EffectiveInterval(r)
    requires forall i :: 0 <= i < |qtys| ==> qtys[i] == ShareOf(EvenShare(r.qty, |qtys|), sample, i)
    requires forall i :: 0 <= i < |qtys| ==>
      plan.slices[i] == SliceOf(r, day, plan.parentId, now, plan.intervalSeconds, i, qtys[i], digest)
    ensures GoodPlan(r, now, plan)
  {
    hide Fits, SliceCount, EffectiveInterval, PlanFailure, OrderId, SliceStrategy, Sum, EvenShare, Remainder, IsSample,
      GoodQuantities, GoodSchedule;
    IntervalIsGood(r);
    forall n: nat | 0 < n
      ensures Fits(r, n) <==> n >= |plan.slices|
    {
      SliceCountIsLeast(r, n);
    }
    QuantitiesAreGood(r, plan, qtys, sample);
    ScheduleIsGood(r, now, plan);
  }

  lemma QuantitiesAreGood(r: PlanRequest, plan: SlicingPlan, qtys: seq<nat>, sample: seq<nat>)
    requires InRange(r) && PlanFailure(r).None? && SliceCount(r) > 0
    requires IsSample(sample, SliceCount(r), Remainder(r.qty, SliceCount(r)))
    requires |qtys| == |plan.slices| == SliceCount(r) && Sum(qtys) == r.qty == plan.totalQty
    requires forall i :: 0 <= i < |qtys| ==>
               qtys[i] == plan.slices[i].qty == ShareOf(EvenShare(r.qty, |qtys|), sample, i)
    ensures GoodQuantities(r, plan)
  {
    hide SliceCount, PlanFailure, EvenShare, Remainder, IsSample, Sum;
    assert Quantities(plan.slices) == qtys;
    forall i | 0 <= i < |qtys|
      ensures 1 <= qtys[i] && (r.maxSliceQty.Some? ==> qtys[i] <= r.maxSliceQty.value)
    {
      SharesAreGood(r, sample, i);
    }
  }

  lemma PlanIsOfTheRequest(r: PlanRequest, day: Date, now: int, plan: SlicingPlan, qtys: seq<nat>,
                           sample: (string, nat, nat) -> seq<nat>, digest: string -> string)
    requires IsDigest(digest) && |qtys| == |plan.slices| > 0
    requires r.qty > 0 && r.durationMinutes > 0 && plan.intervalSeconds > 0
    requires plan.parentId ==
             OrderId(ParamsOf(r, day, r.qty, ParentStrategy(r.durationMinutes, plan.intervalSeconds)), digest)
    requires forall i :: 0 <= i < |qtys| ==>
      qtys[i] == ShareOf(EvenShare(r.qty, |qtys|),
        sample(SeedText(r, plan.intervalSeconds), |qtys|, Remainder(r.qty, |qtys|)), i)
    requires forall i :: 0 <= i < |qtys| ==>
      plan.slices[i] == SliceOf(r, day, plan.parentId, now, plan.intervalSeconds, i, qtys[i], digest)
    ensures SampledQuantities(r, sample, plan) && HashedIds(r, day, digest, plan)
  {
    hide OrderId, ShareOf, ParentStrategy, SliceStrategy, EvenShare, Remainder, SeedText;
  }

  lemma ScheduleIsGood(r: PlanRequest, now: int, plan: SlicingPlan)
    requires r.durationMinutes > 0 && 0 < plan.intervalSeconds && |plan.slices| > 0
    requires (|plan.slices| - 1) * plan.intervalSeconds <= r.durationMinutes * 60
    requires forall i :: 0 <= i < |plan.slices| ==> plan.slices[i].scheduledTime == now + i * plan.intervalSeconds
    ensures GoodSchedule(r, now, plan)
  {
    forall i, j | 0 <= i < j < |plan.slices|
      ensures plan.slices[i].scheduledTime + plan.intervalSeconds <= plan.slices[j].scheduledTime
      ensures plan.slices[j].scheduledTime <= now + r.durationMinutes * 60
    {
      TimesAreGood(r, now, plan.intervalSeconds, |plan.slices|, i, j);
    }
    forall i | 0 < i < |plan.slices|
      ensures plan.slices[i].scheduledTime == plan.slices[i - 1].scheduledTime + plan.intervalSeconds
    {
      assert i * plan.intervalSeconds == (i - 1) * plan.intervalSeconds + plan.intervalSeconds;
    }
    forall s <- plan.slices
      ensures now <= s.scheduledTime <= now + r.durationMinutes * 60
    {
      var i :| 0 <= i < |plan.slices| && plan.slices[i] == s;
      if i > 0 {
        assert plan.slices[0].scheduledTime + plan.intervalSeconds <= plan.slices[i].scheduledTime;
      }
    }
  }

  // ---------------------------------------------------------------------------
  // Ids
  // ---------------------------------------------------------------------------

  function ParentText(r: PlanRequest, day: Date, intervalSeconds: nat): string
    requires r.qty > 0 && r.durationMinutes > 0
  {
    RawText(ParamsOf(r, day, r.qty, ParentStrategy(r.durationMinutes, intervalSeconds)))
  }

  function SliceText(r: PlanRequest, day: Date, plan: SlicingPlan, i: nat): string
    requires i < |plan.slices|
  {
    RawText(ParamsOf(r, day, plan.slices[i].qty, SliceStrategy(plan.parentId, i)))
  }

  /** Whether a day is named, and which, is part of the seed; the day the plan is made is not. */
  lemma SeedNamesTheDayIff(r: PlanRequest, day: Option<Date>, interval: nat)
    requires r.qty >= 0 && r.durationMinutes >= 0
    ensures SeedText(r, interval) == SeedText(r.(tradeDate := day), interval) <==> r.tradeDate == day
  {
    hide IsoFormat, Digits;
    var base := SeedText(r.(tradeDate := None), interval);
    assert r.tradeDate.Some? ==> SeedText(r, interval) == base + ("_" + IsoFormat(r.tradeDate.value));
    assert day.Some? ==> SeedText(r.(tradeDate := day), interval) == base + ("_" + IsoFormat(day.value));
    if r.tradeDate.Some? && day.Some? && SeedText(r, interval) == SeedText(r.(tradeDate := day), interval) {
      var n := |base|;
      assert IsoFormat(r.tradeDate.value) == SeedText(r, interval)[n + 1..] == IsoFormat(day.value);
      DateReadsBack(r.tradeDate.value, day.value);
    }
  }

  lemma SliceStrategyReadsBack(parentId: string, i: nat, j: nat)
    requires SliceStrategy(parentId, i) == SliceStrategy(parentId, j)
    ensures i == j
  {
    hide Digits, Value;
    var prefix := "twap_slice_" + parentId + "_";
    assert SliceStrategy(parentId, i) == prefix + Digits(i) && SliceStrategy(parentId, j) == prefix + Digits(j);
    assert Digits(i) == (prefix + Digits(i))[|prefix|..] == (prefix + Digits(j))[|prefix|..] == Digits(j);
    DigitsReadBack(i);
    DigitsReadBack(j);
  }

  /** No two orders of a plan are hashed from the same text, whatever the quantities and the symbol. */
  lemma TextsOfAPlanAreDistinct(r: PlanRequest, day: Date, plan: SlicingPlan, i: nat, j: nat)
    requires r.qty > 0 && r.durationMinutes > 0 && plan.intervalSeconds > 0
    requires i < |plan.slices| && j < |plan.slices| && i != j
    ensures SliceText(r, day, plan, i) != SliceText(r, day, plan, j)
    ensures SliceText(r, day, plan, i) != ParentText(r, day, plan.intervalSeconds)
  {
    hide RawText, SliceStrategy, ParentStrategy, Swallows, FormatPriceForId;
    SwallowingIsLonger(r.symbol, r.symbol);
    var p := ParamsOf(r, day, plan.slices[i].qty, SliceStrategy(plan.parentId, i));
    RawTextIdentifiesTheOrder(p, ParamsOf(r, day, plan.slices[j].qty, SliceStrategy(plan.parentId, j)));
    RawTextIdentifiesTheOrder(p, ParamsOf(r, day, r.qty, ParentStrategy(r.durationMinutes, plan.intervalSeconds)));
    if SliceStrategy(plan.parentId, i) == SliceStrategy(plan.parentId, j) {
      SliceStrategyReadsBack(plan.parentId, i, j);
    }
    StrategiesDiffer(r.durationMinutes, plan.intervalSeconds, plan.parentId, i);
  }

  lemma StrategiesDiffer(durationMinutes: nat, intervalSeconds: nat, parentId: string, i: nat)
    ensures ParentStrategy(durationMinutes, intervalSeconds) != SliceStrategy(parentId, i)
  {
    hide Digits;
    assert ParentStrategy(durationMinutes, intervalSeconds)[5] == 'p';
    assert SliceStrategy(parentId, i)[5] == 's';
  }

  predicate SamePrices(r: PlanRequest, q: PlanRequest) {
    PriceCents(r.limitPrice) == PriceCents(q.limitPrice) && PriceCents(r.stopPrice) == PriceCents(q.stopPrice)
  }

  lemma ParentStrategyReadsBack(d: nat, i: nat, e: nat, k: nat)
    ensures ParentStrategy(d, i) == ParentStrategy(e, k) <==> d == e && i == k
  {
    hide Digits, Value;
    if ParentStrategy(d, i) == ParentStrategy(e, k) {
      var prefix, a, b := "twap_parent_", "_" + Digits(i) + "s", "_" + Digits(k) + "s";
      assert ParentStrategy(d, i) == prefix + (Digits(d) + ['m'] + a);
      assert ParentStrategy(e, k) == prefix + (Digits(e) + ['m'] + b);
      assert Digits(d) + ['m'] + a == ParentStrategy(d, i)[|prefix|..] == Digits(e) + ['m'] + b;
      DigitsReadBack(d);
      DigitsReadBack(e);
      DigitsReadBack(i);
      DigitsReadBack(k);
      SplitAt(Digits(d), a, Digits(e), b, 'm');
      assert Digits(i) == a[1..|a| - 1] && Digits(k) == b[1..|b| - 1];
    }
  }

  lemma SliceStrategiesAgreeIff(parentId: string, i: nat, otherId: string, k: nat)
    requires |parentId| == |otherId|
    ensures SliceStrategy(parentId, i) == SliceStrategy(otherId, k) <==> parentId == otherId && i == k
  {
    hide Digits, Value;
    var prefix := "twap_slice_";
    var n := |prefix|;
    if SliceStrategy(parentId, i) == SliceStrategy(otherId, k) {
      var x, y := SliceStrategy(parentId, i), SliceStrategy(otherId, k);
      assert x == prefix + (parentId + ("_" + Digits(i))) && y == prefix + (otherId + ("_" + Digits(k)));
      assert parentId == x[n..n + |parentId|] && otherId == y[n..n + |parentId|];
      SliceStrategyReadsBack(parentId, i, k);
    }
  }

  /** Two requests hash their parents from one text exactly when they ask for the same: symbol, side, quantity,
      prices to the cent, type, time in force, duration, spacing and day. */
  lemma ParentTextsAgreeIff(r: PlanRequest, day: Date, i: nat, q: PlanRequest, other: Date, k: nat)
    requires r.qty > 0 && r.durationMinutes > 0 && q.qty > 0 && q.durationMinutes > 0
    requires !Swallows(r.symbol, q.symbol) && !Swallows(q.symbol, r.symbol)
    ensures ParentText(r, day, i) == ParentText(q, other, k) <==>
      && r.symbol == q.symbol && r.side == q.side && r.qty == q.qty && SamePrices(r, q)
      && r.orderType == q.orderType && r.timeInForce == q.timeInForce
      && r.durationMinutes == q.durationMinutes && i == k && day == other
  {
    hide RawText, ParentStrategy, Swallows, PriceCents;
    RawTextIdentifiesTheOrder(ParamsOf(r, day, r.qty, ParentStrategy(r.durationMinutes, i)),
                              ParamsOf(q, other, q.qty, ParentStrategy(q.durationMinutes, k)));
    ParentStrategyReadsBack(r.durationMinutes, i, q.durationMinutes, k);
  }

  /** Two slices, of one plan or of two, are hashed from one text exactly when they have the same parent id,
      number, quantity, symbol, side, prices to the cent, type, time in force and day. */
  lemma SliceTextsAgreeIff(r: PlanRequest, day: Date, plan: SlicingPlan, i: nat,
                           q: PlanRequest, other: Date, otherPlan: SlicingPlan, k: nat)
    requires i < |plan.slices| && k < |otherPlan.slices|
    requires |plan.parentId| == |otherPlan.parentId| == ORDER_ID_MAX_LENGTH
    requires !Swallows(r.symbol, q.symbol) && !Swallows(q.symbol, r.symbol)
    ensures SliceText(r, day, plan, i) == SliceText(q, other, otherPlan, k) <==>
      && r.symbol == q.symbol && r.side == q.side && plan.slices[i].qty == otherPlan.slices[k].qty
      && SamePrices(r, q) && r.orderType == q.orderType && r.timeInForce == q.timeInForce
      && plan.parentId == otherPlan.parentId && i == k && day == other
  {
    hide RawText, SliceStrategy, Swallows, PriceCents;
    RawTextIdentifiesTheOrder(ParamsOf(r, day, plan.slices[i].qty, SliceStrategy(plan.parentId, i)),
                              ParamsOf(q, other, otherPlan.slices[k].qty, SliceStrategy(otherPlan.parentId, k)));
    SliceStrategiesAgreeIff(plan.parentId, i, otherPlan.parentId, k);
  }

  // ---------------------------------------------------------------------------
  // Request validation
  // ---------------------------------------------------------------------------

  const TWAP_MIN_DURATION_MINUTES := 5
  const TWAP_MAX_DURATION_MINUTES := 480
  const TWAP_MIN_INTERVAL_SECONDS := 30
  const TWAP_MAX_INTERVAL_SECONDS := 300
  const TWAP_MIN_SLICES := 2
  const TWAP_MIN_SLICE_QTY := 10

  /** An order request with execution style "twap". */
  datatype TwapOrder = TwapOrder(
    symbol: string, side: Side, qty: int, orderType: OrderType, timeInForce: TimeInForce,
    durationMinutes: Option<int>, intervalSeconds: Option<int>, startTime: Option<int>,
    limitPrice: Option<Price>, stopPrice: Option<Price>)

  predicate ValidateOrderTypePrices(o: TwapOrder) {
    && (o.orderType in {Limit, StopLimit} ==> o.limitPrice.Some?)
    && (o.orderType in {Stop, StopLimit} ==> o.stopPrice.Some?)
    && (o.orderType == StopLimit ==>
          if o.side == Buy then o.limitPrice.value >= o.stopPrice.value else o.limitPrice.value <= o.stopPrice.value)
  }

  predicate ValidateTwapConstraints(o: TwapOrder, now: int) {
    && o.qty > 0
    && o.orderType in {Market, Limit}
    && o.timeInForce == Day
    && o.durationMinutes.Some? && o.intervalSeconds.Some?
    && TWAP_MIN_DURATION_MINUTES <= o.durationMinutes.value <= TWAP_MAX_DURATION_MINUTES
    && TWAP_MIN_INTERVAL_SECONDS <= o.intervalSeconds.value <= TWAP_MAX_INTERVAL_SECONDS
    && TWAP_MIN_SLICES <= CeilDiv(o.durationMinutes.value * 60, o.intervalSeconds.value)
    && TWAP_MIN_SLICE_QTY <= o.qty / CeilDiv(o.durationMinutes.value * 60, o.intervalSeconds.value)
    && (o.startTime.Some? ==> now - 60 <= o.startTime.value <= now + 5 * 86400)
  }

  /** What the schema accepts, by the numbers: market or limit orders for the day, five minutes to eight hours,
      half a minute to five minutes apart, more than one slice, a count of slices that covers the duration
      with ten shares each, and a start from a minute ago to five days ahead. */
  lemma TwapIsAcceptedIff(o: TwapOrder, now: int)
    ensures ValidateTwapConstraints(o, now) <==>
      && o.qty > 0 && (o.orderType == Market || o.orderType == Limit) && o.timeInForce == Day
      && o.durationMinutes.Some? && 5 <= o.durationMinutes.value <= 480
      && o.intervalSeconds.Some? && 30 <= o.intervalSeconds.value <= 300
      && o.intervalSeconds.value < o.durationMinutes.value * 60
      && (exists n: nat :: n > 0 && n * o.intervalSeconds.value >= o.durationMinutes.value * 60 && 10 * n <= o.qty)
      && (o.startTime.Some? ==> now - 60 <= o.startTime.value <= now + 432000)
  {
    if o.qty > 0 && o.durationMinutes.Some? && 5 <= o.durationMinutes.value <= 480 &&
       o.intervalSeconds.Some? && 30 <= o.intervalSeconds.value <= 300
    {
      CoveringCounts(o.durationMinutes.value * 60, o.intervalSeconds.value, o.qty);
    }
    hide CeilDiv;
  }

  lemma CoveringCounts(total: nat, interval: nat, qty: nat)
    requires total > 0 && interval > 0
    ensures CeilDiv(total, interval) > 0
    ensures CeilDiv(total, interval) >= 2 <==> interval < total
    ensures qty / CeilDiv(total, interval) >= 10 <==>
            exists n: nat :: n > 0 && n * interval >= total && 10 * n <= qty
  {
    hide CeilDiv;
    CeilDivBound(total, interval, 0);
    CeilDivBound(total, interval, 1);
    var c := CeilDiv(total, interval);
    CeilDivBound(total, interval, c);
    QuotientBound(qty, c, 10);
    forall n: nat | n > 0 && n * interval >= total ensures n >= c {
      CeilDivBound(total, interval, n);
    }
  }

  function PlanOf(o: TwapOrder, maxSliceQty: Option<int>, tradeDate: Option<Date>): PlanRequest
    requires o.durationMinutes.Some? && o.intervalSeconds.Some?
  {
    PlanRequest(o.symbol, o.side, o.qty, o.durationMinutes.value, o.orderType, o.intervalSeconds.value, maxSliceQty,
                o.limitPrice, o.stopPrice, o.timeInForce, tradeDate)
  }

  /** A TWAP order the schema accepts is always planned, and no slice is below the minimum. */
  lemma AcceptedTwapIsPlanned(o: TwapOrder, now: int, tradeDate: Option<Date>, sample: seq<nat>, i: nat)
    requires ValidateOrderTypePrices(o) && ValidateTwapConstraints(o, now)
    ensures var r := PlanOf(o, None, tradeDate);
      && PlanFailure(r).None? && SliceCount(r) >= 2
      && ShareOf(EvenShare(r.qty, SliceCount(r)), sample, i) >= 10
  {
  }

  /** SlicingRequest's own check. */
  predicate ValidateQtyDurationRelationship(r: PlanRequest) {
    r.qty > 0 && r.durationMinutes > 0 && r.intervalSeconds > 0 &&
    r.qty >= CeilDiv(r.durationMinutes * 60, r.intervalSeconds)
  }

  /** Without a cap the validator and the planner draw the same line; only missing prices,
      which SlicingRequest does not check, remain for the planner to refuse. */
  lemma ValidatorAgreesWithPlanner(r: PlanRequest)
    requires r.qty > 0 && r.durationMinutes > 0 && r.intervalSeconds > 0 && r.maxSliceQty.None?
    ensures ValidateQtyDurationRelationship(r) <==>
            PlanFailure(r) in {None, Some(LimitPriceMissing), Some(StopPriceMissing)}
    ensures !ValidateQtyDurationRelationship(r) <==> PlanFailure(r) == Some(FewerSharesThanSlices)
  {
    hide CeilDiv;
  }

  /** With a cap a validated request is refused for its counts exactly when the cap needs more slices
      than the duration has seconds, plus one. */
  lemma CappedSlicingIsRefusedIff(r: PlanRequest)
    requires ValidateQtyDurationRelationship(r) && r.maxSliceQty.Some? && r.maxSliceQty.value >= 1
    ensures PlanFailure(r) !in {None, Some(LimitPriceMissing), Some(StopPriceMissing)} <==>
      CeilDiv(r.qty, r.maxSliceQty.value) > r.durationMinutes * 60 + 1
  {
    hide CeilDiv;
    var total: nat, cap := r.durationMinutes * 60, r.maxSliceQty.value;
    CeilDivBound(total, r.intervalSeconds, total);
    Monotone(1, r.intervalSeconds, total);
    Commute(total, r.intervalSeconds);
    CeilDivBound(r.qty, cap, r.qty);
    Monotone(1, cap, r.qty);
    Commute(r.qty, cap);
  }

  /** So is an accepted TWAP order. */
  lemma CappedTwapIsRefusedIff(o: TwapOrder, now: int, tradeDate: Option<Date>, cap: int)
    requires ValidateOrderTypePrices(o) && ValidateTwapConstraints(o, now) && cap >= 1
    ensures PlanFailure(PlanOf(o, Some(cap), tradeDate)).Some? <==>
      CeilDiv(o.qty, cap) > o.durationMinutes.value * 60 + 1
  {
    hide CeilDiv;
    var r := PlanOf(o, Some(cap), tradeDate);
    QuotientBound(r.qty, BaseSlices(r), 1);
    CappedSlicingIsRefusedIff(r);
  }

  lemma {:induction false} SampleMissesOne(sample: seq<nat>, n: nat) returns (i: nat)
    requires |sample| < n
    ensures i < n && i !in sample
    decreases n
  {
    if n - 1 !in sample {
      i := n - 1;
    } else {
      var k :| 0 <= k < |sample| && sample[k] == n - 1;
      var rest := sample[..k] + sample[k + 1..];
      i := SampleMissesOne(rest, n - 1);
      assert forall x :: x in sample ==> x in rest || x == n - 1;
    }
  }

  /** An accepted TWAP order keeps the minimum slice under a cap if and only if as many slices as the
      cap alone requires would each have the minimum. */
  lemma CapKeepsMinimumIff(o: TwapOrder, now: int, tradeDate: Option<Date>, cap: int,
                           sample: (string, nat, nat) -> seq<nat>, plan: SlicingPlan)
    requires ValidateOrderTypePrices(o) && ValidateTwapConstraints(o, now) && cap >= 1 && IsSampler(sample)
    requires var r := PlanOf(o, Some(cap), tradeDate);
             SampledQuantities(r, sample, plan) && |plan.slices| == SliceCount(r)
    ensures (forall s <- plan.slices :: s.qty >= TWAP_MIN_SLICE_QTY) <==>
            CeilDiv(o.qty, cap) * TWAP_MIN_SLICE_QTY <= o.qty
  {
    hide CeilDiv, EvenShare, Remainder, SeedText;
    var r := PlanOf(o, Some(cap), tradeDate);
    var n := SliceCount(r);
    var chosen := sample(SeedText(r, plan.intervalSeconds), n, Remainder(r.qty, n));
    assert IsSample(chosen, n, Remainder(r.qty, n));
    var i := SampleMissesOne(chosen, n);
    assert plan.slices[i] in plan.slices && plan.slices[i].qty == EvenShare(r.qty, n);
    MinimumOfEvenShare(o, now, tradeDate, cap);
  }

  lemma MinimumOfEvenShare(o: TwapOrder, now: int, tradeDate: Option<Date>, cap: int)
    requires ValidateOrderTypePrices(o) && ValidateTwapConstraints(o, now) && cap >= 1
    ensures var r := PlanOf(o, Some(cap), tradeDate);
      SliceCount(r) > 0 &&
      (EvenShare(r.qty, SliceCount(r)) >= TWAP_MIN_SLICE_QTY <==> CeilDiv(o.qty, cap) * TWAP_MIN_SLICE_QTY <= o.qty)
  {
    hide CeilDiv;
    var r := PlanOf(o, Some(cap), tradeDate);
    CountIsPositive(r);
    QuotientBound(r.qty, SliceCount(r), TWAP_MIN_SLICE_QTY);
    QuotientBound(r.qty, BaseSlices(r), TWAP_MIN_SLICE_QTY);
  }

  /** Both can go wrong: 120 shares in two slices are accepted, but a cap of one share needs more
      slices than the minute has seconds; and 100 shares under a cap of five are cut into fives. */
  lemma CapIsNotValidated(tradeDate: Option<Date>)
    ensures var r := PlanRequest("AAPL", Buy, 120, 1, Market, 30, Some(1), None, None, Day, tradeDate);
      ValidateQtyDurationRelationship(r) && PlanFailure(r) == Some(TooManySlicesForDuration)
    ensures var o := TwapOrder("AAPL", Buy, 100, Market, Day, Some(5), Some(60), None, None, None);
      var r := PlanOf(o, Some(5), tradeDate);
      && ValidateTwapConstraints(o, 0) && ValidateOrderTypePrices(o)
      && PlanFailure(r).None? && SliceCount(r) == 20 && EvenShare(r.qty, 20) == 5
  {
    assert CeilDiv(60, 30) == 2 && CeilDiv(120, 1) == 120;
    assert CeilDiv(300, 60) == 5 && CeilDiv(100, 5) == 20;
  }

  /** A request planned again on another day hashes its parent order from the same text if and only if
      it names its trading day. */
  lemma RetryKeepsTheParentIff(r: PlanRequest, first: Date, second: Date)
    requires InRange(r) && first != second
    ensures var interval := EffectiveInterval(r);
            ParentText(r, OrderDay(r, first), interval) == ParentText(r, OrderDay(r, second), interval)
            <==> r.tradeDate.Some?
  {
    hide RawText, ParentStrategy, Swallows, FormatPriceForId, EffectiveInterval;
    SwallowingIsLonger(r.symbol, r.symbol);
    var strategy := ParentStrategy(r.durationMinutes, EffectiveInterval(r));
    RawTextIdentifiesTheOrder(ParamsOf(r, OrderDay(r, first), r.qty, strategy),
                              ParamsOf(r, OrderDay(r, second), r.qty, strategy));
  }

  /** Quantities never depend on the day the plan is made, and with a named day neither do the ids. */
  lemma RetryGivesTheSameOrders(r: PlanRequest, first: Date, second: Date, sample: (string, nat, nat) -> seq<nat>,
                                digest: string -> string, p: SlicingPlan, q: SlicingPlan)
    requires IsDigest(digest) && |p.slices| == |q.slices| && p.intervalSeconds == q.intervalSeconds
    requires SampledQuantities(r, sample, p) && SampledQuantities(r, sample, q)
    requires HashedIds(r, OrderDay(r, first), digest, p) && HashedIds(r, OrderDay(r, second), digest, q)
    ensures forall i :: 0 <= i < |p.slices| ==> p.slices[i].qty == q.slices[i].qty
    ensures r.tradeDate.Some? || first == second ==>
      p.parentId == q.parentId &&
      forall i :: 0 <= i < |p.slices| ==> p.slices[i].clientOrderId == q.slices[i].clientOrderId
  {
    hide OrderId, ShareOf, EvenShare, Remainder, SeedText, SliceStrategy, ParentStrategy;
  }
}
