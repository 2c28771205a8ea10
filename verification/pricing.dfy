/** Admission pricing: the one-step controller of the shared price, and the factor that makes
    a congested route dearer. */
module Pricing {
  import opened Rounding

  datatype PriceSettings = PriceSettings(
    min: int, max: int, bufferRatio: real, targetMinItems: nat, deadbandRatio: real,
    band: real, refresh: real, ttl: real)

  predicate ValidPrices(c: PriceSettings) {
    && 0 <= c.min <= c.max
    && c.bufferRatio >= 0.0
    && 0.0 <= c.deadbandRatio <= 1.0
    && 0.0 <= c.band <= 1.0
    && 1.0 <= c.refresh < c.ttl
  }

  // ----- the shared price -----

  /** The backlog considered healthy: a share of the active readers, with a floor. */
  function PriceTarget(active: nat, c: PriceSettings): (r: int)
    ensures c.targetMinItems <= r && Times(c.bufferRatio, active as real) - 0.5 <= r as real
    ensures r == c.targetMinItems || r as real <= Times(c.bufferRatio, active as real) + 0.5
  {
    Max(c.targetMinItems, Round(Times(c.bufferRatio, active as real)))
  }

  function Deadband(target: int, c: PriceSettings): (r: int)
    ensures 1 <= r && Times(target as real, c.deadbandRatio) - 0.5 <= r as real
    ensures r == 1 || r as real <= Times(target as real, c.deadbandRatio) + 0.5
  {
    Max(1, Round(Times(target as real, c.deadbandRatio)))
  }

  function Distance(x: int): nat {
    if x < 0 then -x else x
  }

  function ComputePrice(prev: int, opsLen: nat, active: nat, c: PriceSettings): int {
    var target := PriceTarget(active, c);
    var diff := opsLen - target;
    if Distance(diff) <= Deadband(target, c) then prev
    else if diff > 0 then Min(c.max, prev + 1)
    else Max(c.min, prev - 1)
  }

  predicate InRange(c: PriceSettings, price: int) {
    c.min <= price <= c.max
  }

  /** One tick moves the price by at most one and never out of its range. */
  lemma PriceMovesByOne(prev: int, opsLen: nat, active: nat, c: PriceSettings)
    requires ValidPrices(c) && InRange(c, prev)
    ensures InRange(c, ComputePrice(prev, opsLen, active, c))
    ensures Distance(ComputePrice(prev, opsLen, active, c) - prev) <= 1
  {
  }

  /** More backlog never makes the next price lower. */
  lemma PriceRisesWithBacklog(prev: int, less: nat, more: nat, active: nat, c: PriceSettings)
    requires ValidPrices(c) && InRange(c, prev) && less <= more
    ensures ComputePrice(prev, less, active, c) <= ComputePrice(prev, more, active, c)
  {
  }

  /** A backlog more than the dead band above the healthy one raises the price below its maximum,
      one more than the dead band below it lowers the price above its minimum, and nothing else
      moves it. The healthy backlog is a share of the active readers, with a floor. */
  lemma BacklogMovesPrice(prev: int, opsLen: nat, active: nat, c: PriceSettings)
    requires ValidPrices(c) && InRange(c, prev)
    ensures
      var healthy := Max(c.targetMinItems, Round(Times(c.bufferRatio, active as real)));
      var band := Max(1, Round(Times(healthy as real, c.deadbandRatio)));
      && (ComputePrice(prev, opsLen, active, c) == prev + 1 <==> opsLen > healthy + band && prev < c.max)
      && (ComputePrice(prev, opsLen, active, c) == prev - 1 <==> opsLen < healthy - band && prev > c.min)
  {
  }

  /** With nobody active and with many, at a ratio of a quarter, a floor of four items and a dead
      band of a tenth: ten waiting operations raise the price, and lower it for eighty readers. */
  lemma ReadersEasePrices(c: PriceSettings)
    requires ValidPrices(c) && c.min <= 5 < 7 <= c.max && c.bufferRatio == 0.25 && c.targetMinItems == 4 && c.deadbandRatio == 0.1
    ensures ComputePrice(6, 10, 0, c) == 7 && ComputePrice(6, 10, 80, c) == 5
    ensures ComputePrice(6, 5, 0, c) == 6 && ComputePrice(6, 22, 80, c) == 6
  {
    assert Times(0.25, 0.0) == 0.0 && Times(0.25, 80.0) == 20.0;
    assert Times(4.0, 0.1) == 0.4 && Times(20.0, 0.1) == 2.0;
  }

  lemma TargetGrows(fewer: nat, more: nat, c: PriceSettings)
    requires ValidPrices(c) && fewer <= more
    ensures 0 <= PriceTarget(fewer, c) <= PriceTarget(more, c)
  {
    TimesInOrder(c.bufferRatio, c.bufferRatio, fewer as real, more as real);
    RoundIsMonotone(Times(c.bufferRatio, fewer as real), Times(c.bufferRatio, more as real));
  }

  lemma OneMoreStep(n: nat, step: real)
    ensures Times((n + 1) as real, step) == Times(n as real, step) + step
  {
    assert (n + 1) as real == n as real + 1.0;
  }

  lemma DeadbandGrowsSlowly(target: nat, c: PriceSettings)
    requires ValidPrices(c)
    ensures Deadband(target, c) <= Deadband(target + 1, c) <= Deadband(target, c) + 1
  {
    var x, y := Times(target as real, c.deadbandRatio), Times((target + 1) as real, c.deadbandRatio);
    OneMoreStep(target, c.deadbandRatio);
    RoundIsMonotone(x, y);
    if c.deadbandRatio < 1.0 {
      RoundGrowsSlowly(x, y);
    } else {
      assert c.deadbandRatio == 1.0;
      TimesOne(target as real);
      TimesOne((target + 1) as real);
      RoundOfInt(target);
      RoundOfInt(target + 1);
    }
  }

  /** Both edges of the dead band move up with the target. */
  lemma {:induction false} EdgesGrow(low: nat, high: nat, c: PriceSettings)
    requires ValidPrices(c) && low <= high
    ensures low + Deadband(low, c) <= high + Deadband(high, c)
    ensures low - Deadband(low, c) <= high - Deadband(high, c)
    decreases high - low
  {
    if low < high {
      DeadbandGrowsSlowly(low, c);
      EdgesGrow(low + 1, high, c);
    }
  }

  /** More readers never make the next price higher. */
  lemma PriceFallsWithReaders(prev: int, opsLen: nat, fewer: nat, more: nat, c: PriceSettings)
    requires ValidPrices(c) && InRange(c, prev) && fewer <= more
    ensures ComputePrice(prev, opsLen, more, c) <= ComputePrice(prev, opsLen, fewer, c)
  {
    TargetGrows(fewer, more, c);
    EdgesGrow(PriceTarget(fewer, c), PriceTarget(more, c), c);
  }

  /** The price after `n` ticks under one unchanging load. */
  function After(n: nat, price: int, opsLen: nat, active: nat, c: PriceSettings): int {
    if n == 0 then price else After(n - 1, ComputePrice(price, opsLen, active, c), opsLen, active, c)
  }

  /** Where a constant load takes the price: up to the maximum, down to the minimum, or
      nowhere, by exactly one a tick. */
  lemma {:induction false} ConstantLoadWalks(n: nat, price: int, opsLen: nat, active: nat, c: PriceSettings)
    requires ValidPrices(c) && InRange(c, price)
    ensures
      var target := PriceTarget(active, c);
      var edge := Deadband(target, c);
      After(n, price, opsLen, active, c) ==
        if opsLen > target + edge then Min(c.max, price + n)
        else if opsLen < target - edge then Max(c.min, price - n)
        else price
  {
    if n > 0 {
      ConstantLoadWalks(n - 1, ComputePrice(price, opsLen, active, c), opsLen, active, c);
    }
  }

  /** Under one load the price moves in one direction only and has settled after as many
      ticks as the range is wide. */
  lemma ConstantLoadSettles(m: nat, n: nat, price: int, opsLen: nat, active: nat, c: PriceSettings)
    requires ValidPrices(c) && InRange(c, price) && m <= n
    ensures c.max - c.min <= m ==> After(n, price, opsLen, active, c) == After(m, price, opsLen, active, c)
    ensures
      var early, late := After(m, price, opsLen, active, c), After(n, price, opsLen, active, c);
      price <= early <= late || price >= early >= late
  {
    ConstantLoadWalks(m, price, opsLen, active, c);
    ConstantLoadWalks(n, price, opsLen, active, c);
  }

  // ----- one route's share of the congestion -----

  function RouteFactor(routeOps: nat, routeSubs: int, opsTotal: int, subsTotal: int, c: PriceSettings): real {
    if routeSubs <= 0 || opsTotal <= 0 || subsTotal <= 0 then 1.0
    else
      var load := routeOps as real / routeSubs as real;
      var loadAll := opsTotal as real / subsTotal as real;
      Clamp(1.0 - c.band, load / loadAll, 1.0 + c.band)
  }

  /** Halves round up here, unlike everywhere else. */
  function HalfUp(x: real): int {
    (x + 0.5).Floor
  }

  function Bounded(c: PriceSettings, price: int): int {
    Max(c.min, Min(c.max, price))
  }

  /** The base price scaled by a factor, within the bounds. */
  function Scaled(base: int, factor: real, c: PriceSettings): int {
    Bounded(c, HalfUp(Times(base as real, factor)))
  }

  function RoutePrice(base: int, routeOps: nat, routeSubs: int, opsTotal: int, subsTotal: int, c: PriceSettings): int {
    Scaled(base, RouteFactor(routeOps, routeSubs, opsTotal, subsTotal, c), c)
  }

  lemma DividedInOrder(x: real, y: real, d: real)
    requires x <= y && d > 0.0
    ensures x / d <= y / d
  {
    assert x / d == x * (1.0 / d) && y / d == y * (1.0 / d);
  }

  /** A larger divisor makes a smaller quotient. */
  lemma DividedByMore(x: real, d: real, e: real)
    requires 0.0 <= x && 0.0 < d <= e
    ensures x / e <= x / d
  {
    var q := x / e;
    assert q >= 0.0 && q * e == x;
    assert q * d <= x;
    DividedInOrder(q * d, x, d);
    assert q * d / d == q;
  }

  lemma FactorInBand(routeOps: nat, routeSubs: int, opsTotal: int, subsTotal: int, c: PriceSettings)
    requires ValidPrices(c)
    ensures 0.0 <= 1.0 - c.band <= RouteFactor(routeOps, routeSubs, opsTotal, subsTotal, c) <= 1.0 + c.band
  {
  }

  lemma FactorRisesWithBacklog(less: nat, more: nat, routeSubs: int, opsTotal: int, subsTotal: int, c: PriceSettings)
    requires ValidPrices(c) && less <= more
    ensures RouteFactor(less, routeSubs, opsTotal, subsTotal, c) <= RouteFactor(more, routeSubs, opsTotal, subsTotal, c)
  {
    if routeSubs > 0 && opsTotal > 0 && subsTotal > 0 {
      var loadAll := opsTotal as real / subsTotal as real;
      assert loadAll > 0.0;
      DividedInOrder(less as real, more as real, routeSubs as real);
      DividedInOrder(less as real / routeSubs as real, more as real / routeSubs as real, loadAll);
    }
  }

  lemma FactorFallsWithAudience(routeOps: nat, fewer: int, more: int, opsTotal: int, subsTotal: int, c: PriceSettings)
    requires ValidPrices(c) && 0 < fewer <= more
    ensures RouteFactor(routeOps, more, opsTotal, subsTotal, c) <= RouteFactor(routeOps, fewer, opsTotal, subsTotal, c)
  {
    if opsTotal > 0 && subsTotal > 0 {
      var loadAll := opsTotal as real / subsTotal as real;
      assert loadAll > 0.0;
      DividedByMore(routeOps as real, fewer as real, more as real);
      DividedInOrder(routeOps as real / more as real, routeOps as real / fewer as real, loadAll);
    }
  }

  /** A larger base or factor never lowers the price. */
  lemma ScaledInOrder(base: int, higher: int, factor: real, larger: real, c: PriceSettings)
    requires 0 <= base <= higher && 0.0 <= factor <= larger
    ensures Scaled(base, factor, c) <= Scaled(higher, larger, c)
  {
    var x, y := Times(base as real, factor), Times(higher as real, larger);
    TimesInOrder(base as real, higher as real, factor, larger);
    FloorIsMonotone(x + 0.5, y + 0.5);
  }

  lemma ScaledByOne(base: int, c: PriceSettings)
    requires InRange(c, base)
    ensures Scaled(base, 1.0, c) == base
  {
    TimesOne(base as real);
  }

  /** A dearer base or a longer backlog never makes a route cheaper. */
  lemma RoutePriceRises(base: int, higher: int, less: nat, more: nat, routeSubs: int, opsTotal: int, subsTotal: int, c: PriceSettings)
    requires ValidPrices(c) && 0 <= base <= higher && less <= more
    ensures RoutePrice(base, less, routeSubs, opsTotal, subsTotal, c) <= RoutePrice(higher, more, routeSubs, opsTotal, subsTotal, c)
  {
    FactorInBand(less, routeSubs, opsTotal, subsTotal, c);
    FactorRisesWithBacklog(less, more, routeSubs, opsTotal, subsTotal, c);
    ScaledInOrder(base, higher, RouteFactor(less, routeSubs, opsTotal, subsTotal, c),
                  RouteFactor(more, routeSubs, opsTotal, subsTotal, c), c);
  }

  /** A larger audience never makes a route dearer, among routes that have one. */
  lemma RoutePriceFalls(base: int, routeOps: nat, fewer: int, more: int, opsTotal: int, subsTotal: int, c: PriceSettings)
    requires ValidPrices(c) && 0 <= base && 0 < fewer <= more
    ensures RoutePrice(base, routeOps, more, opsTotal, subsTotal, c) <= RoutePrice(base, routeOps, fewer, opsTotal, subsTotal, c)
  {
    FactorInBand(routeOps, more, opsTotal, subsTotal, c);
    FactorFallsWithAudience(routeOps, fewer, more, opsTotal, subsTotal, c);
    ScaledInOrder(base, base, RouteFactor(routeOps, more, opsTotal, subsTotal, c),
                  RouteFactor(routeOps, fewer, opsTotal, subsTotal, c), c);
  }

  /** The lowest and highest a route can be priced against `base`. */
  function BandLow(base: int, c: PriceSettings): int {
    Scaled(base, 1.0 - c.band, c)
  }

  function BandHigh(base: int, c: PriceSettings): int {
    Scaled(base, 1.0 + c.band, c)
  }

  /** Every route price lies in the rounded band around the base, and the base itself does. */
  lemma RoutePriceInBand(base: int, routeOps: nat, routeSubs: int, opsTotal: int, subsTotal: int, c: PriceSettings)
    requires ValidPrices(c) && InRange(c, base)
    ensures BandLow(base, c) <= RoutePrice(base, routeOps, routeSubs, opsTotal, subsTotal, c) <= BandHigh(base, c)
    ensures InRange(c, RoutePrice(base, routeOps, routeSubs, opsTotal, subsTotal, c))
    ensures BandLow(base, c) <= base <= BandHigh(base, c)
  {
    var factor := RouteFactor(routeOps, routeSubs, opsTotal, subsTotal, c);
    FactorInBand(routeOps, routeSubs, opsTotal, subsTotal, c);
    ScaledInOrder(base, base, 1.0 - c.band, factor, c);
    ScaledInOrder(base, base, factor, 1.0 + c.band, c);
    ScaledInOrder(base, base, 1.0 - c.band, 1.0, c);
    ScaledInOrder(base, base, 1.0, 1.0 + c.band, c);
    ScaledByOne(base, c);
  }

  /** A route carrying exactly its share, or with nothing to compare, costs the base price. */
  lemma NeutralRouteCostsBase(base: int, routeOps: nat, routeSubs: int, opsTotal: int, subsTotal: int, c: PriceSettings)
    requires ValidPrices(c) && InRange(c, base)
    requires routeSubs > 0 && opsTotal > 0 && subsTotal > 0 ==> routeOps * subsTotal == opsTotal * routeSubs
    ensures RoutePrice(base, routeOps, routeSubs, opsTotal, subsTotal, c) == base
  {
    if routeSubs > 0 && opsTotal > 0 && subsTotal > 0 {
      SameShare(routeOps as real, routeSubs as real, opsTotal as real, subsTotal as real);
    }
    ScaledByOne(base, c);
  }

  lemma SameShare(ops: real, subs: real, opsTotal: real, subsTotal: real)
    requires subs > 0.0 && opsTotal > 0.0 && subsTotal > 0.0 && ops * subsTotal == opsTotal * subs
    ensures opsTotal / subsTotal > 0.0 && (ops / subs) / (opsTotal / subsTotal) == 1.0
  {
    var load, all := ops / subs, opsTotal / subsTotal;
    assert load * subs == ops && all * subsTotal == opsTotal;
    assert load * subs * subsTotal == all * subsTotal * subs;
    var both := subs * subsTotal;
    assert both > 0.0 && (load - all) * both == 0.0;
    assert load == all;
  }
}
