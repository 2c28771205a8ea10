/** The observed spread of route prices: widened by every price computed in its window, and
    carried over to a later base by scale. */
module PriceRanges {
  import opened FeedTypes
  import R = Rounding
  import opened Pricing

  /** The stored spread of one window, with the base price of that window. */
  datatype Spread = Spread(window: int, base: int, low: int, high: int)

  function Widen(s: Spread, price: int): Spread {
    s.(low := if price < s.low then price else s.low, high := if price > s.high then price else s.high)
  }

  function WidenAll(s: Spread, prices: seq<int>): Spread
    decreases |prices|
  {
    if prices == [] then s else WidenAll(Widen(s, prices[0]), prices[1..])
  }

  /** The spread after one call of the script: kept for the same window, restarted otherwise. */
  function Folded(stored: Option<Spread>, window: int, base: int, prices: seq<int>): Spread
    requires prices != []
  {
    var start := if stored.Some? && stored.value.window == window then stored.value
                 else Spread(window, base, prices[0], prices[0]);
    WidenAll(start, prices)
  }

  /** The spread is exactly the least and the greatest of these prices. */
  predicate Exact(s: Spread, prices: seq<int>) {
    s.low in prices && s.high in prices && forall p :: p in prices ==> s.low <= p <= s.high
  }

  lemma {:induction false} WidenAllIsExact(s: Spread, seen: seq<int>, prices: seq<int>)
    requires Exact(s, seen)
    ensures Exact(WidenAll(s, prices), seen + prices)
    ensures WidenAll(s, prices).window == s.window && WidenAll(s, prices).base == s.base
    decreases |prices|
  {
    if prices == [] {
      assert seen + prices == seen;
    } else {
      assert Exact(Widen(s, prices[0]), seen + [prices[0]]) by {
        assert forall p :: p in seen + [prices[0]] <==> p in seen || p == prices[0];
      }
      WidenAllIsExact(Widen(s, prices[0]), seen + [prices[0]], prices[1..]);
      assert seen + [prices[0]] + prices[1..] == seen + prices;
    }
  }

  /** Folding prices into an exact spread of the same window keeps it exact for all of them;
      into none, or into another window's, it is exact for the new ones alone. */
  lemma FoldedIsExact(stored: Option<Spread>, window: int, base: int, seen: seq<int>, prices: seq<int>)
    requires prices != []
    requires stored.Some? && stored.value.window == window ==> Exact(stored.value, seen) && stored.value.base == base
    requires !(stored.Some? && stored.value.window == window) ==> seen == []
    ensures Exact(Folded(stored, window, base, prices), seen + prices)
    ensures Folded(stored, window, base, prices).window == window && Folded(stored, window, base, prices).base == base
  {
    if stored.Some? && stored.value.window == window {
      WidenAllIsExact(stored.value, seen, prices);
    } else {
      var start := Spread(window, base, prices[0], prices[0]);
      WidenAllIsExact(start, [prices[0]], prices);
      assert forall p :: p in [prices[0]] + prices <==> p in seen + prices;
    }
  }

  function Least(prices: seq<int>): (m: int)
    requires prices != []
    ensures m in prices && forall p :: p in prices ==> m <= p
  {
    if |prices| == 1 then prices[0]
    else
      assert prices == [prices[0]] + prices[1..];
      R.Min(prices[0], Least(prices[1..]))
  }

  function Greatest(prices: seq<int>): (m: int)
    requires prices != []
    ensures m in prices && forall p :: p in prices ==> p <= m
  {
    if |prices| == 1 then prices[0]
    else
      assert prices == [prices[0]] + prices[1..];
      R.Max(prices[0], Greatest(prices[1..]))
  }

  lemma ExactIsExtremes(s: Spread, prices: seq<int>)
    requires prices != [] && Exact(s, prices)
    ensures s.low == Least(prices) && s.high == Greatest(prices)
  {
    assert Least(prices) in prices && Greatest(prices) in prices;
  }

  /** Widening reaches as far as the extremes of the prices, and no further. */
  lemma {:induction false} WidenAllReaches(s: Spread, prices: seq<int>)
    requires prices != [] && s.low <= s.high
    ensures WidenAll(s, prices) == s.(low := R.Min(s.low, Least(prices)), high := R.Max(s.high, Greatest(prices)))
    decreases |prices|
  {
    if |prices| > 1 {
      WidenAllReaches(Widen(s, prices[0]), prices[1..]);
    } else {
      assert prices[1..] == [];
    }
  }

  /** Sending only the extremes widens a spread exactly as far as sending every price. */
  lemma ExtremesSuffice(stored: Option<Spread>, window: int, base: int, prices: seq<int>)
    requires prices != []
    requires stored.Some? && stored.value.window == window ==> stored.value.low <= stored.value.high
    ensures Folded(stored, window, base, [Least(prices), Greatest(prices)]) == Folded(stored, window, base, prices)
  {
    var few := [Least(prices), Greatest(prices)];
    assert few[1..] == [Greatest(prices)];
    assert Least(few) == Least(prices) && Greatest(few) == Greatest(prices);
    if stored.Some? && stored.value.window == window {
      WidenAllReaches(stored.value, prices);
      WidenAllReaches(stored.value, few);
    } else {
      WidenAllReaches(Spread(window, base, prices[0], prices[0]), prices);
      WidenAllReaches(Spread(window, base, few[0], few[0]), few);
    }
  }

  // ----- carrying a spread over to another base -----

  /** A spread seen against `base`, rescaled onto `current` and widened to hold it. */
  function Rescaled(low: int, high: int, base: int, current: int, c: PriceSettings): (int, int)
    requires base > 0
  {
    var factor := current as real / base as real;
    var lower := R.Min(R.Round(R.Times(low as real, factor)), current);
    var upper := R.Max(R.Round(R.Times(high as real, factor)), current);
    (R.Max(c.min, lower), R.Min(c.max, upper))
  }

  /** A rescaled range is a range, stays within the bounds and holds the current base, which
      is what an uncongested route is charged. */
  lemma RescaledHoldsCurrent(low: int, high: int, base: int, current: int, c: PriceSettings)
    requires base > 0 && ValidPrices(c) && InRange(c, current)
    ensures
      var r := Rescaled(low, high, base, current, c);
      c.min <= r.0 <= current <= r.1 <= c.max
  {
  }

  /** Onto the same base a range that holds it is carried over unchanged. */
  lemma RescaledOntoItself(low: int, high: int, base: int, c: PriceSettings)
    requires base > 0 && c.min <= low <= base <= high <= c.max
    ensures Rescaled(low, high, base, base, c) == (low, high)
  {
    assert base as real / base as real == 1.0;
    R.TimesOne(low as real);
    R.TimesOne(high as real);
    R.RoundOfInt(low);
    R.RoundOfInt(high);
  }

  /** A wider range, or a higher current base, never rescales to a narrower or lower one. */
  lemma RescaledInOrder(low: int, lower: int, high: int, higher: int, base: int, current: int, c: PriceSettings)
    requires base > 0 && current >= 0 && 0 <= lower <= low && 0 <= high <= higher
    ensures Rescaled(lower, higher, base, current, c).0 <= Rescaled(low, high, base, current, c).0
    ensures Rescaled(low, high, base, current, c).1 <= Rescaled(lower, higher, base, current, c).1
  {
    var factor := current as real / base as real;
    assert factor >= 0.0;
    R.TimesInOrder(lower as real, low as real, factor, factor);
    R.TimesInOrder(high as real, higher as real, factor, factor);
    R.RoundIsMonotone(R.Times(lower as real, factor), R.Times(low as real, factor));
    R.RoundIsMonotone(R.Times(high as real, factor), R.Times(higher as real, factor));
  }
}
