/** The price operations on their Redis keys, each one proved to make the transition of the
    price window that bears its name. */
module PriceService {
  import opened FeedTypes
  import opened Pricing
  import opened PriceRanges
  import opened PriceWindow

  /** What `Observed` makes of one scope. */
  function RangeOf(c: PriceSettings, ranges: map<Scope, Keyed<Spread>>, s: Snapshot, added: seq<Computed>,
                   scopes: set<Scope>, k: Scope, now: real): Option<Keyed<Spread>> {
    var prices := PricesIn(added, WindowOf(s), k);
    if k in scopes && prices != [] then Some(RangeAfter(c, ranges, s, prices, k, now)) else StoredRange(ranges, k)
  }

  ghost predicate IsObserved(c: PriceSettings, ranges: map<Scope, Keyed<Spread>>, after: map<Scope, Keyed<Spread>>,
                             s: Snapshot, added: seq<Computed>, scopes: set<Scope>, now: real) {
    forall k: Scope :: StoredRange(after, k) == RangeOf(c, ranges, s, added, scopes, k, now)
  }

  lemma SameRanges(x: map<Scope, Keyed<Spread>>, y: map<Scope, Keyed<Spread>>)
    requires forall k: Scope :: StoredRange(x, k) == StoredRange(y, k)
    ensures x == y
  {
    forall k: Scope ensures k in x <==> k in y {
      assert StoredRange(x, k) == StoredRange(y, k);
    }
    forall k | k in x ensures x[k] == y[k] {
      assert StoredRange(x, k) == StoredRange(y, k);
    }
  }

  lemma ObservedByScope(c: PriceSettings, ranges: map<Scope, Keyed<Spread>>, s: Snapshot, added: seq<Computed>,
                        scopes: set<Scope>, k: Scope, now: real)
    ensures StoredRange(Observed(c, ranges, s, added, scopes, now), k) == RangeOf(c, ranges, s, added, scopes, k, now)
  {
  }

  lemma IsObservedIsObserved(c: PriceSettings, ranges: map<Scope, Keyed<Spread>>, after: map<Scope, Keyed<Spread>>,
                             s: Snapshot, added: seq<Computed>, scopes: set<Scope>, now: real)
    requires IsObserved(c, ranges, after, s, added, scopes, now)
    ensures after == Observed(c, ranges, s, added, scopes, now)
  {
    forall k: Scope ensures StoredRange(after, k) == StoredRange(Observed(c, ranges, s, added, scopes, now), k) {
      ObservedByScope(c, ranges, s, added, scopes, k, now);
    }
    SameRanges(after, Observed(c, ranges, s, added, scopes, now));
  }

  /** Folding one more scope's prices in, when it has any. */
  lemma ObservedOneMore(c: PriceSettings, ranges: map<Scope, Keyed<Spread>>, midway: map<Scope, Keyed<Spread>>,
                        after: map<Scope, Keyed<Spread>>, s: Snapshot, added: seq<Computed>, done: set<Scope>, k: Scope, now: real)
    requires IsObserved(c, ranges, midway, s, added, done, now) && k !in done
    requires var prices := PricesIn(added, WindowOf(s), k);
             after == if prices == [] then midway else midway[k := RangeAfter(c, midway, s, prices, k, now)]
    ensures IsObserved(c, ranges, after, s, added, done + {k}, now)
  {
    assert StoredRange(midway, k) == RangeOf(c, ranges, s, added, done, k, now) == StoredRange(ranges, k);
    forall j: Scope ensures StoredRange(after, j) == RangeOf(c, ranges, s, added, done + {k}, j, now) {
      assert StoredRange(midway, j) == RangeOf(c, ranges, s, added, done, j, now);
    }
  }

  lemma FrozenOneMore(c: PriceSettings, quotes: map<Route, Keyed<Quote>>, s: Snapshot, load: Load,
                      done: seq<Route>, r: Route, now: real)
    ensures Frozen(c, quotes, s, load, done + [r], now)
            == Frozen(c, quotes, s, load, done, now)[r := Keyed(Quote(PriceOf(c, s, load, r), s.expiresAt), now + c.ttl)]
  {
  }

  class PriceKeys {
    var snapshot: Option<Keyed<Snapshot>>
    var quotes: map<Route, Keyed<Quote>>
    var ranges: map<Scope, Keyed<Spread>>
    ghost var log: seq<Computed>

    constructor ()
      ensures View() == EmptyBoard()
    {
      snapshot, quotes, ranges, log := None, map[], map[], [];
    }

    ghost function View(): Board
      reads this
    {
      Board(snapshot, quotes, ranges, log)
    }

    /** Step the price from the last published one and publish the result. */
    method RefreshSnapshot(c: PriceSettings, now: real, load: Load) returns (s: Snapshot)
      modifies this`snapshot
      ensures View() == Refreshed(c, old(View()), now, load)
      ensures s == Published(View())
    {
      var previous := Alive(snapshot, now);
      var prev := if previous.Some? then previous.value.price else c.min;
      var price := ComputePrice(prev, load.opsLen, load.active, c);
      s := Snapshot(price, now, now + c.refresh, load.opsTotal, load.subsTotal);
      snapshot := Some(Keyed(s, now + c.ttl));
    }

    method GetSnapshot(c: PriceSettings, now: real, load: Load) returns (s: Snapshot)
      modifies this`snapshot
      ensures View() == Current(c, old(View()), now, load)
      ensures s == Published(View())
    {
      var found := Alive(snapshot, now);
      if found.Some? {
        return found.value;
      }
      s := RefreshSnapshot(c, now, load);
    }

    method MaybeRefreshSnapshot(c: PriceSettings, now: real, load: Load) returns (s: Snapshot)
      modifies this`snapshot
      ensures View() == Ticked(c, old(View()), now, load)
      ensures s == Published(View())
    {
      s := GetSnapshot(c, now, load);
      if now >= s.expiresAt {
        s := RefreshSnapshot(c, now, load);
      }
    }

    /** The range script: restart a spread of another window, then widen it by each price. */
    method PriceRange(k: Scope, window: int, ttl: real, base: int, prices: seq<int>, now: real) returns (low: int, high: int)
      requires prices != []
      modifies this`ranges
      ensures ranges == old(ranges)[k := Keyed(Folded(Alive(StoredRange(old(ranges), k), now), window, base, prices), now + ttl)]
      ensures low == ranges[k].value.low && high == ranges[k].value.high
    {
      var stored := Alive(StoredRange(ranges, k), now);
      var s := if stored.Some? && stored.value.window == window then stored.value
               else Spread(window, base, prices[0], prices[0]);
      low, high := s.low, s.high;
      var i := 0;
      while i < |prices|
        invariant 0 <= i <= |prices|
        invariant WidenAll(s.(low := low, high := high), prices[i..]) == WidenAll(s, prices)
      {
        if prices[i] < low {
          low := prices[i];
        }
        if prices[i] > high {
          high := prices[i];
        }
        assert prices[i..][1..] == prices[i + 1..];
        i := i + 1;
      }
      assert prices[i..] == [];
      ranges := ranges[k := Keyed(s.(low := low, high := high), now + ttl)];
    }

    /** Fold the extremes of one group of prices in, if there are any. */
    method ObserveScope(c: PriceSettings, s: Snapshot, prices: seq<int>, k: Scope, now: real)
      modifies this`ranges
      ensures ranges == if prices == [] then old(ranges) else old(ranges)[k := RangeAfter(c, old(ranges), s, prices, k, now)]
    {
      if prices != [] {
        var _, _ := PriceRange(k, WindowOf(s), c.ttl + c.refresh, s.price, [Least(prices), Greatest(prices)], now);
      }
    }

    /** Fold freshly computed prices into the range over all routes and each channel's own;
        only the extremes of each group are sent. */
    method ObservePrices(c: PriceSettings, s: Snapshot, added: seq<Computed>, now: real)
      modifies this`ranges
      ensures ranges == Observed(c, old(ranges), s, added, ScopesOf(added), now)
    {
      ghost var before := ranges;
      ghost var done: set<Scope> := {};
      var left := ScopesOf(added);
      while left != {}
        invariant done !! left && done + left == ScopesOf(added)
        invariant IsObserved(c, before, ranges, s, added, done, now)
        decreases |left|
      {
        var k :| k in left;
        ghost var midway := ranges;
        ObserveScope(c, s, PricesIn(added, WindowOf(s), k), k, now);
        ObservedOneMore(c, before, midway, ranges, s, added, done, k, now);
        done, left := done + {k}, left - {k};
      }
      assert done == ScopesOf(added);
      IsObservedIsObserved(c, before, ranges, s, added, done, now);
    }

    /** The frozen prices among the routes asked for, and the others in order. */
    method SplitServed(routes: seq<Route>, now: real) returns (prices: map<Route, int>, missing: seq<Route>)
      ensures missing == Missing(View(), routes, now)
      ensures forall r :: r in prices <==> r in routes && Served(View(), r, now).Some?
      ensures forall r :: r in prices ==> prices[r] == Served(View(), r, now).value
    {
      prices, missing := map[], [];
      var i := 0;
      while i < |routes|
        invariant 0 <= i <= |routes|
        invariant missing == Missing(View(), routes[..i], now)
        invariant forall r :: r in prices <==> r in routes[..i] && Served(View(), r, now).Some?
        invariant forall r :: r in prices ==> prices[r] == Served(View(), r, now).value
      {
        var r := routes[i];
        assert routes[..i + 1] == routes[..i] + [r] && routes[..i + 1][..i] == routes[..i];
        if r in quotes && now < quotes[r].until && now < quotes[r].value.expiresAt {
          prices := prices[r := quotes[r].value.price];
        } else if r !in missing {
          missing := missing + [r];
        }
        i := i + 1;
      }
      assert routes[..i] == routes;
    }

    /** Price each missing route against one snapshot and freeze the result with it. */
    method FreezePrices(c: PriceSettings, s: Snapshot, missing: seq<Route>, now: real, load: Load) returns (priced: map<Route, int>)
      modifies this`quotes
      ensures quotes == Frozen(c, old(quotes), s, load, missing, now)
      ensures forall r :: r in priced <==> r in missing
      ensures forall r :: r in priced ==> priced[r] == PriceOf(c, s, load, r)
    {
      ghost var before := quotes;
      priced := map[];
      var i := 0;
      assert quotes == Frozen(c, before, s, load, [], now);
      while i < |missing|
        invariant 0 <= i <= |missing|
        invariant quotes == Frozen(c, before, s, load, missing[..i], now)
        invariant forall r :: r in priced <==> r in missing[..i]
        invariant forall r :: r in priced ==> priced[r] == PriceOf(c, s, load, r)
      {
        var r := missing[i];
        var price := RoutePrice(s.price, load.routeOps(r), load.routeSubs(r), s.opsTotal, s.subsTotal, c);
        assert missing[..i + 1] == missing[..i] + [r];
        FrozenOneMore(c, before, s, load, missing[..i], r, now);
        priced := priced[r := price];
        quotes := quotes[r := Keyed(Quote(price, s.expiresAt), now + c.ttl)];
        i := i + 1;
      }
      assert missing[..i] == missing;
    }

    /** The admission price of each route, frozen for the current window. */
    method RoutePrices(c: PriceSettings, routes: seq<Route>, now: real, load: Load) returns (prices: map<Route, int>)
      modifies this
      ensures View() == Asked(c, old(View()), routes, now, load)
      ensures forall r :: r in prices <==> r in routes
      ensures forall r :: r in prices ==> prices[r] == Answer(c, old(View()), routes, now, load, r)
    {
      var missing;
      prices, missing := SplitServed(routes, now);
      if missing == [] {
        return;
      }
      var s := GetSnapshot(c, now, load);
      var priced := FreezePrices(c, s, missing, now, load);
      var added := ComputedFor(c, s, load, missing);
      ObservePrices(c, s, added, now);
      log := log + added;
      prices := prices + priced;
    }

    /** The observed range of one channel or of all routes. */
    method ReadRange(c: PriceSettings, k: Scope, now: real, load: Load) returns (told: Option<(int, int)>)
      modifies this`snapshot
      ensures old(Alive(StoredRange(ranges, k), now)).None? ==> told.None? && snapshot == old(snapshot)
      ensures old(Alive(StoredRange(ranges, k), now)).Some? ==>
                View() == Current(c, old(View()), now, load) && told == RangeRead(c, View(), k, now)
    {
      var stored := Alive(StoredRange(ranges, k), now);
      if stored.None? {
        return None;
      }
      var s := GetSnapshot(c, now, load);
      if stored.value.window == WindowOf(s) {
        return Some((stored.value.low, stored.value.high));
      }
      if stored.value.base <= 0 {
        return None;
      }
      return Some(Rescaled(stored.value.low, stored.value.high, stored.value.base, s.price, c));
    }
  }
}
