/** The price window: one shared snapshot, the route prices frozen until it expires, and the
    spread observed within it. The keys change only by the transitions below, one per call;
    a key past its time to live reads as missing. */
module PriceWindow {
  import opened FeedTypes
  import opened Pricing
  import opened PriceRanges

  /** A key and the moment Redis forgets it. */
  datatype Keyed<T> = Keyed(value: T, until: real)

  datatype Snapshot = Snapshot(price: int, computedAt: real, expiresAt: real, opsTotal: nat, subsTotal: nat)

  datatype Quote = Quote(price: int, expiresAt: real)

  datatype Scope = All | Of(channel: ChannelId)

  /** One route price as it was computed. */
  datatype Computed = Computed(window: int, route: Route, price: int)

  /** The congestion at one moment. */
  datatype Load = Load(opsLen: nat, active: nat, opsTotal: nat, subsTotal: nat, routeOps: Route -> nat, routeSubs: Route -> nat)

  /** The price keys; `log` remembers every route price ever computed. */
  datatype Board = Board(snapshot: Option<Keyed<Snapshot>>, quotes: map<Route, Keyed<Quote>>,
                         ranges: map<Scope, Keyed<Spread>>, log: seq<Computed>)

  function Alive<T>(key: Option<Keyed<T>>, now: real): Option<T> {
    if key.Some? && now < key.value.until then Some(key.value.value) else None
  }

  // ----- the snapshot -----

  /** The next snapshot: one step from the last price, or from the minimum when there is none. */
  function Stepped(c: PriceSettings, b: Board, now: real, load: Load): Snapshot {
    var previous := Alive(b.snapshot, now);
    var prev := if previous.Some? then previous.value.price else c.min;
    Snapshot(ComputePrice(prev, load.opsLen, load.active, c), now, now + c.refresh, load.opsTotal, load.subsTotal)
  }

  function Refreshed(c: PriceSettings, b: Board, now: real, load: Load): Board {
    b.(snapshot := Some(Keyed(Stepped(c, b, now, load), now + c.ttl)))
  }

  /** Reading the snapshot publishes one when there is none. */
  function Current(c: PriceSettings, b: Board, now: real, load: Load): (r: Board)
    ensures r.snapshot.Some?
  {
    if Alive(b.snapshot, now).Some? then b else Refreshed(c, b, now, load)
  }

  function Published(b: Board): Snapshot
    requires b.snapshot.Some?
  {
    b.snapshot.value.value
  }

  /** The refresher's tick: a new snapshot only once the published one has expired. */
  function Ticked(c: PriceSettings, b: Board, now: real, load: Load): (r: Board)
    ensures r.snapshot.Some?
  {
    var current := Current(c, b, now, load);
    if now >= Published(current).expiresAt then Refreshed(c, current, now, load) else current
  }

  // ----- route prices -----

  /** The frozen price of a route, while its window lasts. */
  function Served(b: Board, r: Route, now: real): Option<int> {
    if r in b.quotes && now < b.quotes[r].until && now < b.quotes[r].value.expiresAt then Some(b.quotes[r].value.price) else None
  }

  /** The routes asked for that have no frozen price, each once. */
  function Missing(b: Board, routes: seq<Route>, now: real): (m: seq<Route>)
    ensures forall r :: r in m <==> r in routes && Served(b, r, now).None?
  {
    if routes == [] then []
    else
      var n := |routes| - 1;
      var before := Missing(b, routes[..n], now);
      assert routes == routes[..n] + [routes[n]];
      if Served(b, routes[n], now).Some? || routes[n] in before then before else before + [routes[n]]
  }

  function PriceOf(c: PriceSettings, s: Snapshot, load: Load, r: Route): int {
    RoutePrice(s.price, load.routeOps(r), load.routeSubs(r), s.opsTotal, s.subsTotal, c)
  }

  function WindowOf(s: Snapshot): int {
    s.expiresAt.Floor
  }

  function ComputedFor(c: PriceSettings, s: Snapshot, load: Load, routes: seq<Route>): (added: seq<Computed>)
    ensures |added| == |routes|
    ensures forall i :: 0 <= i < |added| ==> added[i] == Computed(WindowOf(s), routes[i], PriceOf(c, s, load, routes[i]))
  {
    seq(|routes|, i requires 0 <= i < |routes| => Computed(WindowOf(s), routes[i], PriceOf(c, s, load, routes[i])))
  }

  function Frozen(c: PriceSettings, quotes: map<Route, Keyed<Quote>>, s: Snapshot, load: Load,
                  routes: seq<Route>, now: real): map<Route, Keyed<Quote>> {
    quotes + map r | r in routes :: Keyed(Quote(PriceOf(c, s, load, r), s.expiresAt), now + c.ttl)
  }

  predicate Concerns(k: Scope, r: Route) {
    k == All || k == Of(r.channel)
  }

  /** The prices computed in one window within one scope. */
  function PricesIn(log: seq<Computed>, window: int, k: Scope): seq<int> {
    if log == [] then []
    else (if log[0].window == window && Concerns(k, log[0].route) then [log[0].price] else []) + PricesIn(log[1..], window, k)
  }

  function StoredRange(ranges: map<Scope, Keyed<Spread>>, k: Scope): Option<Keyed<Spread>> {
    if k in ranges then Some(ranges[k]) else None
  }

  /** One scope's range after new prices are folded in. */
  function RangeAfter(c: PriceSettings, ranges: map<Scope, Keyed<Spread>>, s: Snapshot, prices: seq<int>,
                      k: Scope, now: real): Keyed<Spread>
    requires prices != []
  {
    Keyed(Folded(Alive(StoredRange(ranges, k), now), WindowOf(s), s.price, [Least(prices), Greatest(prices)]), now + c.ttl + c.refresh)
  }

  function ScopesOf(added: seq<Computed>): set<Scope> {
    (if added == [] then {} else {All}) + set e | e in added :: Of(e.route.channel)
  }

  /** The ranges of some scopes after the new prices that concern each are folded in. */
  function Observed(c: PriceSettings, ranges: map<Scope, Keyed<Spread>>, s: Snapshot, added: seq<Computed>,
                    scopes: set<Scope>, now: real): map<Scope, Keyed<Spread>> {
    ranges + map k | k in scopes && PricesIn(added, WindowOf(s), k) != [] ::
      RangeAfter(c, ranges, s, PricesIn(added, WindowOf(s), k), k, now)
  }

  /** Pricing a list of routes: those without a frozen price are computed against the current
      snapshot, frozen until it expires, and observed. */
  function Asked(c: PriceSettings, b: Board, routes: seq<Route>, now: real, load: Load): Board {
    var missing := Missing(b, routes, now);
    if missing == [] then b
    else
      var current := Current(c, b, now, load);
      var s := Published(current);
      var added := ComputedFor(c, s, load, missing);
      Board(current.snapshot, Frozen(c, b.quotes, s, load, missing, now),
            Observed(c, b.ranges, s, added, ScopesOf(added), now), b.log + added)
  }

  // ----- what every call keeps -----

  predicate SnapshotOk(c: PriceSettings, b: Board, now: real) {
    b.snapshot.Some? ==>
      && Published(b).computedAt <= now
      && Published(b).expiresAt == Published(b).computedAt + c.refresh
      && b.snapshot.value.until == Published(b).computedAt + c.ttl
      && InRange(c, Published(b).price)
  }

  /** A frozen price belongs to the published snapshot's window, or to one that is over. */
  predicate QuoteOk(b: Board, r: Route)
    requires r in b.quotes
  {
    && b.snapshot.Some?
    && b.quotes[r].value.expiresAt <= b.quotes[r].until
    && (b.quotes[r].value.expiresAt == Published(b).expiresAt || b.quotes[r].value.expiresAt <= Published(b).computedAt)
  }

  ghost predicate QuotesOk(b: Board) {
    forall r :: r in b.quotes ==> QuoteOk(b, r)
  }

  /** Logged prices belong to the published window or an earlier one, and those of the
      published window lie in the band around its base. */
  predicate EntryOk(c: PriceSettings, b: Board, e: Computed) {
    && b.snapshot.Some?
    && e.window <= WindowOf(Published(b))
    && (e.window == WindowOf(Published(b)) ==> BandLow(Published(b).price, c) <= e.price <= BandHigh(Published(b).price, c))
  }

  ghost predicate LogOk(c: PriceSettings, b: Board) {
    forall e :: e in b.log ==> EntryOk(c, b, e)
  }

  /** Within the published window a scope's range is exactly the prices computed so far. */
  predicate RangeOk(b: Board, k: Scope)
    requires b.snapshot.Some?
  {
    var prices := PricesIn(b.log, WindowOf(Published(b)), k);
    if prices == [] then k in b.ranges ==> b.ranges[k].value.window < WindowOf(Published(b))
    else
      && k in b.ranges
      && b.ranges[k].value.window == WindowOf(Published(b))
      && b.ranges[k].value.base == Published(b).price
      && Exact(b.ranges[k].value, prices)
      && b.ranges[k].until >= b.snapshot.value.until
  }

  ghost predicate RangesOk(b: Board) {
    if b.snapshot.None? then b.ranges == map[] && b.log == []
    else forall k: Scope :: RangeOk(b, k)
  }

  ghost predicate Sound(c: PriceSettings, b: Board, now: real) {
    SnapshotOk(c, b, now) && QuotesOk(b) && LogOk(c, b) && RangesOk(b)
  }

  lemma {:induction false} NoneOfLaterWindow(log: seq<Computed>, window: int, k: Scope)
    requires forall e :: e in log ==> e.window < window
    ensures PricesIn(log, window, k) == []
  {
    if log != [] {
      assert log[0] in log;
      assert forall e :: e in log[1..] ==> e in log;
      NoneOfLaterWindow(log[1..], window, k);
    }
  }

  /** A refresh after expiry opens a strictly later window, so nothing of the new window has
      been computed yet and every frozen price is over. */
  lemma RefreshKeeps(c: PriceSettings, b: Board, was: real, now: real, load: Load)
    requires ValidPrices(c) && Sound(c, b, was) && was <= now
    requires b.snapshot.Some? ==> now >= Published(b).expiresAt
    ensures Sound(c, Refreshed(c, b, now, load), now)
    ensures b.snapshot.Some? ==> WindowOf(Published(b)) < WindowOf(Published(Refreshed(c, b, now, load)))
  {
    var after := Refreshed(c, b, now, load);
    var window := WindowOf(Published(after));
    var previous := Alive(b.snapshot, now);
    PriceMovesByOne(if previous.Some? then previous.value.price else c.min, load.opsLen, load.active, c);
    forall r | r in after.quotes ensures QuoteOk(after, r) {
      assert QuoteOk(b, r);
    }
    forall e | e in after.log ensures EntryOk(c, after, e) && e.window < window {
      assert EntryOk(c, b, e);
    }
    forall k: Scope ensures RangeOk(after, k) {
      NoneOfLaterWindow(b.log, window, k);
      if b.snapshot.Some? {
        RangeWindowBound(b, k);
      }
    }
  }

  lemma RangeWindowBound(b: Board, k: Scope)
    requires b.snapshot.Some? && RangeOk(b, k)
    ensures k in b.ranges ==> b.ranges[k].value.window <= WindowOf(Published(b))
  {
  }

  lemma LaterIsSound(c: PriceSettings, b: Board, was: real, now: real)
    requires Sound(c, b, was) && was <= now
    ensures Sound(c, b, now)
  {
  }

  /** A snapshot that reads as missing is past its promise. */
  lemma CurrentKeeps(c: PriceSettings, b: Board, was: real, now: real, load: Load)
    requires ValidPrices(c) && Sound(c, b, was) && was <= now
    ensures Sound(c, Current(c, b, now, load), now)
    ensures Alive(Current(c, b, now, load).snapshot, now).Some?
  {
    if Alive(b.snapshot, now).Some? {
      LaterIsSound(c, b, was, now);
    } else {
      RefreshKeeps(c, b, was, now, load);
    }
  }

  lemma TickKeeps(c: PriceSettings, b: Board, was: real, now: real, load: Load)
    requires ValidPrices(c) && Sound(c, b, was) && was <= now
    ensures Sound(c, Ticked(c, b, now, load), now)
  {
    CurrentKeeps(c, b, was, now, load);
    var current := Current(c, b, now, load);
    if now >= Published(current).expiresAt {
      RefreshKeeps(c, current, now, now, load);
    }
  }

  lemma {:induction false} PricesInJoin(log: seq<Computed>, added: seq<Computed>, window: int, k: Scope)
    ensures PricesIn(log + added, window, k) == PricesIn(log, window, k) + PricesIn(added, window, k)
  {
    if log == [] {
      assert log + added == added;
    } else {
      assert (log + added)[1..] == log[1..] + added;
      PricesInJoin(log[1..], added, window, k);
    }
  }

  lemma {:induction false} PricesInScope(added: seq<Computed>, window: int, k: Scope)
    requires PricesIn(added, window, k) != []
    ensures k in ScopesOf(added)
  {
    if added[0].window == window && Concerns(k, added[0].route) {
      assert added[0] in added;
    } else {
      PricesInScope(added[1..], window, k);
      assert forall e :: e in added[1..] ==> e in added;
    }
  }

  /** Folding the extremes of the new prices keeps a range exact for all prices of the window. */
  lemma ObserveKeeps(c: PriceSettings, b: Board, added: seq<Computed>, quotes: map<Route, Keyed<Quote>>, now: real, k: Scope)
    requires ValidPrices(c) && b.snapshot.Some? && RangeOk(b, k) && SnapshotOk(c, b, now) && now < b.snapshot.value.until
    ensures
      var s := Published(b);
      RangeOk(Board(b.snapshot, quotes, Observed(c, b.ranges, s, added, ScopesOf(added), now), b.log + added), k)
  {
    var s := Published(b);
    var window := WindowOf(s);
    var seen, prices := PricesIn(b.log, window, k), PricesIn(added, window, k);
    PricesInJoin(b.log, added, window, k);
    if prices == [] {
      assert seen + prices == seen;
    } else {
      PricesInScope(added, window, k);
      var stored := Alive(StoredRange(b.ranges, k), now);
      FoldedIsExact(stored, window, s.price, seen, prices);
      ExtremesSuffice(stored, window, s.price, prices);
    }
  }

  lemma FreshInBand(c: PriceSettings, s: Snapshot, load: Load, routes: seq<Route>, e: Computed)
    requires ValidPrices(c) && InRange(c, s.price) && e in ComputedFor(c, s, load, routes)
    ensures e.window == WindowOf(s) && BandLow(s.price, c) <= e.price <= BandHigh(s.price, c)
  {
    RoutePriceInBand(s.price, load.routeOps(e.route), load.routeSubs(e.route), s.opsTotal, s.subsTotal, c);
  }

  lemma AskKeeps(c: PriceSettings, b: Board, routes: seq<Route>, was: real, now: real, load: Load)
    requires ValidPrices(c) && Sound(c, b, was) && was <= now
    ensures Sound(c, Asked(c, b, routes, now, load), now)
  {
    var missing := Missing(b, routes, now);
    if missing == [] {
      LaterIsSound(c, b, was, now);
    } else {
      var current := Current(c, b, now, load);
      CurrentKeeps(c, b, was, now, load);
      FreezeKeeps(c, current, missing, now, load);
    }
  }

  lemma FreezeKeeps(c: PriceSettings, b: Board, missing: seq<Route>, now: real, load: Load)
    requires ValidPrices(c) && Sound(c, b, now) && Alive(b.snapshot, now).Some?
    ensures
      var s := Published(b);
      var added := ComputedFor(c, s, load, missing);
      Sound(c, Board(b.snapshot, Frozen(c, b.quotes, s, load, missing, now),
                     Observed(c, b.ranges, s, added, ScopesOf(added), now), b.log + added), now)
  {
    var s := Published(b);
    var added := ComputedFor(c, s, load, missing);
    var quotes := Frozen(c, b.quotes, s, load, missing, now);
    var after := Board(b.snapshot, quotes, Observed(c, b.ranges, s, added, ScopesOf(added), now), b.log + added);
    forall r | r in after.quotes ensures QuoteOk(after, r) {
      assert r !in missing ==> QuoteOk(b, r);
    }
    forall e | e in after.log ensures EntryOk(c, after, e) {
      if e in b.log {
        assert EntryOk(c, b, e);
      } else {
        FreshInBand(c, s, load, missing, e);
      }
    }
    forall k: Scope ensures RangeOk(after, k) {
      ObserveKeeps(c, b, added, quotes, now, k);
    }
  }

  // ----- runs -----

  datatype Call =
    | Tick(now: real, load: Load)
    | Look(now: real, load: Load)
    | Ask(now: real, load: Load, routes: seq<Route>)

  function Next(c: PriceSettings, b: Board, call: Call): Board {
    match call
    case Tick(now, load) => Ticked(c, b, now, load)
    case Look(now, load) => Current(c, b, now, load)
    case Ask(now, load, routes) => Asked(c, b, routes, now, load)
  }

  /** Calls come in order of time. */
  predicate Timely(start: real, calls: seq<Call>)
    decreases |calls|
  {
    calls != [] ==> calls[0].now >= start && Timely(calls[0].now, calls[1..])
  }

  function Finish(start: real, calls: seq<Call>): real {
    if calls == [] then start else calls[|calls| - 1].now
  }

  function End(c: PriceSettings, b: Board, calls: seq<Call>): Board
    decreases |calls|
  {
    if calls == [] then b else End(c, Next(c, b, calls[0]), calls[1..])
  }

  lemma StepKeeps(c: PriceSettings, b: Board, was: real, call: Call)
    requires ValidPrices(c) && Sound(c, b, was) && was <= call.now
    ensures Sound(c, Next(c, b, call), call.now)
  {
    match call
    case Tick(now, load) => TickKeeps(c, b, was, now, load);
    case Look(now, load) => CurrentKeeps(c, b, was, now, load);
    case Ask(now, load, routes) => AskKeeps(c, b, routes, was, now, load);
  }

  lemma {:induction false} RunKeeps(c: PriceSettings, b: Board, start: real, calls: seq<Call>)
    requires ValidPrices(c) && Sound(c, b, start) && Timely(start, calls)
    ensures Sound(c, End(c, b, calls), Finish(start, calls))
    decreases |calls|
  {
    if calls != [] {
      StepKeeps(c, b, start, calls[0]);
      RunKeeps(c, Next(c, b, calls[0]), calls[0].now, calls[1..]);
    }
  }

  function EmptyBoard(): Board {
    Board(None, map[], map[], [])
  }

  /** Every run from empty keys keeps the window sound, so the results below hold of it. */
  lemma EveryRunIsSound(c: PriceSettings, start: real, calls: seq<Call>, now: real)
    requires ValidPrices(c) && Timely(start, calls) && Finish(start, calls) <= now
    ensures Sound(c, End(c, EmptyBoard(), calls), now)
  {
    assert Sound(c, EmptyBoard(), start);
    RunKeeps(c, EmptyBoard(), start, calls);
    LaterIsSound(c, End(c, EmptyBoard(), calls), Finish(start, calls), now);
  }

  // ----- a quote is what is charged -----

  /** The price a call answers for a route it was asked about. */
  function Answer(c: PriceSettings, b: Board, routes: seq<Route>, now: real, load: Load, r: Route): int
    requires r in routes
  {
    if Served(b, r, now).Some? then Served(b, r, now).value
    else PriceOf(c, Published(Current(c, b, now, load)), load, r)
  }

  /** No price asked is negative. */
  predicate NonNegative(b: Board) {
    forall r :: r in b.quotes ==> b.quotes[r].value.price >= 0
  }

  lemma AskedNonNegative(c: PriceSettings, b: Board, routes: seq<Route>, now: real, load: Load)
    requires ValidPrices(c) && NonNegative(b)
    ensures NonNegative(Asked(c, b, routes, now, load))
    ensures forall r :: r in routes ==> Answer(c, b, routes, now, load, r) >= 0
  {
  }

  /** A route's price is held until `expires`. */
  predicate Holds(b: Board, r: Route, price: int, expires: real) {
    r in b.quotes && b.quotes[r].value == Quote(price, expires) && b.quotes[r].until >= expires
  }

  lemma AskHolds(c: PriceSettings, b: Board, was: real, routes: seq<Route>, now: real, load: Load, r: Route)
    requires ValidPrices(c) && Sound(c, b, was) && was <= now && r in routes
    requires now < Published(Current(c, b, now, load)).expiresAt
    ensures Holds(Asked(c, b, routes, now, load), r, Answer(c, b, routes, now, load, r), Published(Current(c, b, now, load)).expiresAt)
  {
    CurrentKeeps(c, b, was, now, load);
    if Served(b, r, now).Some? {
      assert QuoteOk(b, r);
    } else {
      assert r in Missing(b, routes, now);
    }
  }

  lemma CallHolds(c: PriceSettings, b: Board, call: Call, r: Route, price: int, expires: real)
    requires Holds(b, r, price, expires) && call.now < expires
    ensures Holds(Next(c, b, call), r, price, expires)
  {
    if call.Ask? {
      assert r !in Missing(b, call.routes, call.now);
    }
  }

  lemma {:induction false} RunHolds(c: PriceSettings, b: Board, start: real, calls: seq<Call>, r: Route, price: int, expires: real)
    requires Holds(b, r, price, expires) && Timely(start, calls) && Finish(start, calls) < expires
    ensures Holds(End(c, b, calls), r, price, expires)
    decreases |calls|
  {
    if calls != [] {
      TimelyReaches(calls[0].now, calls[1..]);
      CallHolds(c, b, calls[0], r, price, expires);
      RunHolds(c, Next(c, b, calls[0]), calls[0].now, calls[1..], r, price, expires);
    }
  }

  lemma {:induction false} TimelyReaches(start: real, calls: seq<Call>)
    requires Timely(start, calls)
    ensures start <= Finish(start, calls)
    decreases |calls|
  {
    if calls != [] {
      TimelyReaches(calls[0].now, calls[1..]);
    }
  }

  /** A quote is what is charged: once a route is answered with a price while the snapshot
      expires at some moment, every later answer before that moment is the same price,
      whatever else is called and however backlog and audience move. */
  lemma QuoteIsCharged(c: PriceSettings, b: Board, was: real, routes: seq<Route>, now: real, load: Load, r: Route,
                       calls: seq<Call>, again: seq<Route>, later: real, laterLoad: Load)
    requires ValidPrices(c) && Sound(c, b, was) && was <= now && r in routes && r in again
    requires Timely(now, calls) && Finish(now, calls) <= later < Published(Current(c, b, now, load)).expiresAt
    ensures Answer(c, End(c, Asked(c, b, routes, now, load), calls), again, later, laterLoad, r) == Answer(c, b, routes, now, load, r)
  {
    TimelyReaches(now, calls);
    AskHolds(c, b, was, routes, now, load, r);
    RunHolds(c, Asked(c, b, routes, now, load), now, calls, r, Answer(c, b, routes, now, load, r),
             Published(Current(c, b, now, load)).expiresAt);
  }

  // ----- forgetting -----

  /** Once no call came for a whole time to live, the price has been forgotten: the next one
      is the minimum or one above it. */
  lemma SilenceForgets(c: PriceSettings, b: Board, was: real, now: real, load: Load)
    requires ValidPrices(c) && Sound(c, b, was) && was + c.ttl <= now
    ensures c.min <= Published(Current(c, b, now, load)).price <= c.min + 1
  {
    PriceMovesByOne(c.min, load.opsLen, load.active, c);
  }

  // ----- reading the range -----

  /** What a reader is told: the window's own spread, or an earlier one rescaled. */
  function RangeRead(c: PriceSettings, b: Board, k: Scope, now: real): Option<(int, int)>
    requires b.snapshot.Some?
  {
    var stored := Alive(StoredRange(b.ranges, k), now);
    if stored.None? then None
    else if stored.value.window == WindowOf(Published(b)) then Some((stored.value.low, stored.value.high))
    else if stored.value.base <= 0 then None
    else Some(Rescaled(stored.value.low, stored.value.high, stored.value.base, Published(b).price, c))
  }

  /** The observed range is the exact least and greatest of every price computed in the window
      so far. */
  lemma RangeIsExact(c: PriceSettings, b: Board, k: Scope, now: real)
    requires Sound(c, b, now) && Alive(b.snapshot, now).Some?
    requires PricesIn(b.log, WindowOf(Published(b)), k) != []
    ensures
      var prices := PricesIn(b.log, WindowOf(Published(b)), k);
      RangeRead(c, b, k, now) == Some((Least(prices), Greatest(prices)))
  {
    StoredRangeIsRead(c, b, k, now);
  }

  /** Whatever was called since the keys were empty, in order of time. */
  lemma EveryRangeIsExact(c: PriceSettings, start: real, calls: seq<Call>, k: Scope, now: real)
    requires ValidPrices(c) && Timely(start, calls) && Finish(start, calls) <= now
    ensures
      var b := End(c, EmptyBoard(), calls);
      Alive(b.snapshot, now).Some? && PricesIn(b.log, WindowOf(Published(b)), k) != [] ==>
        var prices := PricesIn(b.log, WindowOf(Published(b)), k);
        RangeRead(c, b, k, now) == Some((Least(prices), Greatest(prices)))
  {
    var b := End(c, EmptyBoard(), calls);
    EveryRunIsSound(c, start, calls, now);
    if Alive(b.snapshot, now).Some? && PricesIn(b.log, WindowOf(Published(b)), k) != [] {
      RangeIsExact(c, b, k, now);
    }
  }

  lemma StoredRangeIsRead(c: PriceSettings, b: Board, k: Scope, now: real)
    requires b.snapshot.Some? && RangeOk(b, k) && now < b.snapshot.value.until
    requires PricesIn(b.log, WindowOf(Published(b)), k) != []
    ensures
      var prices := PricesIn(b.log, WindowOf(Published(b)), k);
      RangeRead(c, b, k, now) == Some((Least(prices), Greatest(prices)))
  {
    ExactIsExtremes(b.ranges[k].value, PricesIn(b.log, WindowOf(Published(b)), k));
  }

  /** And those prices lie within the rounded band around the base. */
  lemma RangeInBand(c: PriceSettings, b: Board, k: Scope, price: int)
    requires LogOk(c, b) && b.snapshot.Some? && price in PricesIn(b.log, WindowOf(Published(b)), k)
    ensures BandLow(Published(b).price, c) <= price <= BandHigh(Published(b).price, c)
  {
    var window := WindowOf(Published(b));
    PricesAreLogged(b.log, window, k, price);
    var e :| e in b.log && e.window == window && Concerns(k, e.route) && e.price == price;
    assert EntryOk(c, b, e);
  }

  /** With no price computed in the window, a range told at all is an earlier one rescaled,
      and holds the current base. */
  lemma CarriedRangeHoldsBase(c: PriceSettings, b: Board, k: Scope, now: real)
    requires ValidPrices(c) && SnapshotOk(c, b, now) && RangesOk(b) && b.snapshot.Some?
    requires PricesIn(b.log, WindowOf(Published(b)), k) == [] && RangeRead(c, b, k, now).Some?
    ensures
      var told := RangeRead(c, b, k, now).value;
      c.min <= told.0 <= Published(b).price <= told.1 <= c.max
  {
    assert RangeOk(b, k);
  }

  lemma {:induction false} PricesAreLogged(log: seq<Computed>, window: int, k: Scope, price: int)
    ensures price in PricesIn(log, window, k) <==>
              exists e :: e in log && e.window == window && Concerns(k, e.route) && e.price == price
  {
    if log != [] {
      assert forall e :: e in log <==> e == log[0] || e in log[1..];
      PricesAreLogged(log[1..], window, k, price);
    }
  }

  /** A channel's range lies within the range over all routes. */
  lemma ChannelWithinAll(c: PriceSettings, b: Board, ch: ChannelId, now: real)
    requires Sound(c, b, now) && Alive(b.snapshot, now).Some?
    requires PricesIn(b.log, WindowOf(Published(b)), Of(ch)) != []
    ensures
      var one, all := RangeRead(c, b, Of(ch), now), RangeRead(c, b, All, now);
      one.Some? && all.Some? && all.value.0 <= one.value.0 && one.value.1 <= all.value.1
  {
    var window := WindowOf(Published(b));
    var prices := PricesIn(b.log, window, Of(ch));
    forall p | p in prices ensures p in PricesIn(b.log, window, All) {
      PricesAreLogged(b.log, window, Of(ch), p);
      PricesAreLogged(b.log, window, All, p);
    }
    assert Least(prices) in prices && Greatest(prices) in prices;
    RangeIsExact(c, b, Of(ch), now);
    RangeIsExact(c, b, All, now);
  }
}
