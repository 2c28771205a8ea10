/** The price operations command by command: any number of price requests and refreshers
    overlap, each reading, computing, writing back and observing in separate commands.
    `published`, `seen` and the `recall` of a refresh are history: no command reads them. */
module PriceRace {
  import opened FeedTypes
  import opened PriceRanges
  import opened Pricing
  import opened PriceWindow

  /** How many snapshots had been set when the last price was read for a refresh, and when. */
  datatype Recall = Recall(after: nat, at: real)

  /** The next command of a request. `missing` are the routes it still has to price. */
  datatype Pc =
    | Looking(at: real, routes: seq<Route>)
    | Fetching(missing: seq<Route>)
    | Checking(at: real)
    | Clocking(missing: seq<Route>)
    | Recalling(at: real, missing: seq<Route>)
    | Stepping(at: real, last: int, recall: Recall, missing: seq<Route>)
    | Publishing(s: Snapshot, recall: Recall, missing: seq<Route>)
    | Sizing(s: Snapshot, missing: seq<Route>)
    | Freezing(s: Snapshot, todo: seq<(Route, int)>, added: seq<Computed>)
    | Observing(s: Snapshot, scopes: seq<Scope>, added: seq<Computed>)
    | Done

  /** A request with the prices it is going to answer. */
  datatype Request = Request(prices: map<Route, int>, pc: Pc)

  /** A snapshot as it was set at `at`, stepped from the price read at `recall`. */
  datatype Publication = Publication(snap: Snapshot, recall: Recall, at: real)

  /** The price keys, the requests, and as history every snapshot set and the prices folded
      into each range, in order. */
  datatype State = State(now: real, snapshot: Option<Keyed<Snapshot>>, quotes: map<Route, Keyed<Quote>>,
                         ranges: map<Scope, Keyed<Spread>>, requests: map<nat, Request>,
                         published: seq<Publication>, seen: map<Scope, seq<Computed>>)

  /** What a request is for: prices, the snapshot alone, or a refresher's tick. */
  datatype Opening = PriceRoutes(routes: seq<Route>) | ReadSnapshot | RefresherTick

  /** `load` answers whatever the command reads outside the price keys. */
  datatype Step =
    | Begin(id: nat, opening: Opening)
    | Proceed(id: nat, load: Load)
    | Pass(elapsed: real)

  // ----- commands -----

  /** The frozen price a look at time `at` finds: the key must be there, and not over by the
      clock of the request. */
  function Found(s: State, r: Route, at: real): Option<int> {
    if r in s.quotes && s.now < s.quotes[r].until && at < s.quotes[r].value.expiresAt
    then Some(s.quotes[r].value.price) else None
  }

  /** The routes asked for that are not found, each once. */
  function Missed(s: State, routes: seq<Route>, at: real): (m: seq<Route>)
    ensures forall r :: r in m <==> r in routes && Found(s, r, at).None?
  {
    if routes == [] then []
    else
      var n := |routes| - 1;
      var before := Missed(s, routes[..n], at);
      assert routes == routes[..n] + [routes[n]];
      if Found(s, routes[n], at).Some? || routes[n] in before then before else before + [routes[n]]
  }

  function Opened(s: State, o: Opening): Pc {
    match o
    case PriceRoutes(routes) => Looking(s.now, routes)
    case ReadSnapshot => Fetching([])
    case RefresherTick => Checking(s.now)
  }

  /** With a snapshot in hand: price what is missing, if anything. */
  function Onward(s: Snapshot, missing: seq<Route>): Pc {
    if missing == [] then Done else Sizing(s, missing)
  }

  function Priced(c: PriceSettings, s: Snapshot, load: Load, missing: seq<Route>): (todo: seq<(Route, int)>)
    ensures |todo| == |missing|
    ensures forall i :: 0 <= i < |missing| ==> todo[i] == (missing[i], PriceOf(c, s, load, missing[i]))
  {
    seq(|missing|, i requires 0 <= i < |missing| => (missing[i], PriceOf(c, s, load, missing[i])))
  }

  /** The channels of these prices, each once, in the order they first come. */
  function ChannelOrder(added: seq<Computed>): (order: seq<ChannelId>)
    ensures Distinct(order) && forall ch :: ch in order <==> exists e :: e in added && e.route.channel == ch
  {
    if added == [] then []
    else
      var n := |added| - 1;
      var before := ChannelOrder(added[..n]);
      assert added == added[..n] + [added[n]];
      if added[n].route.channel in before then before else before + [added[n].route.channel]
  }

  function OwnScopes(channels: seq<ChannelId>): (order: seq<Scope>)
    ensures Distinct(channels) ==> Distinct(order)
    ensures forall k :: k in order <==> k.Of? && k.channel in channels
  {
    if channels == [] then []
    else
      assert channels == [channels[0]] + channels[1..];
      [Of(channels[0])] + OwnScopes(channels[1..])
  }

  /** The ranges these prices are folded into: over all routes first, then each channel's own. */
  function ScopeOrder(added: seq<Computed>): (order: seq<Scope>)
    ensures Distinct(order) && forall k :: k in order <==> k in ScopesOf(added)
  {
    var own := OwnScopes(ChannelOrder(added));
    assert forall i :: 0 <= i < |own| ==> own[i] in own;
    if added == [] then [] else [All] + own
  }

  function SeenBy(s: State, k: Scope): seq<Computed> {
    if k in s.seen then s.seen[k] else []
  }

  /** The `price_range` script for one scope. */
  function Observes(c: PriceSettings, s: State, snap: Snapshot, added: seq<Computed>, k: Scope): State {
    var prices := PricesIn(added, WindowOf(snap), k);
    if prices == [] then s
    else s.(ranges := s.ranges[k := RangeAfter(c, s.ranges, snap, prices, k, s.now)], seen := s.seen[k := SeenBy(s, k) + added])
  }

  /** Where a request goes next, and the prices it then has. */
  function NextPc(c: PriceSettings, s: State, q: Request, load: Load): Request {
    match q.pc
    case Looking(at, routes) =>
      var missing := Missed(s, routes, at);
      Request(map r | r in routes && Found(s, r, at).Some? :: Found(s, r, at).value,
              if missing == [] then Done else Fetching(missing))
    case Fetching(missing) =>
      var found := Alive(s.snapshot, s.now);
      q.(pc := if found.Some? then Onward(found.value, missing) else Clocking(missing))
    case Checking(at) =>
      var found := Alive(s.snapshot, s.now);
      q.(pc := if found.None? then Clocking([])
               else if at >= found.value.expiresAt then Recalling(at, []) else Done)
    case Clocking(missing) => q.(pc := Recalling(s.now, missing))
    case Recalling(at, missing) =>
      var found := Alive(s.snapshot, s.now);
      q.(pc := Stepping(at, if found.Some? then found.value.price else c.min, Recall(|s.published|, s.now), missing))
    case Stepping(at, last, recall, missing) =>
      var price := ComputePrice(last, load.opsLen, load.active, c);
      q.(pc := Publishing(Snapshot(price, at, at + c.refresh, load.opsTotal, load.subsTotal), recall, missing))
    case Publishing(snap, _, missing) => q.(pc := Onward(snap, missing))
    case Sizing(snap, missing) =>
      Request(q.prices + map r | r in missing :: PriceOf(c, snap, load, r),
              Freezing(snap, Priced(c, snap, load, missing), ComputedFor(c, snap, load, missing)))
    case Freezing(snap, todo, added) =>
      q.(pc := if todo == [] then Observing(snap, ScopeOrder(added), added) else Freezing(snap, todo[1..], added))
    case Observing(snap, scopes, added) => q.(pc := if scopes == [] then Done else Observing(snap, scopes[1..], added))
    case Done => q
  }

  /** What a command writes. */
  function Written(c: PriceSettings, s: State, pc: Pc): (t: State)
    ensures t.now == s.now && t.requests == s.requests
    ensures !pc.Publishing? ==> t.snapshot == s.snapshot && t.published == s.published
    ensures !pc.Freezing? ==> t.quotes == s.quotes
    ensures !pc.Observing? ==> t.ranges == s.ranges && t.seen == s.seen
  {
    match pc
    case Publishing(snap, recall, _) =>
      s.(snapshot := Some(Keyed(snap, s.now + c.ttl)), published := s.published + [Publication(snap, recall, s.now)])
    case Observing(snap, scopes, added) => if scopes == [] then s else Observes(c, s, snap, added, scopes[0])
    case Freezing(snap, todo, _) =>
      if todo == [] then s
      else s.(quotes := s.quotes[todo[0].0 := Keyed(Quote(todo[0].1, snap.expiresAt), s.now + c.ttl)])
    case _ => s
  }

  predicate Enabled(s: State, step: Step) {
    match step
    case Begin(id, _) => id !in s.requests
    case Proceed(id, _) => id in s.requests
    case Pass(elapsed) => elapsed >= 0.0
  }

  function AfterStep(c: PriceSettings, s: State, step: Step): State
    requires Enabled(s, step)
  {
    match step
    case Begin(id, o) => s.(requests := s.requests[id := Request(map[], Opened(s, o))])
    case Proceed(id, load) =>
      Written(c, s, s.requests[id].pc).(requests := s.requests[id := NextPc(c, s, s.requests[id], load)])
    case Pass(elapsed) => s.(now := s.now + elapsed)
  }

  predicate Init(s: State) {
    s.snapshot == None && s.quotes == map[] && s.ranges == map[] && s.requests == map[] && s.published == [] && s.seen == map[]
  }

  ghost predicate Leads(c: PriceSettings, s: State, steps: seq<Step>, t: State)
    decreases |steps|
  {
    if steps == [] then s == t
    else Enabled(s, steps[0]) && Leads(c, AfterStep(c, s, steps[0]), steps[1..], t)
  }

  ghost predicate Reachable(c: PriceSettings, t: State) {
    exists s, steps :: Init(s) && Leads(c, s, steps, t)
  }

  // ----- what every command keeps -----

  predicate SnapshotOk(c: PriceSettings, now: real, s: Snapshot) {
    s.computedAt <= now && s.expiresAt == s.computedAt + c.refresh && InRange(c, s.price)
  }

  predicate OfWindow(window: int, added: seq<Computed>) {
    forall e :: e in added ==> e.window == window
  }

  predicate PcOk(c: PriceSettings, now: real, q: Request) {
    match q.pc
    case Looking(at, _) => at <= now
    case Checking(at) => at <= now
    case Recalling(at, _) => at <= now
    case Stepping(at, last, recall, _) => at <= now && recall.at <= now && InRange(c, last)
    case Publishing(s, recall, _) => SnapshotOk(c, now, s) && recall.at <= now
    case Sizing(s, _) => SnapshotOk(c, now, s)
    case Observing(s, _, added) => SnapshotOk(c, now, s) && OfWindow(WindowOf(s), added)
    case Freezing(s, todo, added) =>
      SnapshotOk(c, now, s) && OfWindow(WindowOf(s), added) && forall e :: e in todo ==> e.0 in q.prices && q.prices[e.0] == e.1 && InRange(c, e.1)
    case _ => true
  }

  predicate RequestsOk(c: PriceSettings, now: real, requests: map<nat, Request>) {
    forall id :: id in requests ==> PcOk(c, now, requests[id])
  }

  /** Keys outlive the moments promised in them. */
  predicate KeysOk(c: PriceSettings, s: State) {
    && (s.snapshot.Some? ==>
          SnapshotOk(c, s.now, s.snapshot.value.value) && s.snapshot.value.until >= s.snapshot.value.value.computedAt + c.ttl)
    && (forall r :: r in s.quotes ==> s.quotes[r].value.expiresAt <= s.quotes[r].until && InRange(c, s.quotes[r].value.price))
  }

  predicate Kept(c: PriceSettings, s: State) {
    KeysOk(c, s) && RequestsOk(c, s.now, s.requests)
  }

  lemma NextPcOk(c: PriceSettings, s: State, q: Request, load: Load)
    requires ValidPrices(c) && KeysOk(c, s) && PcOk(c, s.now, q)
    ensures PcOk(c, s.now, NextPc(c, s, q, load))
  {
    var next := NextPc(c, s, q, load);
    if q.pc.Stepping? {
      PriceMovesByOne(q.pc.last, load.opsLen, load.active, c);
    } else if q.pc.Sizing? {
      forall e | e in next.pc.todo ensures e.0 in next.prices && next.prices[e.0] == e.1 && InRange(c, e.1) {
        var i :| 0 <= i < |q.pc.missing| && next.pc.todo[i] == e;
        assert q.pc.missing[i] in q.pc.missing;
      }
    } else if q.pc.Freezing? && q.pc.todo != [] {
      assert forall e :: e in q.pc.todo[1..] ==> e in q.pc.todo;
    }
  }

  lemma StepKept(c: PriceSettings, s: State, step: Step)
    requires ValidPrices(c) && Kept(c, s) && Enabled(s, step)
    ensures Kept(c, AfterStep(c, s, step))
  {
    var t := AfterStep(c, s, step);
    match step {
      case Begin(id, o) =>
      case Proceed(id, load) =>
        assert PcOk(c, s.now, s.requests[id]);
        NextPcOk(c, s, s.requests[id], load);
      case Pass(elapsed) =>
        forall id | id in t.requests ensures PcOk(c, t.now, t.requests[id]) {
          assert PcOk(c, s.now, s.requests[id]);
        }
    }
  }

  lemma {:induction false} RunKept(c: PriceSettings, s: State, steps: seq<Step>, t: State)
    requires ValidPrices(c) && Kept(c, s) && Leads(c, s, steps, t)
    ensures Kept(c, t)
    decreases |steps|
  {
    if steps != [] {
      StepKept(c, s, steps[0]);
      RunKept(c, AfterStep(c, s, steps[0]), steps[1..], t);
    }
  }

  lemma ReachableKept(c: PriceSettings, t: State)
    requires ValidPrices(c) && Reachable(c, t)
    ensures Kept(c, t)
  {
    var s, steps :| Init(s) && Leads(c, s, steps, t);
    RunKept(c, s, steps, t);
  }

  /** However requests overlap, every base price and every frozen price is within the bounds. */
  lemma PricesStayInRange(c: PriceSettings, t: State)
    requires ValidPrices(c) && Reachable(c, t)
    ensures t.snapshot.Some? ==> InRange(c, t.snapshot.value.value.price)
    ensures forall r :: r in t.quotes ==> InRange(c, t.quotes[r].value.price)
  {
    ReachableKept(c, t);
  }

  // ----- how long a quote stands -----

  /** As the keys are, a route costs `price` until `expires`. */
  predicate Stands(s: State, r: Route, price: int, expires: real) {
    && r in s.quotes && s.quotes[r].value.price == price
    && expires <= s.quotes[r].value.expiresAt && expires <= s.quotes[r].until
  }

  function Later(s: State, now: real): State {
    s.(now := now)
  }

  /** That is: as long as nobody writes, every look before then finds that price. */
  lemma StandingIsFound(s: State, r: Route, price: int, expires: real)
    requires s.now < expires
    ensures Stands(s, r, price, expires) <==>
              forall m: real :: s.now <= m < expires ==> Found(Later(s, m), r, m) == Some(price)
  {
    if !Stands(s, r, price, expires) {
      var over := if r !in s.quotes then s.now
                  else if s.quotes[r].value.expiresAt < s.quotes[r].until then s.quotes[r].value.expiresAt
                  else s.quotes[r].until;
      var m := if over > s.now && r in s.quotes && s.quotes[r].value.price == price then over else s.now;
      assert Found(Later(s, m), r, m) != Some(price);
    }
  }

  /** A request that answers a price it found, or has just frozen, leaves it standing until the
      expiry written with it. */
  lemma AnsweredStands(c: PriceSettings, s: State, id: nat, load: Load, r: Route)
    requires ValidPrices(c) && Reachable(c, s) && id in s.requests
    ensures
      var pc, t := s.requests[id].pc, AfterStep(c, s, Proceed(id, load));
      && (pc.Looking? && r in pc.routes && Found(s, r, pc.at).Some? ==>
            && r in t.requests[id].prices
            && Stands(t, r, t.requests[id].prices[r], s.quotes[r].value.expiresAt))
      && (pc.Freezing? && pc.todo != [] && pc.todo[0].0 == r ==>
            && r in t.requests[id].prices
            && Stands(t, r, t.requests[id].prices[r], pc.s.expiresAt))
  {
    ReachableKept(c, s);
    assert PcOk(c, s.now, s.requests[id]);
    var pc := s.requests[id].pc;
    if pc.Freezing? && pc.todo != [] {
      assert pc.todo[0] in pc.todo;
    }
  }

  /** And while it stands, that price is what a request is answered. */
  lemma StandingIsAnswered(c: PriceSettings, s: State, id: nat, load: Load, r: Route, price: int, expires: real)
    requires ValidPrices(c) && Reachable(c, s) && id in s.requests && s.requests[id].pc.Looking? && r in s.requests[id].pc.routes
    requires Stands(s, r, price, expires) && s.now < expires
    ensures
      var q := AfterStep(c, s, Proceed(id, load)).requests[id];
      r in q.prices && q.prices[r] == price && !Misses(q.pc, r)
  {
    ReachableKept(c, s);
    assert PcOk(c, s.now, s.requests[id]);
    assert Found(s, r, s.requests[id].pc.at) == Some(price);
  }

  /** The request has looked for the route in vain and not written it yet. */
  predicate Misses(pc: Pc, r: Route) {
    match pc
    case Fetching(missing) => r in missing
    case Clocking(missing) => r in missing
    case Recalling(_, missing) => r in missing
    case Stepping(_, _, _, missing) => r in missing
    case Publishing(_, _, missing) => r in missing
    case Sizing(_, missing) => r in missing
    case Freezing(_, todo, _) => exists e :: e in todo && e.0 == r
    case _ => false
  }

  function Missers(s: State, r: Route): set<nat> {
    set id | id in s.requests && Misses(s.requests[id].pc, r)
  }

  /** The step writes the route back with another price, or with an earlier expiry. */
  predicate Rewrites(s: State, step: Step, r: Route, price: int, expires: real) {
    && step.Proceed? && step.id in s.requests && s.requests[step.id].pc.Freezing?
    && s.requests[step.id].pc.todo != []
    && s.requests[step.id].pc.todo[0].0 == r
    && (s.requests[step.id].pc.todo[0].1 != price || s.requests[step.id].pc.s.expiresAt < expires)
  }

  /** Along the run the price stands in every state before its expiry. */
  ghost predicate AlwaysStands(c: PriceSettings, s: State, steps: seq<Step>, r: Route, price: int, expires: real)
    decreases |steps|
  {
    && (s.now < expires ==> Stands(s, r, price, expires))
    && (steps != [] ==> Enabled(s, steps[0]) && AlwaysStands(c, AfterStep(c, s, steps[0]), steps[1..], r, price, expires))
  }

  /** Along the run none of these requests rewrites the route before that expiry. */
  ghost predicate NeverRewritten(c: PriceSettings, s: State, steps: seq<Step>, ids: set<nat>, r: Route, price: int, expires: real)
    decreases |steps|
  {
    steps != [] ==>
      && Enabled(s, steps[0])
      && !(s.now < expires && Rewrites(s, steps[0], r, price, expires) && steps[0].id in ids)
      && NeverRewritten(c, AfterStep(c, s, steps[0]), steps[1..], ids, r, price, expires)
  }

  lemma MissesOn(c: PriceSettings, s: State, q: Request, load: Load, r: Route, price: int, expires: real)
    requires Kept(c, s) && PcOk(c, s.now, q) && Stands(s, r, price, expires) && s.now < expires
    ensures Misses(NextPc(c, s, q, load).pc, r) ==> Misses(q.pc, r)
  {
    var next := NextPc(c, s, q, load);
    if q.pc.Looking? {
      assert Found(s, r, q.pc.at).Some?;
    } else if q.pc.Sizing? && Misses(next.pc, r) {
      var e :| e in next.pc.todo && e.0 == r;
      var i :| 0 <= i < |q.pc.missing| && next.pc.todo[i] == e;
      assert q.pc.missing[i] in q.pc.missing;
    } else if q.pc.Freezing? && q.pc.todo != [] && Misses(next.pc, r) {
      var e :| e in q.pc.todo[1..] && e.0 == r;
      assert e in q.pc.todo;
    }
  }

  /** While the price stands, nobody new misses the route. */
  lemma StandingKeepsMissers(c: PriceSettings, s: State, step: Step, r: Route, price: int, expires: real)
    requires Kept(c, s) && Enabled(s, step) && Stands(s, r, price, expires) && s.now < expires
    ensures Missers(AfterStep(c, s, step), r) <= Missers(s, r)
  {
    var t := AfterStep(c, s, step);
    forall id | id in Missers(t, r) ensures id in Missers(s, r) {
      if step.Proceed? && step.id == id {
        assert PcOk(c, s.now, s.requests[id]);
        MissesOn(c, s, s.requests[id], step.load, r, price, expires);
      }
    }
  }

  /** Only such a write ends the standing, and it always does. */
  lemma RewriteEndsStanding(c: PriceSettings, s: State, step: Step, r: Route, price: int, expires: real)
    requires ValidPrices(c) && Kept(c, s) && Enabled(s, step) && Stands(s, r, price, expires) && s.now < expires
    ensures Stands(AfterStep(c, s, step), r, price, expires) <==> !Rewrites(s, step, r, price, expires)
    ensures Rewrites(s, step, r, price, expires) ==> step.id in Missers(s, r) && AfterStep(c, s, step).now == s.now
  {
    if step.Proceed? {
      assert PcOk(c, s.now, s.requests[step.id]);
      var pc := s.requests[step.id].pc;
      if pc.Freezing? && pc.todo != [] {
        assert pc.todo[0] in pc.todo;
      }
    }
  }

  lemma {:induction false} OverIsOver(c: PriceSettings, s: State, steps: seq<Step>, t: State, ids: set<nat>, r: Route, price: int, expires: real)
    requires Leads(c, s, steps, t) && s.now >= expires
    ensures AlwaysStands(c, s, steps, r, price, expires) && NeverRewritten(c, s, steps, ids, r, price, expires)
    decreases |steps|
  {
    if steps != [] {
      OverIsOver(c, AfterStep(c, s, steps[0]), steps[1..], t, ids, r, price, expires);
    }
  }

  lemma {:induction false} StandsUnlessRewritten(c: PriceSettings, s: State, steps: seq<Step>, t: State, ids: set<nat>,
                                                 r: Route, price: int, expires: real)
    requires ValidPrices(c) && Kept(c, s) && Leads(c, s, steps, t)
    requires s.now < expires ==> Stands(s, r, price, expires) && Missers(s, r) <= ids
    ensures AlwaysStands(c, s, steps, r, price, expires) <==> NeverRewritten(c, s, steps, ids, r, price, expires)
    decreases |steps|
  {
    if s.now >= expires {
      OverIsOver(c, s, steps, t, ids, r, price, expires);
    } else if steps != [] {
      var u := AfterStep(c, s, steps[0]);
      StepKept(c, s, steps[0]);
      RewriteEndsStanding(c, s, steps[0], r, price, expires);
      StandingKeepsMissers(c, s, steps[0], r, price, expires);
      if !Rewrites(s, steps[0], r, price, expires) {
        StandsUnlessRewritten(c, u, steps[1..], t, ids, r, price, expires);
      }
    }
  }

  /** However requests overlap, a price that stands stays the price of its route until it
      expires if and only if no request that had already missed the route by then rewrites it
      in the meantime. */
  lemma QuoteStands(c: PriceSettings, s: State, steps: seq<Step>, t: State, r: Route, price: int, expires: real)
    requires ValidPrices(c) && Reachable(c, s) && Leads(c, s, steps, t) && Stands(s, r, price, expires)
    ensures AlwaysStands(c, s, steps, r, price, expires) <==>
              NeverRewritten(c, s, steps, Missers(s, r), r, price, expires)
  {
    ReachableKept(c, s);
    StandsUnlessRewritten(c, s, steps, t, Missers(s, r), r, price, expires);
  }

  lemma {:induction false} NobodyRewrites(c: PriceSettings, s: State, steps: seq<Step>, t: State, r: Route, price: int, expires: real)
    requires Leads(c, s, steps, t)
    ensures NeverRewritten(c, s, steps, {}, r, price, expires)
    decreases |steps|
  {
    if steps != [] {
      NobodyRewrites(c, AfterStep(c, s, steps[0]), steps[1..], t, r, price, expires);
    }
  }

  /** So with no other miss of the route in flight the quote stands in every run. */
  lemma UnsharedQuoteStands(c: PriceSettings, s: State, steps: seq<Step>, t: State, r: Route, price: int, expires: real)
    requires ValidPrices(c) && Reachable(c, s) && Leads(c, s, steps, t) && Stands(s, r, price, expires)
    requires Missers(s, r) == {}
    ensures AlwaysStands(c, s, steps, r, price, expires)
  {
    NobodyRewrites(c, s, steps, t, r, price, expires);
    QuoteStands(c, s, steps, t, r, price, expires);
  }

  lemma {:induction false} StandsAtTheEnd(c: PriceSettings, s: State, steps: seq<Step>, t: State, r: Route, price: int, expires: real)
    requires Leads(c, s, steps, t) && AlwaysStands(c, s, steps, r, price, expires) && t.now < expires
    ensures Stands(t, r, price, expires)
    decreases |steps|
  {
    if steps != [] {
      StandsAtTheEnd(c, AfterStep(c, s, steps[0]), steps[1..], t, r, price, expires);
    }
  }

  lemma {:induction false} ReachesOn(c: PriceSettings, s: State, run: seq<Step>, u: State, steps: seq<Step>, t: State)
    requires Leads(c, s, run, u) && Leads(c, u, steps, t)
    ensures Leads(c, s, run + steps, t)
    decreases |run|
  {
    if run == [] {
      assert run + steps == steps;
    } else {
      ReachesOn(c, AfterStep(c, s, run[0]), run[1..], u, steps, t);
      assert (run + steps)[1..] == run[1..] + steps;
    }
  }

  /** A later request that looks before the expiry is answered the standing price, if no earlier
      miss rewrote it. */
  lemma AnsweredAgain(c: PriceSettings, s: State, steps: seq<Step>, t: State, id: nat, load: Load, r: Route, price: int, expires: real)
    requires ValidPrices(c) && Reachable(c, s) && Leads(c, s, steps, t) && Stands(s, r, price, expires)
    requires NeverRewritten(c, s, steps, Missers(s, r), r, price, expires) && t.now < expires
    requires id in t.requests && t.requests[id].pc.Looking? && r in t.requests[id].pc.routes
    ensures
      var q := AfterStep(c, t, Proceed(id, load)).requests[id];
      r in q.prices && q.prices[r] == price
  {
    QuoteStands(c, s, steps, t, r, price, expires);
    StandsAtTheEnd(c, s, steps, t, r, price, expires);
    var s0, run :| Init(s0) && Leads(c, s0, run, s);
    ReachesOn(c, s0, run, s, steps, t);
    StandingIsAnswered(c, t, id, load, r, price, expires);
  }
}
