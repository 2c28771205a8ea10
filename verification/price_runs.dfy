/** Runs of overlapping price requests and refreshers, built command by command, in which the
    promises made for windows, quotes and ranges fail. */
module PriceRuns {
  import opened FeedTypes
  import opened Pricing
  import opened PriceRanges
  import opened PriceWindow
  import opened PriceRace
  import opened RefreshRace
  import opened RangeRace

  // ----- single steps -----

  lemma {:induction false} LeadsOn(c: PriceSettings, s: State, steps: seq<Step>, t: State, step: Step)
    requires Leads(c, s, steps, t) && Enabled(t, step)
    ensures Leads(c, s, steps + [step], AfterStep(c, t, step))
    decreases |steps|
  {
    if steps == [] {
      assert Leads(c, AfterStep(c, t, step), [step][1..], AfterStep(c, t, step));
      assert [] + [step] == [step];
    } else {
      LeadsOn(c, AfterStep(c, s, steps[0]), steps[1..], t, step);
      assert (steps + [step])[1..] == steps[1..] + [step];
    }
  }

  /** `t` lies on a run through the reachable state `o`. */
  ghost predicate Along(c: PriceSettings, o: State, t: State) {
    Reachable(c, o) && exists steps :: Leads(c, o, steps, t)
  }

  lemma AlongStarts(c: PriceSettings, o: State, t: State)
    requires Along(c, o, t)
    ensures Reachable(c, t) && Along(c, t, t)
  {
    var s0, run :| Init(s0) && Leads(c, s0, run, o);
    var steps :| Leads(c, o, steps, t);
    ReachesOn(c, s0, run, o, steps, t);
    assert Leads(c, t, [], t);
  }

  lemma Go(c: PriceSettings, o: State, s: State, step: Step) returns (t: State)
    requires Along(c, o, s) && Enabled(s, step)
    ensures Along(c, o, t) && t == AfterStep(c, s, step)
  {
    var steps :| Leads(c, o, steps, s);
    LeadsOn(c, o, steps, s, step);
    t := AfterStep(c, s, step);
  }

  /** One command of a request that is under way. */
  lemma Went(c: PriceSettings, o: State, s: State, id: nat, load: Load) returns (t: State)
    requires Along(c, o, s) && id in s.requests
    ensures Along(c, o, t)
    ensures t == Written(c, s, s.requests[id].pc).(requests := s.requests[id := NextPc(c, s, s.requests[id], load)])
  {
    t := Go(c, o, s, Proceed(id, load));
  }

  lemma Opens(c: PriceSettings, o: State, s: State, id: nat, opening: Opening) returns (t: State)
    requires Along(c, o, s) && id !in s.requests
    ensures Along(c, o, t) && t == s.(requests := s.requests[id := Request(map[], Opened(s, opening))])
  {
    t := Go(c, o, s, Begin(id, opening));
  }

  predicate RangesKept(s: State, t: State) {
    t.ranges == s.ranges && t.seen == s.seen
  }

  /** No backlog, and one far beyond the target. */
  function Quiet(): Load {
    Load(0, 0, 10, 10, r => 1, r => 1)
  }

  function Busy(c: PriceSettings): Load {
    var target := PriceTarget(0, c);
    Load(Distance(target) + Distance(Deadband(target, c)) + 1, 0, 10, 10, r => 2, r => 1)
  }

  lemma Ticks(c: PriceSettings, last: int)
    requires ValidPrices(c) && InRange(c, last)
    ensures ComputePrice(c.min, 0, 0, c) == c.min
    ensures last < c.max ==> ComputePrice(last, Busy(c).opsLen, 0, c) == last + 1
  {
  }

  /** A refresher past its decision recalls the last price, steps it and publishes. */
  lemma TickEnds(c: PriceSettings, o: State, s: State, id: nat, at: real, load: Load) returns (t: State)
    requires Along(c, o, s) && id in s.requests && s.requests[id] == Request(map[], Recalling(at, []))
    requires load.active == 0 && load.opsTotal == load.subsTotal == 10
    ensures Along(c, o, t) && t.now == s.now && t.quotes == s.quotes && RangesKept(s, t)
    ensures
      var found := Alive(s.snapshot, s.now);
      var last := if found.Some? then found.value.price else c.min;
      var snap := Snapshot(ComputePrice(last, load.opsLen, 0, c), at, at + c.refresh, 10, 10);
      && t.snapshot == Some(Keyed(snap, s.now + c.ttl))
      && t.published == s.published + [Publication(snap, Recall(|s.published|, s.now), s.now)]
      && t.requests == s.requests[id := Request(map[], Done)]
  {
    t := Went(c, o, s, id, load);
    t := Went(c, o, t, id, load);
    t := Went(c, o, t, id, load);
  }

  function FirstOf(c: PriceSettings): Publication {
    Publication(Snapshot(c.min, 0.0, c.refresh, 10, 10), Recall(0, 0.0), 0.0)
  }

  /** The first tick finds nothing and publishes the minimum. */
  lemma FirstTick(c: PriceSettings) returns (o: State, t: State)
    requires ValidPrices(c)
    ensures Along(c, o, t) && t.now == 0.0 && t.requests == map[0 := Request(map[], Done)] && t.quotes == map[]
    ensures t.ranges == map[] && t.seen == map[]
    ensures t.published == [FirstOf(c)]
    ensures t.snapshot == Some(Keyed(Snapshot(c.min, 0.0, c.refresh, 10, 10), c.ttl))
  {
    o := State(0.0, None, map[], map[], map[], [], map[]);
    assert Init(o) && Leads(c, o, [], o);
    t := Opens(c, o, o, 0, RefresherTick);
    t := Went(c, o, t, 0, Quiet());
    t := Went(c, o, t, 0, Quiet());
    Ticks(c, c.min);
    t := TickEnds(c, o, t, 0, 0.0, Quiet());
  }

  /** Two refreshers read the snapshot as it expires, and both decide to replace it. */
  lemma BothDecide(c: PriceSettings) returns (o: State, t: State)
    requires ValidPrices(c)
    ensures Along(c, o, t) && t.now == c.refresh
    ensures t.requests == map[0 := Request(map[], Done), 1 := Request(map[], Recalling(c.refresh, [])),
                              2 := Request(map[], Recalling(c.refresh, []))]
    ensures t.published == [FirstOf(c)]
    ensures t.snapshot == Some(Keyed(Snapshot(c.min, 0.0, c.refresh, 10, 10), c.ttl))
  {
    o, t := FirstTick(c);
    t := Go(c, o, t, Pass(c.refresh));
    t := Opens(c, o, t, 1, RefresherTick);
    t := Opens(c, o, t, 2, RefresherTick);
    t := Went(c, o, t, 1, Quiet());
    t := Went(c, o, t, 2, Quiet());
  }

  /** Whatever the settings, if they leave the price two steps of room: two refreshers that
      overlap publish two snapshots at one moment, the second cutting the window of the first
      short and moving the base two steps at once. */
  lemma RefreshersCutAWindowShort(c: PriceSettings) returns (t: State)
    requires ValidPrices(c) && c.min + 2 <= c.max
    ensures Reachable(c, t) && |t.published| == 3
    ensures t.published[2].snap.computedAt == t.published[1].snap.computedAt == t.published[0].snap.expiresAt
    ensures t.now < t.published[1].snap.expiresAt && !Rules(t, t.published[1].snap)
    ensures t.published[2].snap.price == t.published[0].snap.price + 2
  {
    var o, s := BothDecide(c);
    Ticks(c, c.min);
    Ticks(c, c.min + 1);
    var u := TickEnds(c, o, s, 1, c.refresh, Busy(c));
    t := TickEnds(c, o, u, 2, c.refresh, Busy(c));
    AlongStarts(c, o, t);
  }

  // ----- two requests price one route -----

  /** Settings for the run below. */
  const TIGHT := PriceSettings(10, 30, 0.1, 20, 0.1, 0.5, 60.0, 90.0)

  /** The snapshot of its first window. */
  function TightSnap(): Snapshot {
    Snapshot(10, 0.0, 60.0, 10, 10)
  }

  lemma PricesOfTheRun(r: Route)
    ensures
      var s := TightSnap();
      PriceOf(TIGHT, s, Quiet(), r) == 10 && PriceOf(TIGHT, s, Busy(TIGHT), r) == 15
  {
    assert RouteFactor(1, 1, 10, 10, TIGHT) == 1.0;
    assert RouteFactor(2, 1, 10, 10, TIGHT) == 1.5;
    assert HalfUp(10.0 * 1.5) == 15;
  }

  lemma BothMiss(r: Route) returns (o: State, t: State)
    ensures Along(TIGHT, o, t) && t.now == 0.0 && t.quotes == map[]
    ensures t.requests == map[0 := Request(map[], Done), 1 := Request(map[], Fetching([r])), 2 := Request(map[], Fetching([r]))]
    ensures t.snapshot == Some(Keyed(TightSnap(), 90.0))
  {
    o, t := FirstTick(TIGHT);
    t := Opens(TIGHT, o, t, 1, PriceRoutes([r]));
    t := Opens(TIGHT, o, t, 2, PriceRoutes([r]));
    MissesAlone(t, r);
    t := Went(TIGHT, o, t, 1, Quiet());
    MissesAlone(t, r);
    t := Went(TIGHT, o, t, 2, Quiet());
  }

  lemma MissesAlone(s: State, r: Route)
    requires Found(s, r, s.now).None?
    ensures Missed(s, [r], s.now) == [r]
    ensures (map x | x in [r] && Found(s, x, s.now).Some? :: Found(s, x, s.now).value) == map[]
  {
    assert [r][..0] == [];
    assert Missed(s, [], s.now) == [];
  }

  /** A request prices the one route it missed against the live snapshot. */
  lemma SizesOne(o: State, s: State, id: nat, r: Route, load: Load, snap: Snapshot) returns (t: State)
    requires Along(TIGHT, o, s) && id in s.requests && s.requests[id] == Request(map[], Fetching([r]))
    requires Alive(s.snapshot, s.now) == Some(snap)
    ensures Along(TIGHT, o, t) && t.now == s.now && t.snapshot == s.snapshot && t.published == s.published && RangesKept(s, t)
    ensures
      var price := PriceOf(TIGHT, snap, load, r);
      && t.quotes == s.quotes
      && t.requests == s.requests[id := Request(map[r := price], Freezing(snap, [(r, price)], [Computed(WindowOf(snap), r, price)]))]
  {
    t := Went(TIGHT, o, s, id, load);
    assert t.requests[id] == Request(map[], Sizing(snap, [r]));
    PricedAsOne(snap, load, r);
    t := Went(TIGHT, o, t, id, load);
  }

  lemma PricedAsOne(snap: Snapshot, load: Load, r: Route)
    ensures
      var price := PriceOf(TIGHT, snap, load, r);
      && Priced(TIGHT, snap, load, [r]) == [(r, price)]
      && ComputedFor(TIGHT, snap, load, [r]) == [Computed(WindowOf(snap), r, price)]
      && map[] + (map x | x in [r] :: PriceOf(TIGHT, snap, load, x)) == map[r := price]
  {
  }

  /** And freezes the price. */
  lemma PricesOne(o: State, s: State, id: nat, r: Route, load: Load, snap: Snapshot) returns (t: State)
    requires Along(TIGHT, o, s) && id in s.requests && s.requests[id] == Request(map[], Fetching([r]))
    requires Alive(s.snapshot, s.now) == Some(snap)
    ensures Along(TIGHT, o, t) && t.now == s.now && t.snapshot == s.snapshot && t.published == s.published && RangesKept(s, t)
    ensures
      var price := PriceOf(TIGHT, snap, load, r);
      && t.quotes == s.quotes[r := Keyed(Quote(price, snap.expiresAt), s.now + 90.0)]
      && t.requests == s.requests[id := Request(map[r := price], Freezing(snap, [], [Computed(WindowOf(snap), r, price)]))]
  {
    var price := PriceOf(TIGHT, snap, load, r);
    var u := SizesOne(o, s, id, r, load, snap);
    assert [(r, price)][1..] == [];
    t := Went(TIGHT, o, u, id, load);
  }

  /** The other request prices the route again, and a third one asks. */
  lemma PricedAgain(s: State, r: Route) returns (t: State)
    requires Reachable(TIGHT, s) && s.now == 0.0 && 2 in s.requests && s.requests[2] == Request(map[], Fetching([r])) && 3 !in s.requests
    requires s.snapshot == Some(Keyed(TightSnap(), 90.0))
    ensures Along(TIGHT, s, t) && t.now == 0.0 && 3 in t.requests && t.requests[3] == Request(map[r := 15], Done)
  {
    PricesOfTheRun(r);
    assert Leads(TIGHT, s, [], s);
    t := PricesOne(s, s, 2, r, Busy(TIGHT), TightSnap());
    t := Opens(TIGHT, s, t, 3, PriceRoutes([r]));
    assert [r][..0] == [] && Missed(t, [], 0.0) == [];
    t := Went(TIGHT, s, t, 3, Quiet());
    assert t.requests[3].prices == map[r := 15];
  }

  /** Two requests miss a route. The first answers 10 until 60; the second prices it again, and
      a request that asks afterwards, well before 60, is answered 15. */
  lemma QuoteIsOverwritten(r: Route) returns (s: State, steps: seq<Step>, t: State)
    ensures Reachable(TIGHT, s) && Stands(s, r, 10, 60.0) && 1 in s.requests && s.requests[1].prices == map[r := 10]
    ensures Missers(s, r) == {2}
    ensures Leads(TIGHT, s, steps, t) && t.now < 60.0 && 3 in t.requests && t.requests[3] == Request(map[r := 15], Done)
  {
    PricesOfTheRun(r);
    var o, u := BothMiss(r);
    s := PricesOne(o, u, 1, r, Quiet(), TightSnap());
    AlongStarts(TIGHT, o, s);
    t := PricedAgain(s, r);
    steps :| Leads(TIGHT, s, steps, t);
  }

  // ----- a quote told with a later expiry -----

  /** The second window, whose base price is still the minimum. */
  function NextSnap(): Snapshot {
    Snapshot(10, 60.0, 120.0, 10, 10)
  }

  /** Just before the first window ends a request prices the route. */
  lemma PricedLate(r: Route) returns (o: State, t: State)
    ensures Along(TIGHT, o, t) && t.now == 59.0 && t.quotes == map[r := Keyed(Quote(10, 60.0), 149.0)]
    ensures t.requests == map[0 := Request(map[], Done), 1 := Request(map[r := 10], Freezing(TightSnap(), [], [Computed(60, r, 10)]))]
    ensures t.snapshot == Some(Keyed(TightSnap(), 90.0)) && t.ranges == map[] && t.seen == map[]
  {
    o, t := FirstTick(TIGHT);
    t := Go(TIGHT, o, t, Pass(59.0));
    t := Opens(TIGHT, o, t, 1, PriceRoutes([r]));
    MissesAlone(t, r);
    t := Went(TIGHT, o, t, 1, Quiet());
    PricesOfTheRun(r);
    t := PricesOne(o, t, 1, r, Quiet(), TightSnap());
  }

  /** The window ends, and a refresher opens the next one. */
  lemma NextWindow(s: State) returns (t: State)
    requires Reachable(TIGHT, s) && s.now == 59.0 && 2 !in s.requests && s.snapshot == Some(Keyed(TightSnap(), 90.0))
    ensures Along(TIGHT, s, t) && t.now == 60.0 && t.quotes == s.quotes && RangesKept(s, t)
    ensures t.snapshot == Some(Keyed(NextSnap(), 150.0)) && t.requests == s.requests[2 := Request(map[], Done)]
  {
    assert Leads(TIGHT, s, [], s);
    t := Go(TIGHT, s, s, Pass(1.0));
    t := Opens(TIGHT, s, t, 2, RefresherTick);
    t := Went(TIGHT, s, t, 2, Quiet());
    Ticks(TIGHT, 10);
    t := TickEnds(TIGHT, s, t, 2, 60.0, Quiet());
  }

  /** A later request prices the route in the new window, under a heavier load. */
  lemma PricedNext(s: State, r: Route) returns (t: State)
    requires Reachable(TIGHT, s) && s.now == 60.0 && s.quotes == map[r := Keyed(Quote(10, 60.0), 149.0)] && 3 !in s.requests
    requires s.snapshot == Some(Keyed(NextSnap(), 150.0))
    ensures Along(TIGHT, s, t) && t.now == 60.0 && t.snapshot == s.snapshot && RangesKept(s, t)
    ensures t.requests == s.requests[3 := Request(map[r := 15], Freezing(NextSnap(), [], [Computed(120, r, 15)]))]
  {
    assert Leads(TIGHT, s, [], s);
    t := Opens(TIGHT, s, s, 3, PriceRoutes([r]));
    MissesAlone(t, r);
    t := Went(TIGHT, s, t, 3, Quiet());
    NextPricesOfTheRun(r);
    t := PricesOne(s, t, 3, r, Busy(TIGHT), NextSnap());
    assert t.requests == s.requests[3 := t.requests[3]];
  }

  lemma NextPricesOfTheRun(r: Route)
    ensures PriceOf(TIGHT, NextSnap(), Busy(TIGHT), r) == 15
  {
    assert RouteFactor(2, 1, 10, 10, TIGHT) == 1.5;
    assert HalfUp(10.0 * 1.5) == 15;
  }

  /** A request prices a route at 10 in the last moment of a window, and only then reads the
      snapshot to say until when: it says 120, while the price stands until 60. At 60 the route
      costs 15. */
  lemma QuoteOutlivesItsPrice(r: Route) returns (s: State, t: State)
    ensures Reachable(TIGHT, s) && 1 in s.requests && s.requests[1].prices == map[r := 10] && Stands(s, r, 10, 60.0)
    ensures Along(TIGHT, s, t) && Alive(t.snapshot, t.now) == Some(NextSnap()) && t.now == 60.0 < NextSnap().expiresAt
    ensures 3 in t.requests && t.requests[3].prices == map[r := 15]
  {
    var o;
    o, s := PricedLate(r);
    AlongStarts(TIGHT, o, s);
    var u := NextWindow(s);
    AlongStarts(TIGHT, s, u);
    t := PricedNext(u, r);
    AlongJoins(TIGHT, s, u, t);
  }

  lemma AlongJoins(c: PriceSettings, o: State, s: State, t: State)
    requires Along(c, o, s) && Along(c, s, t)
    ensures Along(c, o, t)
  {
    var run :| Leads(c, o, run, s);
    var steps :| Leads(c, s, steps, t);
    ReachesOn(c, o, run, s, steps, t);
  }

  // ----- an observer of the window before -----

  /** A request that has frozen its one price folds it into the range over all routes. */
  lemma FoldsOne(o: State, s: State, id: nat, snap: Snapshot, e: Computed) returns (t: State)
    requires Along(TIGHT, o, s) && id in s.requests && e.window == WindowOf(snap)
    requires s.requests[id].pc == Freezing(snap, [], [e])
    ensures Along(TIGHT, o, t) && t.now == s.now && t.snapshot == s.snapshot && t.seen == s.seen[All := SeenBy(s, All) + [e]]
    ensures t.ranges == s.ranges[All := RangeAfter(TIGHT, s.ranges, snap, [e.price], All, s.now)]
    ensures id in t.requests && t.requests.Keys == s.requests.Keys && t.requests[id].pc.Observing? && t.requests[id].pc.s == snap
    ensures forall j :: j in s.requests && j != id ==> t.requests[j] == s.requests[j]
  {
    assert [e][1..] == [] && PricesIn([e], WindowOf(snap), All) == [e.price];
    assert ScopeOrder([e])[0] == All;
    t := Went(TIGHT, o, s, id, Quiet());
    t := Went(TIGHT, o, t, id, Quiet());
  }

  lemma OnePriceRange(ranges: map<Scope, Keyed<Spread>>, snap: Snapshot, price: int, now: real)
    requires StoredRange(ranges, All).None? || ranges[All].value.window != WindowOf(snap)
    ensures RangeAfter(TIGHT, ranges, snap, [price], All, now)
            == Keyed(Spread(WindowOf(snap), snap.price, price, price), now + 150.0)
  {
    var start := Spread(WindowOf(snap), snap.price, price, price);
    assert Least([price]) == price && Greatest([price]) == price;
    assert [price, price][1..] == [price] && [price][1..] == [] && Widen(start, price) == start;
    var one, two := [price], [price, price];
    assert two[1..] == one && one[1..] == [];
    assert WidenAll(start, one) == start;
    assert WidenAll(start, two) == start;
  }

  /** A request of the first window is still to fold its price in when the second opens. Another
      prices the route there and folds in 15; the range is exact. Then the late one folds in its
      10 and the range of the second window is gone: 10 to 10 is read, though its one price is 15. */
  lemma LateObserverRestarts(r: Route) returns (s: State, t: State)
    ensures Reachable(TIGHT, s) && s.snapshot == Some(Keyed(NextSnap(), 150.0)) && s.now == 60.0
    ensures Prices(s, All, 120) == [15] && RangeHolds(s, All, 120, 120.0) && Stray(s, 120) == {1}
    ensures Along(TIGHT, s, t) && t.snapshot == s.snapshot && t.now == s.now && Prices(t, All, 120) == [15]
    ensures RangeRead(TIGHT, Board(t.snapshot, t.quotes, t.ranges, []), All, t.now) == Some((10, 10))
  {
    s := FirstFoldsIn(r);
    assert Leads(TIGHT, s, [], s);
    t := FoldsOne(s, s, 1, TightSnap(), Computed(60, r, 10));
    OnePriceRange(s.ranges, TightSnap(), 10, 60.0);
    assert SeenBy(t, All) == [Computed(120, r, 15), Computed(60, r, 10)];
    PricesOfPair(r);
    assert Rescaled(10, 10, 10, 10, TIGHT) == (10, 10);
  }

  lemma PricesOfPair(r: Route)
    ensures PricesIn([Computed(120, r, 15)], 120, All) == [15]
    ensures PricesIn([Computed(120, r, 15), Computed(60, r, 10)], 120, All) == [15]
  {
    assert [Computed(120, r, 15)][1..] == [] && [Computed(60, r, 10)][1..] == [];
    assert [Computed(120, r, 15), Computed(60, r, 10)][1..] == [Computed(60, r, 10)];
    assert PricesIn([Computed(60, r, 10)], 120, All) == [];
  }

  /** One request is still to fold in the price of the first window, another that of the second. */
  lemma BothToFold(r: Route) returns (s: State)
    ensures Reachable(TIGHT, s) && s.snapshot == Some(Keyed(NextSnap(), 150.0)) && s.now == 60.0
    ensures s.ranges == map[] && s.seen == map[]
    ensures s.requests == map[0 := Request(map[], Done), 1 := Request(map[r := 10], Freezing(TightSnap(), [], [Computed(60, r, 10)])),
                              2 := Request(map[], Done), 3 := Request(map[r := 15], Freezing(NextSnap(), [], [Computed(120, r, 15)]))]
  {
    var o, a := PricedLate(r);
    AlongStarts(TIGHT, o, a);
    var u := NextWindow(a);
    AlongStarts(TIGHT, a, u);
    s := PricedNext(u, r);
    AlongStarts(TIGHT, u, s);
  }

  lemma FirstHasFolded(r: Route) returns (s: State)
    ensures Reachable(TIGHT, s) && s.snapshot == Some(Keyed(NextSnap(), 150.0)) && s.now == 60.0
    ensures s.seen == map[All := [Computed(120, r, 15)]] && s.ranges == map[All := Keyed(Spread(120, 10, 15, 15), 210.0)]
    ensures s.requests.Keys == {0, 1, 2, 3} && s.requests[1].pc == Freezing(TightSnap(), [], [Computed(60, r, 10)])
    ensures s.requests[0].pc == Done && s.requests[2].pc == Done && s.requests[3].pc.Observing? && s.requests[3].pc.s == NextSnap()
  {
    var v := BothToFold(r);
    assert Leads(TIGHT, v, [], v);
    assert SeenBy(v, All) + [Computed(120, r, 15)] == [Computed(120, r, 15)];
    OnePriceRange(v.ranges, NextSnap(), 15, 60.0);
    s := FoldsOne(v, v, 3, NextSnap(), Computed(120, r, 15));
    AlongStarts(TIGHT, v, s);
    assert s.requests.Keys == {0, 1, 2, 3};
  }

  lemma FirstFoldsIn(r: Route) returns (s: State)
    ensures Reachable(TIGHT, s) && s.snapshot == Some(Keyed(NextSnap(), 150.0)) && s.now == 60.0
    ensures SeenBy(s, All) == [Computed(120, r, 15)] && s.ranges == map[All := Keyed(Spread(120, 10, 15, 15), 210.0)]
    ensures Prices(s, All, 120) == [15] && RangeHolds(s, All, 120, 120.0) && Stray(s, 120) == {1}
    ensures 1 in s.requests && s.requests[1].pc == Freezing(TightSnap(), [], [Computed(60, r, 10)])
  {
    s := FirstHasFolded(r);
    PricesOfPair(r);
  }
}
