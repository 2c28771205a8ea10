/** The observed price range under overlap: prices are folded in by separate commands, and one
    that belongs to another window restarts the range. */
module RangeRace {
  import opened FeedTypes
  import opened Pricing
  import opened PriceRanges
  import opened PriceWindow
  import opened PriceRace
  import opened RefreshRace

  /** The prices of a window folded into a scope's range so far. */
  function Prices(s: State, k: Scope, window: int): seq<int> {
    PricesIn(SeenBy(s, k), window, k)
  }

  /** The range is exactly the spread of the prices of that window, and lasts until `over`; it is
      not of that window while it has none. */
  predicate RangeHolds(s: State, k: Scope, window: int, over: real) {
    if Prices(s, k, window) == [] then k in s.ranges ==> s.ranges[k].value.window != window
    else
      && k in s.ranges && s.ranges[k].value.window == window
      && Exact(s.ranges[k].value, Prices(s, k, window)) && over <= s.ranges[k].until
  }

  /** Such a range is read as the least and the greatest of those prices. */
  lemma HoldingIsRead(c: PriceSettings, s: State, k: Scope, cur: Snapshot)
    requires s.snapshot.Some? && s.snapshot.value.value == cur && s.now < cur.expiresAt
    requires RangeHolds(s, k, WindowOf(cur), cur.expiresAt) && Prices(s, k, WindowOf(cur)) != []
    ensures RangeRead(c, Board(s.snapshot, s.quotes, s.ranges, []), k, s.now)
            == Some((Least(Prices(s, k, WindowOf(cur))), Greatest(Prices(s, k, WindowOf(cur)))))
  {
    ExactIsExtremes(s.ranges[k].value, Prices(s, k, WindowOf(cur)));
  }

  // ----- what a command does to a range -----

  /** The step folds prices into the scope's range. */
  predicate FoldsInto(s: State, step: Step, k: Scope) {
    && step.Proceed? && step.id in s.requests && s.requests[step.id].pc.Observing?
    && s.requests[step.id].pc.scopes != [] && s.requests[step.id].pc.scopes[0] == k
    && PricesIn(s.requests[step.id].pc.added, WindowOf(s.requests[step.id].pc.s), k) != []
  }

  /** It folds prices of another window into a range that has some of this one. */
  predicate Restarts(s: State, step: Step, k: Scope, window: int) {
    FoldsInto(s, step, k) && WindowOf(s.requests[step.id].pc.s) != window && Prices(s, k, window) != []
  }

  lemma OthersUntouched(c: PriceSettings, s: State, step: Step, k: Scope)
    requires Enabled(s, step) && !FoldsInto(s, step, k)
    ensures
      var t := AfterStep(c, s, step);
      SeenBy(t, k) == SeenBy(s, k) && (k in t.ranges <==> k in s.ranges) && (k in s.ranges ==> t.ranges[k] == s.ranges[k])
  {
  }

  lemma {:induction false} OtherWindowAddsNone(added: seq<Computed>, own: int, window: int, k: Scope)
    requires OfWindow(own, added) && own != window
    ensures PricesIn(added, window, k) == []
  {
    if added != [] {
      assert added[0] in added && forall e :: e in added[1..] ==> e in added;
      OtherWindowAddsNone(added[1..], own, window, k);
    }
  }

  /** Folding the extremes of new prices into a spread of the same window, or into none. */
  lemma FoldsExactly(stored: Option<Spread>, window: int, base: int, had: seq<int>, prices: seq<int>)
    requires prices != []
    requires if had == [] then stored.None? || stored.value.window != window
             else stored.Some? && stored.value.window == window && Exact(stored.value, had)
    ensures
      var folded := Folded(stored, window, base, [Least(prices), Greatest(prices)]);
      folded.window == window && Exact(folded, had + prices)
  {
    ExtremesSuffice(stored, window, base, prices);
    if had == [] {
      var start := Spread(window, base, prices[0], prices[0]);
      WidenAllIsExact(start, [prices[0]], prices);
      assert forall p :: p in [prices[0]] + prices <==> p in had + prices;
    } else {
      WidenAllIsExact(stored.value, had, prices);
    }
  }

  /** A fold of the same window keeps the range exact. */
  lemma OwnFoldHolds(c: PriceSettings, s: State, id: nat, load: Load, k: Scope, window: int, over: real)
    requires ValidPrices(c) && RangeHolds(s, k, window, over) && s.now < over <= s.now + c.ttl + c.refresh
    requires id in s.requests && FoldsInto(s, Proceed(id, load), k) && WindowOf(s.requests[id].pc.s) == window
    ensures RangeHolds(AfterStep(c, s, Proceed(id, load)), k, window, over)
  {
    var t, pc := AfterStep(c, s, Proceed(id, load)), s.requests[id].pc;
    var had, prices := Prices(s, k, window), PricesIn(pc.added, window, k);
    PricesInJoin(SeenBy(s, k), pc.added, window, k);
    FoldsExactly(Alive(StoredRange(s.ranges, k), s.now), window, pc.s.price, had, prices);
    assert Prices(t, k, window) == had + prices;
  }

  /** One of another window ends the holding, unless there was nothing to hold. */
  lemma OtherFoldEnds(c: PriceSettings, s: State, id: nat, load: Load, k: Scope, window: int, over: real)
    requires Kept(c, s) && RangeHolds(s, k, window, over)
    requires id in s.requests && FoldsInto(s, Proceed(id, load), k) && WindowOf(s.requests[id].pc.s) != window
    ensures RangeHolds(AfterStep(c, s, Proceed(id, load)), k, window, over) <==> Prices(s, k, window) == []
  {
    var t, pc := AfterStep(c, s, Proceed(id, load)), s.requests[id].pc;
    assert PcOk(c, s.now, s.requests[id]);
    PricesInJoin(SeenBy(s, k), pc.added, window, k);
    OtherWindowAddsNone(pc.added, WindowOf(pc.s), window, k);
    assert Prices(t, k, window) == Prices(s, k, window) + [];
    FoldedWindow(Alive(StoredRange(s.ranges, k), s.now), WindowOf(pc.s), pc.s.price,
                 [Least(PricesIn(pc.added, WindowOf(pc.s), k)), Greatest(PricesIn(pc.added, WindowOf(pc.s), k))]);
  }

  lemma {:induction false} WidenKeepsWindow(s: Spread, prices: seq<int>)
    ensures WidenAll(s, prices).window == s.window
    decreases |prices|
  {
    if prices != [] {
      WidenKeepsWindow(Widen(s, prices[0]), prices[1..]);
    }
  }

  lemma FoldedWindow(stored: Option<Spread>, window: int, base: int, prices: seq<int>)
    requires prices != []
    ensures Folded(stored, window, base, prices).window == window
  {
    WidenKeepsWindow(if stored.Some? && stored.value.window == window then stored.value
                     else Spread(window, base, prices[0], prices[0]), prices);
  }

  /** Only such a restart makes the range inexact, and it always does. */
  lemma RestartEndsHolding(c: PriceSettings, s: State, step: Step, k: Scope, window: int, over: real)
    requires ValidPrices(c) && Kept(c, s) && Enabled(s, step)
    requires RangeHolds(s, k, window, over) && s.now < over <= s.now + c.ttl + c.refresh
    ensures RangeHolds(AfterStep(c, s, step), k, window, over) <==> !Restarts(s, step, k, window)
  {
    if !FoldsInto(s, step, k) {
      OthersUntouched(c, s, step, k);
    } else if WindowOf(s.requests[step.id].pc.s) == window {
      OwnFoldHolds(c, s, step.id, step.load, k, window, over);
    } else {
      OtherFoldEnds(c, s, step.id, step.load, k, window, over);
    }
  }

  // ----- along a run -----

  /** Along the run the range is exact in every state before that moment. */
  ghost predicate RangeAlwaysHolds(c: PriceSettings, s: State, steps: seq<Step>, k: Scope, window: int, over: real)
    decreases |steps|
  {
    && (s.now < over ==> RangeHolds(s, k, window, over))
    && (steps != [] ==> Enabled(s, steps[0]) && RangeAlwaysHolds(c, AfterStep(c, s, steps[0]), steps[1..], k, window, over))
  }

  /** Along the run none of these requests restarts it before that moment. */
  ghost predicate NeverRestarted(c: PriceSettings, s: State, steps: seq<Step>, ids: set<nat>, k: Scope, window: int, over: real)
    decreases |steps|
  {
    steps != [] ==>
      && Enabled(s, steps[0])
      && !(s.now < over && Restarts(s, steps[0], k, window) && steps[0].id in ids)
      && NeverRestarted(c, AfterStep(c, s, steps[0]), steps[1..], ids, k, window, over)
  }

  /** The request holds prices, or is about to compute some, against a snapshot of another window. */
  predicate Strays(pc: Pc, window: int) {
    match pc
    case Sizing(s, _) => WindowOf(s) != window
    case Freezing(s, _, _) => WindowOf(s) != window
    case Observing(s, _, _) => WindowOf(s) != window
    case _ => false
  }

  function Stray(s: State, window: int): set<nat> {
    set id | id in s.requests && Strays(s.requests[id].pc, window)
  }

  /** While a snapshot rules, nobody new takes another into hand. */
  lemma RulingKeepsStrays(c: PriceSettings, s: State, step: Step, cur: Snapshot)
    requires Enabled(s, step) && Rules(s, cur) && s.now < cur.expiresAt && !Overrides(s, step, cur)
    ensures Stray(AfterStep(c, s, step), WindowOf(cur)) <= Stray(s, WindowOf(cur))
  {
    var t := AfterStep(c, s, step);
    assert Publishes(s, step) ==> s.requests[step.id].pc.s == cur;
    forall id | id in Stray(t, WindowOf(cur)) ensures id in Stray(s, WindowOf(cur)) {
    }
  }

  lemma {:induction false} RangeIsOver(c: PriceSettings, s: State, steps: seq<Step>, t: State, ids: set<nat>, k: Scope, window: int, over: real)
    requires Leads(c, s, steps, t) && s.now >= over
    ensures RangeAlwaysHolds(c, s, steps, k, window, over) && NeverRestarted(c, s, steps, ids, k, window, over)
    decreases |steps|
  {
    if steps != [] {
      RangeIsOver(c, AfterStep(c, s, steps[0]), steps[1..], t, ids, k, window, over);
    }
  }

  lemma {:induction false} HoldsUnlessRestarted(c: PriceSettings, s: State, steps: seq<Step>, t: State, ids: set<nat>, k: Scope, cur: Snapshot)
    requires ValidPrices(c) && Kept(c, s) && Leads(c, s, steps, t) && AlwaysRules(c, s, steps, cur)
    requires cur.expiresAt <= s.now + c.ttl + c.refresh
    requires s.now < cur.expiresAt ==> RangeHolds(s, k, WindowOf(cur), cur.expiresAt) && Stray(s, WindowOf(cur)) <= ids
    ensures RangeAlwaysHolds(c, s, steps, k, WindowOf(cur), cur.expiresAt) <==>
              NeverRestarted(c, s, steps, ids, k, WindowOf(cur), cur.expiresAt)
    decreases |steps|
  {
    if s.now >= cur.expiresAt {
      RangeIsOver(c, s, steps, t, ids, k, WindowOf(cur), cur.expiresAt);
    } else if steps != [] {
      StepKept(c, s, steps[0]);
      OverrideEndsRule(c, s, steps[0], cur);
      RestartEndsHolding(c, s, steps[0], k, WindowOf(cur), cur.expiresAt);
      if !Restarts(s, steps[0], k, WindowOf(cur)) {
        RulingKeepsStrays(c, s, steps[0], cur);
        HoldsUnlessRestarted(c, AfterStep(c, s, steps[0]), steps[1..], t, ids, k, cur);
      }
    }
  }

  /** However requests overlap, while a snapshot keeps its window the range of a scope stays
      exactly the spread of the prices of that window folded in so far if and only if no request
      that held a snapshot of another window folds its prices in. */
  lemma RangeStaysExact(c: PriceSettings, s: State, steps: seq<Step>, t: State, k: Scope, cur: Snapshot)
    requires ValidPrices(c) && Reachable(c, s) && Leads(c, s, steps, t)
    requires Rules(s, cur) && AlwaysRules(c, s, steps, cur) && RangeHolds(s, k, WindowOf(cur), cur.expiresAt)
    ensures RangeAlwaysHolds(c, s, steps, k, WindowOf(cur), cur.expiresAt) <==>
              NeverRestarted(c, s, steps, Stray(s, WindowOf(cur)), k, WindowOf(cur), cur.expiresAt)
  {
    ReachableKept(c, s);
    HoldsUnlessRestarted(c, s, steps, t, Stray(s, WindowOf(cur)), k, cur);
  }

  lemma {:induction false} NobodyRestarts(c: PriceSettings, s: State, steps: seq<Step>, t: State, k: Scope, window: int, over: real)
    requires Leads(c, s, steps, t)
    ensures NeverRestarted(c, s, steps, {}, k, window, over)
    decreases |steps|
  {
    if steps != [] {
      NobodyRestarts(c, AfterStep(c, s, steps[0]), steps[1..], t, k, window, over);
    }
  }

  /** So with no observer of another window in flight it is exact in every such run. */
  lemma UndisturbedRangeIsExact(c: PriceSettings, s: State, steps: seq<Step>, t: State, k: Scope, cur: Snapshot)
    requires ValidPrices(c) && Reachable(c, s) && Leads(c, s, steps, t)
    requires Rules(s, cur) && AlwaysRules(c, s, steps, cur) && RangeHolds(s, k, WindowOf(cur), cur.expiresAt)
    requires Stray(s, WindowOf(cur)) == {}
    ensures RangeAlwaysHolds(c, s, steps, k, WindowOf(cur), cur.expiresAt)
  {
    NobodyRestarts(c, s, steps, t, k, WindowOf(cur), cur.expiresAt);
    RangeStaysExact(c, s, steps, t, k, cur);
  }

  // ----- where it starts -----

  /** A range is always of a window some of whose prices it has. */
  predicate RangesSeen(s: State) {
    forall k :: k in s.ranges ==> Prices(s, k, s.ranges[k].value.window) != []
  }

  lemma StepSeen(c: PriceSettings, s: State, step: Step)
    requires RangesSeen(s) && Enabled(s, step)
    ensures RangesSeen(AfterStep(c, s, step))
  {
    var t := AfterStep(c, s, step);
    forall k | k in t.ranges ensures Prices(t, k, t.ranges[k].value.window) != [] {
      if FoldsInto(s, step, k) {
        var pc := s.requests[step.id].pc;
        var window := WindowOf(pc.s);
        var prices := PricesIn(pc.added, window, k);
        FoldedWindow(Alive(StoredRange(s.ranges, k), s.now), window, pc.s.price, [Least(prices), Greatest(prices)]);
        PricesInJoin(SeenBy(s, k), pc.added, window, k);
      } else {
        OthersUntouched(c, s, step, k);
      }
    }
  }

  lemma {:induction false} RunSeen(c: PriceSettings, s: State, steps: seq<Step>, t: State)
    requires RangesSeen(s) && Leads(c, s, steps, t)
    ensures RangesSeen(t)
    decreases |steps|
  {
    if steps != [] {
      StepSeen(c, s, steps[0]);
      RunSeen(c, AfterStep(c, s, steps[0]), steps[1..], t);
    }
  }

  /** A window starts with nothing folded in, and so exact. */
  lemma NewWindowHolds(c: PriceSettings, s: State, k: Scope, window: int, over: real)
    requires Reachable(c, s) && Prices(s, k, window) == []
    ensures RangeHolds(s, k, window, over)
  {
    var o, run :| Init(o) && Leads(c, o, run, s);
    RunSeen(c, o, run, s);
  }
}
