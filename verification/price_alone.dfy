/** A price request that nothing interrupts: its commands together make exactly the transition
    that the price window describes as one call. */
module PriceAlone {
  import opened FeedTypes
  import opened PriceRanges
  import opened Pricing
  import opened PriceWindow
  import opened PriceRace
  import opened PriceService

  ghost predicate Path(c: PriceSettings, s: State, t: State) {
    exists steps :: Leads(c, s, steps, t)
  }

  lemma Stays(c: PriceSettings, s: State)
    ensures Path(c, s, s)
  {
    assert Leads(c, s, [], s);
  }

  lemma Onto(c: PriceSettings, s: State, step: Step, t: State)
    requires Enabled(s, step) && Path(c, AfterStep(c, s, step), t)
    ensures Path(c, s, t)
  {
    var steps :| Leads(c, AfterStep(c, s, step), steps, t);
    assert ([step] + steps)[1..] == steps;
    assert Leads(c, s, [step] + steps, t);
  }

  /** The keys as one call sees them. */
  function BoardOf(s: State): Board {
    Board(s.snapshot, s.quotes, s.ranges, [])
  }

  lemma {:induction false} MissedIsMissing(s: State, routes: seq<Route>)
    ensures Missed(s, routes, s.now) == Missing(BoardOf(s), routes, s.now)
  {
    if routes != [] {
      MissedIsMissing(s, routes[..|routes| - 1]);
    }
  }

  /** What writing back a list of prices does to the quotes. */
  function Filled(c: PriceSettings, quotes: map<Route, Keyed<Quote>>, snap: Snapshot, todo: seq<(Route, int)>, now: real): map<Route, Keyed<Quote>>
    decreases |todo|
  {
    if todo == [] then quotes
    else Filled(c, quotes[todo[0].0 := Keyed(Quote(todo[0].1, snap.expiresAt), now + c.ttl)], snap, todo[1..], now)
  }

  function Fresh(c: PriceSettings, snap: Snapshot, load: Load, r: Route, now: real): Keyed<Quote> {
    Keyed(Quote(PriceOf(c, snap, load, r), snap.expiresAt), now + c.ttl)
  }

  /** Freezing the first route and then the others freezes them all. */
  lemma FirstFrozen(c: PriceSettings, quotes: map<Route, Keyed<Quote>>, snap: Snapshot, load: Load, r: Route, rest: seq<Route>, now: real)
    ensures Frozen(c, quotes[r := Fresh(c, snap, load, r, now)], snap, load, rest, now)
            == Frozen(c, quotes, snap, load, [r] + rest, now)
  {
    var x := Frozen(c, quotes[r := Fresh(c, snap, load, r, now)], snap, load, rest, now);
    var y := Frozen(c, quotes, snap, load, [r] + rest, now);
    assert x.Keys == y.Keys;
    forall k | k in x ensures x[k] == y[k] {
    }
  }

  lemma {:induction false} FilledIsFrozen(c: PriceSettings, quotes: map<Route, Keyed<Quote>>, snap: Snapshot, load: Load,
                                          missing: seq<Route>, now: real)
    ensures Filled(c, quotes, snap, Priced(c, snap, load, missing), now) == Frozen(c, quotes, snap, load, missing, now)
    decreases |missing|
  {
    var todo := Priced(c, snap, load, missing);
    if missing == [] {
      assert Frozen(c, quotes, snap, load, [], now) == quotes;
    } else {
      var r, rest := missing[0], missing[1..];
      assert todo[1..] == Priced(c, snap, load, rest) && missing == [r] + rest;
      FilledIsFrozen(c, quotes[r := Fresh(c, snap, load, r, now)], snap, load, rest, now);
      FirstFrozen(c, quotes, snap, load, r, rest, now);
    }
  }

  function Closed(q: Request): Request {
    q.(pc := Done)
  }

  /** Folding the next scope's prices in. */
  lemma FoldsNext(c: PriceSettings, s: State, id: nat, load: Load, before: map<Scope, Keyed<Spread>>, done: set<Scope>)
    requires id in s.requests && s.requests[id].pc.Observing? && s.requests[id].pc.scopes != []
    requires s.requests[id].pc.scopes[0] !in done
    requires IsObserved(c, before, s.ranges, s.requests[id].pc.s, s.requests[id].pc.added, done, s.now)
    ensures
      var pc, u := s.requests[id].pc, AfterStep(c, s, Proceed(id, load));
      && id in u.requests && u.requests == s.requests[id := u.requests[id]]
      && u.requests[id] == s.requests[id].(pc := Observing(pc.s, pc.scopes[1..], pc.added))
      && u.snapshot == s.snapshot && u.quotes == s.quotes && u.now == s.now
      && IsObserved(c, before, u.ranges, pc.s, pc.added, done + {pc.scopes[0]}, s.now)
  {
    var pc, u := s.requests[id].pc, AfterStep(c, s, Proceed(id, load));
    ObservedOneMore(c, before, s.ranges, u.ranges, pc.s, pc.added, done, pc.scopes[0], s.now);
  }

  /** Folding prices into the ranges still to come, uninterrupted. */
  lemma {:induction false} FoldsIn(c: PriceSettings, s: State, id: nat, load: Load, before: map<Scope, Keyed<Spread>>, done: set<Scope>) returns (t: State)
    requires id in s.requests && s.requests[id].pc.Observing?
    requires var pc := s.requests[id].pc;
             Distinct(pc.scopes) && (forall k :: k in pc.scopes <==> k in ScopesOf(pc.added) && k !in done) && done <= ScopesOf(pc.added)
    requires IsObserved(c, before, s.ranges, s.requests[id].pc.s, s.requests[id].pc.added, done, s.now)
    ensures Path(c, s, t) && t.snapshot == s.snapshot && t.quotes == s.quotes && t.requests == s.requests[id := Closed(s.requests[id])]
    ensures
      var pc := s.requests[id].pc;
      t.ranges == Observed(c, before, pc.s, pc.added, ScopesOf(pc.added), s.now)
    decreases |s.requests[id].pc.scopes|
  {
    var pc, u := s.requests[id].pc, AfterStep(c, s, Proceed(id, load));
    if pc.scopes == [] {
      t := u;
      Stays(c, u);
      assert done == ScopesOf(pc.added);
      IsObservedIsObserved(c, before, s.ranges, pc.s, pc.added, done, s.now);
    } else {
      FirstScope(pc.scopes);
      FoldsNext(c, s, id, load, before, done);
      t := FoldsIn(c, u, id, load, before, done + {pc.scopes[0]});
      assert u.requests[id := Closed(u.requests[id])] == s.requests[id := Closed(s.requests[id])];
    }
    Onto(c, s, Proceed(id, load), t);
  }

  lemma FirstScope(scopes: seq<Scope>)
    requires Distinct(scopes) && scopes != []
    ensures Distinct(scopes[1..]) && scopes[0] !in scopes[1..] && forall k :: k in scopes <==> k == scopes[0] || k in scopes[1..]
  {
    assert scopes == [scopes[0]] + scopes[1..];
  }

  /** Writing back and observing, uninterrupted. */
  lemma {:induction false} WritesBack(c: PriceSettings, s: State, id: nat, load: Load) returns (t: State)
    requires id in s.requests && s.requests[id].pc.Freezing?
    ensures Path(c, s, t) && t.snapshot == s.snapshot && t.requests == s.requests[id := Closed(s.requests[id])]
    ensures
      var pc := s.requests[id].pc;
      && t.quotes == Filled(c, s.quotes, pc.s, pc.todo, s.now)
      && t.ranges == Observed(c, s.ranges, pc.s, pc.added, ScopesOf(pc.added), s.now)
    decreases |s.requests[id].pc.todo|
  {
    var u := AfterStep(c, s, Proceed(id, load));
    if s.requests[id].pc.todo == [] {
      t := FoldsIn(c, u, id, load, s.ranges, {});
    } else {
      t := WritesBack(c, u, id, load);
    }
    assert u.requests[id := Closed(u.requests[id])] == s.requests[id := Closed(s.requests[id])];
    Onto(c, s, Proceed(id, load), t);
  }

  /** Pricing what is missing against the snapshot in hand. */
  lemma PricesAll(c: PriceSettings, s: State, id: nat, load: Load) returns (t: State)
    requires id in s.requests && s.requests[id].pc.Sizing?
    ensures Path(c, s, t) && t.snapshot == s.snapshot && id in t.requests && t.requests[id].pc.Done?
    ensures
      var q := s.requests[id];
      var added := ComputedFor(c, q.pc.s, load, q.pc.missing);
      && t.quotes == Frozen(c, s.quotes, q.pc.s, load, q.pc.missing, s.now)
      && t.ranges == Observed(c, s.ranges, q.pc.s, added, ScopesOf(added), s.now)
      && t.requests[id].prices == q.prices + map r | r in q.pc.missing :: PriceOf(c, q.pc.s, load, r)
  {
    var q, u := s.requests[id], AfterStep(c, s, Proceed(id, load));
    t := WritesBack(c, u, id, load);
    FilledIsFrozen(c, s.quotes, q.pc.s, load, q.pc.missing, s.now);
    Onto(c, s, Proceed(id, load), t);
  }

  /** The snapshot in hand, published on the way if there was none. */
  lemma FetchesCurrent(c: PriceSettings, s: State, id: nat, load: Load) returns (t: State)
    requires id in s.requests && s.requests[id].pc.Fetching? && s.requests[id].pc.missing != []
    ensures Path(c, s, t) && t.quotes == s.quotes && t.ranges == s.ranges && t.now == s.now && t.snapshot == Current(c, BoardOf(s), s.now, load).snapshot
    ensures id in t.requests
            && t.requests[id] == s.requests[id].(pc := Sizing(Published(Current(c, BoardOf(s), s.now, load)), s.requests[id].pc.missing))
  {
    var step := Proceed(id, load);
    var s1 := AfterStep(c, s, step);
    if Alive(s.snapshot, s.now).Some? {
      t := s1;
      Stays(c, t);
    } else {
      var s2 := AfterStep(c, s1, step);
      var s3 := AfterStep(c, s2, step);
      var s4 := AfterStep(c, s3, step);
      t := AfterStep(c, s4, step);
      Stays(c, t);
      Onto(c, s4, step, t);
      Onto(c, s3, step, t);
      Onto(c, s2, step, t);
      Onto(c, s1, step, t);
    }
    Onto(c, s, step, t);
  }

  lemma Joined(c: PriceSettings, s: State, u: State, t: State)
    requires Path(c, s, u) && Path(c, u, t)
    ensures Path(c, s, t)
  {
    var run :| Leads(c, s, run, u);
    var steps :| Leads(c, u, steps, t);
    ReachesOn(c, s, run, u, steps, t);
  }

  /** A price request run through without interruption, at one moment and under one load, leaves
      the snapshot, the frozen prices and the observed ranges of the one-call model, and answers
      the same prices. */
  lemma AloneIsOneCall(c: PriceSettings, s: State, id: nat, load: Load, routes: seq<Route>) returns (t: State)
    requires id in s.requests && s.requests[id] == Request(map[], Looking(s.now, routes))
    ensures Path(c, s, t) && id in t.requests && t.requests[id].pc.Done?
    ensures
      var b := Asked(c, BoardOf(s), routes, s.now, load);
      && t.snapshot == b.snapshot && t.quotes == b.quotes && t.ranges == b.ranges
      && forall r :: r in t.requests[id].prices <==> r in routes
    ensures forall r :: r in routes ==> t.requests[id].prices[r] == Answer(c, BoardOf(s), routes, s.now, load, r)
  {
    var step := Proceed(id, load);
    var u := AfterStep(c, s, step);
    MissedIsMissing(s, routes);
    if Missed(s, routes, s.now) == [] {
      t := u;
      Stays(c, t);
    } else {
      var v := FetchesCurrent(c, u, id, load);
      t := PricesAll(c, v, id, load);
      Joined(c, u, v, t);
      assert BoardOf(u) == BoardOf(s);
    }
    Onto(c, s, step, t);
  }
}
