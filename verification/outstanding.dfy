/** What a route's outstanding count is in every run, command by command: the live operations,
    corrected by exactly the operations not counted yet, the retires not made yet, the retires
    made twice and the retires the floor swallowed. */
module Outstanding {
  import opened FeedTypes
  import opened FeedScripts
  import opened FeedMachine
  import opened NoOpLost

  function MintedOn(b: Books, r: Route): set<nat> {
    set id | id in b.minted && b.minted[id].route == r
  }

  /** Of some operations, those minted for a route. */
  function OnRoute(b: Books, ids: set<nat>, r: Route): set<nat> {
    set id | id in ids && id in b.minted && b.minted[id].route == r
  }

  /** Minted and not ended: each still has a copy somewhere. */
  function LiveOn(b: Books, r: Route): set<nat> {
    set id | id in b.minted && b.minted[id].route == r && id !in b.outcomes
  }

  /** Minted and not counted: the minter is about to count it, or died before. */
  function UncountedOn(s: State, r: Route): set<nat> {
    set id | id in s.books.minted && s.books.minted[id].route == r && id !in s.trace.counted
  }

  /** Ended and not retired: dropped as overdue by a walk that is about to retire it, or died. */
  function UnretiredOn(s: State, r: Route): set<nat> {
    set id | id in s.books.outcomes && id in s.books.minted && s.books.minted[id].route == r && id !in s.trace.retired
  }

  predicate CountedAndRetired(s: State, r: Route) {
    CountOf(s.outstanding, r)
    == |OnRoute(s.books, s.trace.counted, r)| - |OnRoute(s.books, s.trace.retired, r)|
       - TimesIn(s.trace.repeats, r) + TimesIn(s.trace.floored, r)
  }

  // ----- what the agents are about to count and retire -----

  predicate PcTallies(s: State, pc: Pc) {
    match pc
    case Counting(r, id) => id in s.books.minted && s.books.minted[id].route == r && id !in s.trace.counted
    case Walking(walk, leg) => leg.RetiringOverdue? ==> walk.copy.id in s.books.outcomes
    case _ => true
  }

  predicate BothCount(agents: map<nat, Pc>, a: nat, b: nat) {
    && a in agents && b in agents && agents[a].Counting? && agents[b].Counting?
    && agents[a].id == agents[b].id
  }

  /** No two agents are about to count the same operation. */
  ghost predicate EachCountsOwn(agents: map<nat, Pc>) {
    forall a, b :: BothCount(agents, a, b) ==> a == b
  }

  ghost predicate Tallied(s: State) {
    && (forall a :: a in s.agents ==> PcTallies(s, s.agents[a]))
    && EachCountsOwn(s.agents)
    && (forall id :: id in s.trace.counted ==> id in s.books.minted)
    && (forall id :: id in s.trace.retired ==> id in s.books.outcomes)
    && (forall id :: id in s.books.outcomes ==> id in s.books.minted)
    && (forall r: Route :: CountedAndRetired(s, r))
  }

  lemma OnRouteAdds(b: Books, ids: set<nat>, id: nat, r: Route)
    requires id in b.minted
    ensures |OnRoute(b, ids + {id}, r)| == |OnRoute(b, ids, r)| + (if id !in ids && b.minted[id].route == r then 1 else 0)
  {
    var before := OnRoute(b, ids, r);
    if id in ids {
      assert ids + {id} == ids;
    } else {
      assert OnRoute(b, ids + {id}, r) == if b.minted[id].route == r then before + {id} else before;
    }
  }

  /** A move that counts and retires nothing. */
  lemma QuietMoveTallies(s: State, t: State, a: nat)
    requires Tallied(s) && SameCounts(s, t)
    requires forall id :: id in s.books.minted ==> id in t.books.minted && t.books.minted[id] == s.books.minted[id]
    requires forall id :: id in s.books.outcomes ==> id in t.books.outcomes
    requires forall id :: id in t.books.outcomes ==> id in t.books.minted
    requires a in t.agents && t.agents == s.agents[a := t.agents[a]] && PcTallies(t, t.agents[a])
    requires t.agents[a].Counting? ==> t.agents[a].id !in s.books.minted
    ensures Tallied(t)
  {
    forall b | b in t.agents ensures PcTallies(t, t.agents[b]) {
      if b != a {
        assert PcTallies(s, s.agents[b]);
      }
    }
    forall r: Route ensures CountedAndRetired(t, r) {
      assert CountedAndRetired(s, r);
      assert OnRoute(t.books, t.trace.counted, r) == OnRoute(s.books, s.trace.counted, r);
      assert OnRoute(t.books, t.trace.retired, r) == OnRoute(s.books, s.trace.retired, r);
    }
    CountersStayApart(s, t, a);
  }

  lemma CountersStayApart(s: State, t: State, a: nat)
    requires Tallied(s) && a in t.agents && t.agents == s.agents[a := t.agents[a]]
    requires t.agents[a].Counting? ==> t.agents[a].id !in s.books.minted
    ensures EachCountsOwn(t.agents)
  {
    forall x | x in s.agents && s.agents[x].Counting? ensures s.agents[x].id in s.books.minted {
      assert PcTallies(s, s.agents[x]);
    }
    forall x, y | BothCount(t.agents, x, y) ensures x == y {
      assert x != a && y != a ==> BothCount(s.agents, x, y);
    }
  }

  /** A retire lowers the count unless it is at the floor, and is told apart from a repeat. */
  lemma RetireTallies(s: State, t: State, r: Route, id: nat, x: Route)
    requires CountedAndRetired(s, x) && id in s.books.minted && s.books.minted[id].route == r
    requires t.books.minted == s.books.minted
    requires t.outstanding == RetireIn(s, r, id).outstanding && t.trace == RetireIn(s, r, id).trace
    requires forall q :: CountOf(s.outstanding, q) >= 0
    ensures CountedAndRetired(t, x)
  {
    OnRouteAdds(s.books, s.trace.retired, id, x);
    assert OnRoute(t.books, t.trace.counted, x) == OnRoute(s.books, s.trace.counted, x);
    assert OnRoute(t.books, t.trace.retired, x) == OnRoute(s.books, s.trace.retired + {id}, x);
  }

  ghost predicate NoDebt(counts: map<Route, int>) {
    forall q: Route :: CountOf(counts, q) >= 0
  }

  lemma RetiringMoveTallies(s: State, t: State, a: nat, r: Route, id: nat)
    requires Tallied(s) && NoDebt(s.outstanding) && id in s.books.minted && s.books.minted[id].route == r
    requires t.books.minted == s.books.minted && id in t.books.outcomes
    requires forall i :: i in s.books.outcomes ==> i in t.books.outcomes
    requires forall i :: i in t.books.outcomes ==> i in t.books.minted
    requires t.outstanding == RetireIn(s, r, id).outstanding && t.trace == RetireIn(s, r, id).trace
    requires a in t.agents && t.agents == s.agents[a := t.agents[a]] && !t.agents[a].Counting? && PcTallies(t, t.agents[a])
    ensures Tallied(t) && NoDebt(t.outstanding)
  {
    forall b | b in t.agents ensures PcTallies(t, t.agents[b]) {
      if b != a {
        assert PcTallies(s, s.agents[b]);
      }
    }
    forall x: Route ensures CountedAndRetired(t, x) && CountOf(t.outstanding, x) >= 0 {
      assert CountOf(s.outstanding, x) >= 0 && CountedAndRetired(s, x);
      RetireTallies(s, t, r, id, x);
    }
    CountersStayApart(s, t, a);
  }

  lemma CountingTallies(s: State, t: State, a: nat)
    requires Tallied(s) && NoDebt(s.outstanding) && a in s.agents && s.agents[a].Counting?
    requires t == Goto(CountIn(s, s.agents[a].route, s.agents[a].id), a, Idle)
    ensures Tallied(t) && NoDebt(t.outstanding)
  {
    var id := s.agents[a].id;
    assert PcTallies(s, s.agents[a]);
    forall b | b in t.agents ensures PcTallies(t, t.agents[b]) {
      if b != a {
        assert PcTallies(s, s.agents[b]) && !BothCount(s.agents, a, b);
      }
    }
    forall x: Route ensures CountedAndRetired(t, x) && CountOf(t.outstanding, x) >= 0 {
      assert CountOf(s.outstanding, x) >= 0 && CountedAndRetired(s, x);
      OnRouteAdds(s.books, s.trace.counted, id, x);
      assert OnRoute(t.books, t.trace.retired, x) == OnRoute(s.books, s.trace.retired, x);
    }
    CountersStayApart(s, t, a);
  }

  lemma WorkTallies(c: Settings, s: State, a: nat, job: Job, stage: Stage, drawn: seq<UserId>)
    requires Tallied(s) && NoDebt(s.outstanding) && Sound(c, s) && a in s.agents && s.agents[a] == Working(job, stage)
    ensures var t := AfterWork(c, s, a, job, stage, drawn); Tallied(t) && NoDebt(t.outstanding)
  {
    var t := AfterWork(c, s, a, job, stage, drawn);
    assert SoundPc(c, s.books, s.agents[a]);
    if stage.Retiring? {
      RetiringMoveTallies(s, t, a, job.copy.op.route, job.copy.id);
    } else {
      QuietMoveTallies(s, t, a);
    }
  }

  lemma WalkTallies(c: Settings, s: State, a: nat, walk: Walk, leg: Leg)
    requires Tallied(s) && NoDebt(s.outstanding) && Sound(c, s) && a in s.agents && s.agents[a] == Walking(walk, leg)
    ensures var t := AfterWalk(c, s, a, walk, leg); Tallied(t) && NoDebt(t.outstanding)
  {
    var t := AfterWalk(c, s, a, walk, leg);
    assert SoundPc(c, s.books, s.agents[a]) && PcTallies(s, s.agents[a]);
    if leg.RetiringOverdue? {
      RetiringMoveTallies(s, t, a, walk.copy.op.route, walk.copy.id);
    } else {
      QuietMoveTallies(s, t, a);
    }
  }

  lemma SendTallies(c: Settings, s: State, a: nat, op: Op)
    requires Tallied(s) && Sound(c, s) && a in s.agents && s.agents[a] == Sending(op)
    ensures Tallied(AfterProceed(c, s, a, []))
  {
    var t := AfterProceed(c, s, a, []);
    assert s.books.nextEntry !in s.books.minted;
    QuietMoveTallies(s, t, a);
  }

  lemma ProceedTallies(c: Settings, s: State, a: nat, drawn: seq<UserId>)
    requires Tallied(s) && NoDebt(s.outstanding) && Sound(c, s) && CanProceed(c, s, a, drawn)
    ensures var t := AfterProceed(c, s, a, drawn); Tallied(t) && NoDebt(t.outstanding)
  {
    var pc := s.agents[a];
    if pc.Working? {
      WorkTallies(c, s, a, pc.job, pc.stage, drawn);
    } else if pc.Walking? {
      WalkTallies(c, s, a, pc.walk, pc.leg);
    } else if pc.Sending? {
      SendTallies(c, s, a, pc.op);
    } else if pc.Counting? {
      CountingTallies(s, AfterProceed(c, s, a, drawn), a);
    } else {
      QuietMoveTallies(s, AfterProceed(c, s, a, drawn), a);
    }
  }

  lemma BeginTallies(c: Settings, s: State, a: nat, o: Opening)
    requires Tallied(s) && CanBegin(c, s, a, o)
    ensures Tallied(AfterBegin(c, s, a, o))
  {
    OpeningsCountNothing(c, s, a, o);
    QuietMoveTallies(s, AfterBegin(c, s, a, o), a);
  }

  lemma OpeningsCountNothing(c: Settings, s: State, a: nat, o: Opening)
    requires CanBegin(c, s, a, o)
    ensures
      var t := AfterBegin(c, s, a, o);
      && PcTallies(t, t.agents[a]) && !t.agents[a].Counting?
      && t.books.minted == s.books.minted && t.books.outcomes == s.books.outcomes
  {
  }

  lemma EventTallies(c: Settings, s: State, e: Event)
    requires Tallied(s) && CanHappen(c, s, e)
    ensures Tallied(AfterEvent(c, s, e))
  {
    var t := AfterEvent(c, s, e);
    if e.Crash? {
      QuietMoveTallies(s, t, e.agent);
    } else {
      SameTallies(s, t);
    }
  }

  lemma SameTallies(s: State, t: State)
    requires Tallied(s) && t.books == s.books && t.outstanding == s.outstanding && t.trace == s.trace && t.agents == s.agents
    ensures Tallied(t)
  {
    forall b | b in t.agents ensures PcTallies(t, t.agents[b]) {
      assert PcTallies(s, s.agents[b]);
    }
    forall r: Route ensures CountedAndRetired(t, r) {
      assert CountedAndRetired(s, r);
    }
  }

  lemma StepTallies(c: Settings, s: State, step: Step)
    requires Tallied(s) && NoDebt(s.outstanding) && Sound(c, s) && Enabled(c, s, step)
    ensures var t := After(c, s, step); Tallied(t) && NoDebt(t.outstanding)
  {
    match step
    case Begin(a, o) => BeginTallies(c, s, a, o);
    case Proceed(a, drawn) => ProceedTallies(c, s, a, drawn);
    case Happen(e) => EventTallies(c, s, e);
  }

  lemma {:induction false} RunTallies(c: Settings, s: State, steps: seq<Step>, t: State)
    requires Tallied(s) && NoDebt(s.outstanding) && Sound(c, s) && Leads(c, s, steps, t)
    ensures Tallied(t) && NoDebt(t.outstanding)
    decreases |steps|
  {
    if steps != [] {
      StepTallies(c, s, steps[0]);
      StepSound(c, s, steps[0]);
      RunTallies(c, After(c, s, steps[0]), steps[1..], t);
    }
  }

  lemma ReachableTallied(c: Settings, t: State)
    requires Reachable(c, t)
    ensures Tallied(t) && NoDebt(t.outstanding)
  {
    var s, steps :| Init(s) && Leads(c, s, steps, t);
    forall r: Route ensures CountedAndRetired(s, r) {
      assert OnRoute(s.books, s.trace.counted, r) == {} && OnRoute(s.books, s.trace.retired, r) == {};
    }
    RunTallies(c, s, steps, t);
  }

  // ----- the count, in terms of live operations -----

  lemma PartSize(whole: set<nat>, part: set<nat>)
    requires part <= whole
    ensures |whole| == |part| + |whole - part|
  {
    assert whole == part + (whole - part);
  }

  /** However operations are duplicated or retired twice, no route's count is ever negative. */
  lemma NeverNegative(c: Settings, t: State, r: Route)
    requires Reachable(c, t)
    ensures CountOf(t.outstanding, r) >= 0
  {
    ReachableTallied(c, t);
  }

  /** In every reachable state a route's count is its live operations, less those not counted
      yet, plus those ended and not retired yet, less retires beyond the first of an operation,
      plus retires swallowed at the floor. */
  lemma CountIsAccounted(c: Settings, t: State, r: Route)
    requires Reachable(c, t)
    ensures CountOf(t.outstanding, r)
            == |LiveOn(t.books, r)| - |UncountedOn(t, r)| + |UnretiredOn(t, r)|
               - TimesIn(t.trace.repeats, r) + TimesIn(t.trace.floored, r)
  {
    ReachableTallied(c, t);
    assert CountedAndRetired(t, r);
    var minted := MintedOn(t.books, r);
    var counted, retired := OnRoute(t.books, t.trace.counted, r), OnRoute(t.books, t.trace.retired, r);
    var ended := minted - LiveOn(t.books, r);
    PartSize(minted, counted);
    assert minted - counted == UncountedOn(t, r);
    PartSize(minted, LiveOn(t.books, r));
    PartSize(ended, retired);
    assert ended - retired == UnretiredOn(t, r);
  }

  /** So it is exact precisely when what is missing balances what is in excess. */
  lemma ExactWhenBalanced(c: Settings, t: State, r: Route)
    requires Reachable(c, t)
    ensures CountOf(t.outstanding, r) == |LiveOn(t.books, r)| <==>
              |UncountedOn(t, r)| + TimesIn(t.trace.repeats, r) == |UnretiredOn(t, r)| + TimesIn(t.trace.floored, r)
  {
    CountIsAccounted(c, t, r);
  }
}
