/** First-park deadlines over whole runs: every deadline found on a copy was set by a first
    park, and an operation has no more of them than its first entry had consumers. */
module Deadlines {
  import opened FeedTypes
  import opened FeedScripts
  import opened FeedMachine
  import opened NoOpLost

  // ----- deadlines come from first parks -----

  /** The deadline of a copy is one that a first park of its operation set. */
  predicate Known(x: Trace, k: Copy) {
    k.op.expires.Some? ==> (k.id, k.op.expires.value) in x.parks
  }

  /** A copy never parked travels on the operation's first entry. */
  predicate FirstOn(e: nat, k: Copy) {
    k.op.expires.None? ==> e == k.id
  }

  predicate EntryKnown(x: Trace, e: nat, k: Copy) {
    Known(x, k) && FirstOn(e, k)
  }

  predicate ParkedKnown(x: Trace, k: Copy) {
    k.op.expires.Some? && Known(x, k)
  }

  predicate EachOnce(batch: seq<(nat, Copy)>) {
    forall i, j :: 0 <= i < j < |batch| ==> batch[i].0 != batch[j].0
  }

  predicate PcKnown(x: Trace, pc: Pc) {
    match pc
    case Working(job, _) =>
      && EntryKnown(x, job.entry, job.copy)
      && (forall i :: 0 <= i < |job.rest| ==> EntryKnown(x, job.rest[i].0, job.rest[i].1))
      && EachOnce([(job.entry, job.copy)] + job.rest)
    case Walking(walk, _) =>
      && ParkedKnown(x, walk.copy)
      && forall i :: 0 <= i < |walk.rest| ==> ParkedKnown(x, walk.rest[i].1)
    case Sending(op) => op.expires.None?
    case _ => true
  }

  predicate BooksKnown(b: Books, x: Trace) {
    && (forall e :: e in b.stream ==> EntryKnown(x, e, b.stream[e]))
    && (forall m :: m in b.retry ==> ParkedKnown(x, b.retry[m].copy))
  }

  predicate AgentsKnown(x: Trace, agents: map<nat, Pc>) {
    forall a :: a in agents ==> PcKnown(x, agents[a])
  }

  predicate AllKnown(s: State) {
    BooksKnown(s.books, s.trace) && AgentsKnown(s.trace, s.agents)
  }

  lemma PcStaysKnown(x: Trace, y: Trace, pc: Pc)
    requires PcKnown(x, pc) && x.parks <= y.parks
    ensures PcKnown(y, pc)
  {
  }

  /** A move of one agent, with more first parks on record at most. */
  lemma MoveKnown(s: State, t: State, a: nat)
    requires AllKnown(s) && s.trace.parks <= t.trace.parks && BooksKnown(t.books, t.trace)
    requires a in t.agents && t.agents == s.agents[a := t.agents[a]] && PcKnown(t.trace, t.agents[a])
    ensures AllKnown(t)
  {
    forall b | b in t.agents ensures PcKnown(t.trace, t.agents[b]) {
      if b != a {
        PcStaysKnown(s.trace, t.trace, s.agents[b]);
      }
    }
  }

  lemma NextJobKnown(x: Trace, batch: seq<(nat, Copy)>)
    requires EachOnce(batch) && forall i :: 0 <= i < |batch| ==> EntryKnown(x, batch[i].0, batch[i].1)
    ensures PcKnown(x, NextJob(batch))
  {
    if batch != [] {
      assert [batch[0]] + batch[1..] == batch;
    }
  }

  lemma RestKnown(x: Trace, job: Job, stage: Stage)
    requires PcKnown(x, Working(job, stage))
    ensures EachOnce(job.rest) && PcKnown(x, NextJob(job.rest))
  {
    var all := [(job.entry, job.copy)] + job.rest;
    assert forall i :: 0 <= i < |job.rest| ==> job.rest[i] == all[i + 1];
    NextJobKnown(x, job.rest);
  }

  lemma NextWalkKnown(c: Settings, x: Trace, at: int, due: seq<(nat, Copy)>)
    requires forall i :: 0 <= i < |due| ==> ParkedKnown(x, due[i].1)
    ensures PcKnown(x, NextWalk(c, at, due))
  {
    if due != [] {
      assert ParkedKnown(x, due[0].1);
    }
  }

  /** The entries a claim hands over are the ids that still exist, each once. */
  lemma {:induction false} ClaimedOnce(stream: map<nat, Copy>, ids: seq<nat>)
    requires Distinct(ids)
    ensures EachOnce(ClaimedBatch(stream, ids))
    ensures forall e :: Lists(ClaimedBatch(stream, ids), e) <==> e in ids && e in stream
  {
    if ids != [] {
      var rest := ids[1..];
      FirstApart(ids);
      ClaimedOnce(stream, rest);
      if ids[0] in stream {
        assert !Lists(ClaimedBatch(stream, rest), ids[0]);
        BatchPlus(ids[0], stream[ids[0]], ClaimedBatch(stream, rest));
      }
    }
  }

  lemma FirstApart(ids: seq<nat>)
    requires Distinct(ids) && ids != []
    ensures Distinct(ids[1..]) && ids[0] !in ids[1..] && forall e :: e in ids <==> e == ids[0] || e in ids[1..]
  {
    assert ids == [ids[0]] + ids[1..];
  }

  lemma BatchPlus(e: nat, k: Copy, batch: seq<(nat, Copy)>)
    requires EachOnce(batch) && !Lists(batch, e)
    ensures EachOnce([(e, k)] + batch)
    ensures forall x :: Lists([(e, k)] + batch, x) <==> x == e || Lists(batch, x)
  {
    var all := [(e, k)] + batch;
    assert all[0].0 == e;
    assert forall i :: 0 < i < |all| ==> all[i] == batch[i - 1];
    forall x ensures Lists(all, x) <==> x == e || Lists(batch, x) {
      if Lists(batch, x) {
        var i :| 0 <= i < |batch| && batch[i].0 == x;
        assert all[i + 1].0 == x;
      }
    }
  }

  predicate Lists(batch: seq<(nat, Copy)>, e: nat) {
    exists i :: 0 <= i < |batch| && batch[i].0 == e
  }

  lemma BeginKnown(c: Settings, s: State, a: nat, o: Opening)
    requires AllKnown(s) && CanBegin(c, s, a, o)
    ensures AllKnown(AfterBegin(c, s, a, o))
  {
    var t := AfterBegin(c, s, a, o);
    match o {
      case Read(e) => NextJobKnown(t.trace, [(e, s.books.stream[e])]);
      case Reclaim(ids) =>
        ClaimedOnce(s.books.stream, ids);
        NextJobKnown(t.trace, ClaimedBatch(s.books.stream, ids));
      case Scan(due) => NextWalkKnown(c, t.trace, s.now, DueBatch(s.books.retry, due));
      case _ =>
    }
    MoveKnown(s, t, a);
  }

  /** Parking puts a known deadline on record and on the copy. */
  lemma ParkingKnown(c: Settings, s: State, job: Job, at: int)
    requires BooksKnown(s.books, s.trace) && EntryKnown(s.trace, job.entry, job.copy)
    ensures BooksKnown(WorkedBooks(c, s.books, job, Parking(at)), Traced(c, s, job.copy, Parking(at)))
  {
  }

  lemma WorkKnown(c: Settings, s: State, a: nat, job: Job, stage: Stage, drawn: seq<UserId>)
    requires AllKnown(s) && a in s.agents && s.agents[a] == Working(job, stage)
    ensures AllKnown(AfterWork(c, s, a, job, stage, drawn))
  {
    var t := AfterWork(c, s, a, job, stage, drawn);
    assert PcKnown(s.trace, s.agents[a]);
    if stage.Parking? {
      ParkingKnown(c, s, job, stage.at);
    }
    if stage.Acking? {
      RestKnown(s.trace, job, stage);
    }
    PcStaysKnown(s.trace, t.trace, s.agents[a]);
    MoveKnown(s, t, a);
  }

  lemma WalkKnown(c: Settings, s: State, a: nat, walk: Walk, leg: Leg)
    requires AllKnown(s) && a in s.agents && s.agents[a] == Walking(walk, leg)
    ensures AllKnown(AfterWalk(c, s, a, walk, leg))
  {
    var t := AfterWalk(c, s, a, walk, leg);
    assert PcKnown(s.trace, s.agents[a]);
    NextWalkKnown(c, s.trace, walk.at, walk.rest);
    PcStaysKnown(s.trace, t.trace, t.agents[a]);
    MoveKnown(s, t, a);
  }

  lemma ProceedKnown(c: Settings, s: State, a: nat, drawn: seq<UserId>)
    requires AllKnown(s) && CanProceed(c, s, a, drawn)
    ensures AllKnown(AfterProceed(c, s, a, drawn))
  {
    var pc := s.agents[a];
    if pc.Working? {
      WorkKnown(c, s, a, pc.job, pc.stage, drawn);
    } else if pc.Walking? {
      WalkKnown(c, s, a, pc.walk, pc.leg);
    } else {
      assert PcKnown(s.trace, pc);
      MoveKnown(s, AfterProceed(c, s, a, drawn), a);
    }
  }

  lemma EventKnown(c: Settings, s: State, e: Event)
    requires AllKnown(s) && CanHappen(c, s, e)
    ensures AllKnown(AfterEvent(c, s, e))
  {
    if e.Crash? {
      MoveKnown(s, AfterEvent(c, s, e), e.agent);
    }
  }

  // ----- no more deadlines than hand-outs -----

  function ParksOf(x: Trace, id: nat): set<int> {
    set d | d in x.parks && d.0 == id :: d.1
  }

  /** The consumer still has an operation's first entry to deal with. */
  predicate HoldsFirst(pc: Pc, e: nat) {
    pc.Working? && ((pc.job.entry == e && !pc.stage.Deleting? && !pc.stage.Acking?) || Lists(pc.job.rest, e))
  }

  function Holders(agents: map<nat, Pc>, e: nat): set<nat> {
    set a | a in agents && HoldsFirst(agents[a], e)
  }

  predicate WithinFor(s: State, id: nat) {
    |ParksOf(s.trace, id)| + |Holders(s.agents, id)| <= HandedTimes(s.trace, id)
  }

  ghost predicate Within(s: State) {
    forall id: nat :: WithinFor(s, id)
  }

  lemma HoldersMove(agents: map<nat, Pc>, a: nat, pc: Pc, e: nat)
    requires a in agents
    ensures
      var before, after := HoldsFirst(agents[a], e), HoldsFirst(pc, e);
      |Holders(agents[a := pc], e)| == |Holders(agents, e)| + (if after then 1 else 0) - (if before then 1 else 0)
  {
    var others := Holders(agents, e) - {a};
    assert Holders(agents[a := pc], e) == if HoldsFirst(pc, e) then others + {a} else others;
    assert Holders(agents, e) == if HoldsFirst(agents[a], e) then others + {a} else others;
  }

  lemma ParksGrow(x: Trace, id: nat, key: nat, d: int)
    ensures
      var y := x.(parks := x.parks + {(key, d)});
      |ParksOf(y, id)| <= |ParksOf(x, id)| + (if id == key then 1 else 0)
  {
    var y := x.(parks := x.parks + {(key, d)});
    if id == key {
      assert ParksOf(y, id) == ParksOf(x, id) + {d};
    } else {
      assert ParksOf(y, id) == ParksOf(x, id);
    }
  }

  lemma ReadWithin(c: Settings, s: State, a: nat, e: nat)
    requires Within(s) && CanBegin(c, s, a, Read(e))
    ensures Within(AfterBegin(c, s, a, Read(e)))
  {
    var t := AfterBegin(c, s, a, Read(e));
    forall id: nat ensures WithinFor(t, id) {
      assert WithinFor(s, id);
      HoldersMove(s.agents, a, t.agents[a], id);
      assert ParksOf(t.trace, id) == ParksOf(s.trace, id);
    }
  }

  lemma ReclaimWithin(c: Settings, s: State, a: nat, ids: seq<nat>)
    requires Within(s) && CanBegin(c, s, a, Reclaim(ids))
    ensures Within(AfterBegin(c, s, a, Reclaim(ids)))
  {
    var t := AfterBegin(c, s, a, Reclaim(ids));
    ClaimedOnce(s.books.stream, ids);
    var batch := ClaimedBatch(s.books.stream, ids);
    forall id: nat ensures WithinFor(t, id) {
      assert WithinFor(s, id);
      HoldersMove(s.agents, a, t.agents[a], id);
      NextJobHolds(batch, id);
      assert ParksOf(t.trace, id) == ParksOf(s.trace, id);
    }
  }

  lemma NextJobHolds(batch: seq<(nat, Copy)>, e: nat)
    ensures HoldsFirst(NextJob(batch), e) ==> Lists(batch, e)
  {
    if batch != [] {
      var rest := batch[1..];
      if i :| 0 <= i < |rest| && rest[i].0 == e {
        assert batch[i + 1].0 == e;
      }
    }
  }

  lemma OtherBeginWithin(c: Settings, s: State, a: nat, o: Opening)
    requires Within(s) && CanBegin(c, s, a, o) && !o.Read? && !o.Reclaim?
    ensures Within(AfterBegin(c, s, a, o))
  {
    QuietMoveWithin(s, AfterBegin(c, s, a, o), a);
  }

  /** A move that sets no deadline and takes no new entry in hand. */
  lemma QuietMoveWithin(s: State, t: State, a: nat)
    requires Within(s) && t.trace.parks == s.trace.parks && t.trace.handed == s.trace.handed
    requires a in s.agents && a in t.agents && t.agents == s.agents[a := t.agents[a]]
    requires forall e :: HoldsFirst(t.agents[a], e) ==> HoldsFirst(s.agents[a], e)
    ensures Within(t)
  {
    forall id: nat ensures WithinFor(t, id) {
      assert WithinFor(s, id);
      HoldersMove(s.agents, a, t.agents[a], id);
      assert ParksOf(t.trace, id) == ParksOf(s.trace, id);
    }
  }

  /** Parking an entry for the first time uses up one hand-out of it. */
  lemma ParkWithin(c: Settings, s: State, a: nat, job: Job, at: int)
    requires Within(s) && AllKnown(s) && a in s.agents && s.agents[a] == Working(job, Parking(at))
    ensures Within(AfterWork(c, s, a, job, Parking(at), []))
  {
    var t := AfterWork(c, s, a, job, Parking(at), []);
    assert PcKnown(s.trace, s.agents[a]);
    forall id: nat ensures WithinFor(t, id) {
      assert WithinFor(s, id);
      HoldersMove(s.agents, a, t.agents[a], id);
      NotListedTwice(job, id);
      ParksGrow(s.trace, id, job.copy.id, at + c.retryMaxAge);
    }
  }

  lemma NotListedTwice(job: Job, e: nat)
    requires EachOnce([(job.entry, job.copy)] + job.rest)
    ensures job.entry == e ==> !Lists(job.rest, e)
  {
    var all := [(job.entry, job.copy)] + job.rest;
    if i :| 0 <= i < |job.rest| && job.rest[i].0 == e {
      assert all[0].0 == job.entry && all[i + 1].0 == e;
    }
  }

  lemma OtherWorkWithin(c: Settings, s: State, a: nat, job: Job, stage: Stage, drawn: seq<UserId>)
    requires Within(s) && a in s.agents && s.agents[a] == Working(job, stage) && !stage.Parking?
    ensures Within(AfterWork(c, s, a, job, stage, drawn))
  {
    var t := AfterWork(c, s, a, job, stage, drawn);
    forall e | HoldsFirst(t.agents[a], e) ensures HoldsFirst(s.agents[a], e) {
      if stage.Acking? {
        NextJobHolds(job.rest, e);
      }
    }
    QuietMoveWithin(s, t, a);
  }

  lemma ProceedWithin(c: Settings, s: State, a: nat, drawn: seq<UserId>)
    requires Within(s) && AllKnown(s) && CanProceed(c, s, a, drawn)
    ensures Within(AfterProceed(c, s, a, drawn))
  {
    var pc := s.agents[a];
    if !pc.Working? {
      RequestWithin(c, s, a, drawn);
    } else if pc.stage.Parking? {
      ParkWithin(c, s, a, pc.job, pc.stage.at);
    } else {
      OtherWorkWithin(c, s, a, pc.job, pc.stage, drawn);
    }
  }

  lemma RequestWithin(c: Settings, s: State, a: nat, drawn: seq<UserId>)
    requires Within(s) && CanProceed(c, s, a, drawn) && !s.agents[a].Working?
    ensures Within(AfterProceed(c, s, a, drawn))
  {
    var t := AfterProceed(c, s, a, drawn);
    forall e ensures !HoldsFirst(t.agents[a], e) {
    }
    QuietMoveWithin(s, t, a);
  }

  lemma StepWithin(c: Settings, s: State, step: Step)
    requires Within(s) && AllKnown(s) && Enabled(c, s, step)
    ensures Within(After(c, s, step)) && AllKnown(After(c, s, step))
  {
    match step
    case Begin(a, o) =>
      BeginKnown(c, s, a, o);
      match o {
        case Read(e) => ReadWithin(c, s, a, e);
        case Reclaim(ids) => ReclaimWithin(c, s, a, ids);
        case _ => OtherBeginWithin(c, s, a, o);
      }
    case Proceed(a, drawn) =>
      ProceedKnown(c, s, a, drawn);
      ProceedWithin(c, s, a, drawn);
    case Happen(e) =>
      EventKnown(c, s, e);
      EventWithin(c, s, e);
  }

  lemma EventWithin(c: Settings, s: State, e: Event)
    requires Within(s) && CanHappen(c, s, e)
    ensures Within(AfterEvent(c, s, e))
  {
    var t := AfterEvent(c, s, e);
    if e.Crash? {
      QuietMoveWithin(s, t, e.agent);
    } else {
      forall id: nat ensures WithinFor(t, id) {
        assert WithinFor(s, id);
      }
    }
  }

  lemma {:induction false} RunWithin(c: Settings, s: State, steps: seq<Step>, t: State)
    requires Within(s) && AllKnown(s) && Leads(c, s, steps, t)
    ensures Within(t) && AllKnown(t)
    decreases |steps|
  {
    if steps != [] {
      StepWithin(c, s, steps[0]);
      RunWithin(c, After(c, s, steps[0]), steps[1..], t);
    }
  }

  lemma ReachableWithin(c: Settings, t: State)
    requires Reachable(c, t)
    ensures Within(t) && AllKnown(t)
  {
    var s, steps :| Init(s) && Leads(c, s, steps, t);
    forall id: nat ensures WithinFor(s, id) {
      assert ParksOf(s.trace, id) == {} && Holders(s.agents, id) == {};
    }
    RunWithin(c, s, steps, t);
  }

  /** However often a copy was parked and re-added, its deadline is one that a first park set;
      every member of the retry set has one. */
  lemma DeadlinesNeverChange(c: Settings, t: State)
    requires Reachable(c, t)
    ensures forall e :: e in t.books.stream ==> Known(t.trace, t.books.stream[e])
    ensures forall m :: m in t.books.retry ==> ParkedKnown(t.trace, t.books.retry[m].copy)
    ensures forall a :: a in t.agents && t.agents[a].Walking? ==> ParkedKnown(t.trace, t.agents[a].walk.copy)
    ensures forall a :: a in t.agents && t.agents[a].Working? ==> Known(t.trace, t.agents[a].job.copy)
  {
    ReachableWithin(c, t);
    forall a | a in t.agents ensures PcKnown(t.trace, t.agents[a]) {
    }
  }

  /** The history counts each consumer an entry is handed to: one for the entry a read returns and
      for every entry a claim finds, and none for any other. */
  lemma HandoutsAreCounted(c: Settings, s: State, a: nat, o: Opening, e: nat)
    requires CanBegin(c, s, a, o)
    ensures HandedTimes(AfterBegin(c, s, a, o).trace, e) == HandedTimes(s.trace, e) +
              if (o.Read? && o.entry == e) || (o.Reclaim? && e in o.ids && e in s.books.stream) then 1 else 0
    ensures e !in s.trace.handed ==> HandedTimes(s.trace, e) == 0
  {
  }

  /** An operation has at most as many deadlines as its first entry had consumers. */
  lemma DeadlinesWithinHandouts(c: Settings, t: State, id: nat)
    requires Reachable(c, t)
    ensures |ParksOf(t.trace, id)| <= HandedTimes(t.trace, id)
  {
    ReachableWithin(c, t);
    assert WithinFor(t, id);
  }

  lemma AtMostOne(s: set<int>, x: int, y: int)
    requires |s| <= 1 && x in s && y in s
    ensures x == y
  {
    assert s == {x} + (s - {x});
  }

  /** So while no other consumer takes its first entry over, every copy of an operation that
      was parked has the same deadline, through all its returns. */
  lemma OneDeadlineWithoutTakeover(c: Settings, t: State, m: nat, n: nat)
    requires Reachable(c, t) && m in t.books.retry && n in t.books.retry
    requires t.books.retry[m].copy.id == t.books.retry[n].copy.id
    requires HandedTimes(t.trace, t.books.retry[m].copy.id) <= 1
    ensures t.books.retry[m].copy.op.expires == t.books.retry[n].copy.op.expires
  {
    ReachableWithin(c, t);
    var k, j := t.books.retry[m].copy, t.books.retry[n].copy;
    assert WithinFor(t, k.id) && ParkedKnown(t.trace, k) && ParkedKnown(t.trace, j);
    AtMostOne(ParksOf(t.trace, k.id), k.op.expires.value, j.op.expires.value);
  }

  /** And a re-added copy carries that deadline still. */
  lemma ReaddedKeepsDeadline(c: Settings, t: State, e: nat, d: int)
    requires Reachable(c, t) && e in t.books.stream && t.books.stream[e].op.expires.Some?
    requires HandedTimes(t.trace, t.books.stream[e].id) <= 1 && (t.books.stream[e].id, d) in t.trace.parks
    ensures t.books.stream[e].op.expires == Some(d)
  {
    ReachableWithin(c, t);
    var k := t.books.stream[e];
    assert WithinFor(t, k.id) && EntryKnown(t.trace, e, k);
    assert (k.id, d).1 in ParksOf(t.trace, k.id);
    AtMostOne(ParksOf(t.trace, k.id), k.op.expires.value, d);
  }
}
