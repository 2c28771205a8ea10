/** How operations end, and how long they may keep being retried. */
module Lifetimes {
  import opened FeedTypes
  import opened FeedScripts
  import opened FeedMachine
  import opened NoOpLost
  import opened Deliveries
  import opened Placements

  // ----- outcomes are earned -----

  /** Everyone in the audience found was the author or had been served. */
  predicate Covered(c: Settings, op: Op, look: Look) {
    forall u :: u in look.audience ==> u in AuthorSet(c, op) || (c.excludeSeen && u in look.seen)
  }

  /** What must have happened for the outcome of operation `op` to be recorded. */
  predicate Earned(c: Settings, g: Log, x: Trace, now: int, op: Op, outcome: Outcome) {
    match outcome
    case Delivered(u) => (u, op.post) in g.pushes
    case Erased => op.post in g.erased
    case Exhausted(look) => look in x.looks && look.post == op.post && look.route == op.route && Covered(c, op, look)
    case Overdue(deadline, at) => deadline <= at <= now
  }

  predicate AboutToEarn(c: Settings, g: Log, x: Trace, now: int, pc: Pc) {
    match pc
    case Working(job, stage) =>
      && (stage.Retiring? ==> Earned(c, g, x, now, job.copy.op, stage.outcome))
      && (stage.Placing? && stage.landed.Some? ==> (stage.landed.value, job.copy.op.post) in g.pushes)
    case Walking(walk, leg) =>
      walk.at <= now && (leg.DroppingOverdue? ==> walk.copy.op.expires.Some? && walk.copy.op.expires.value <= walk.at)
    case _ => true
  }

  predicate OutcomesEarned(c: Settings, b: Books, g: Log, x: Trace, now: int) {
    forall id :: id in b.outcomes ==> id in b.minted && Earned(c, g, x, now, b.minted[id], b.outcomes[id])
  }

  predicate AgentsEarn(c: Settings, g: Log, x: Trace, now: int, agents: map<nat, Pc>) {
    forall a :: a in agents ==> AboutToEarn(c, g, x, now, agents[a])
  }

  ghost predicate Honest(c: Settings, s: State) {
    && OutcomesEarned(c, s.books, s.log, s.trace, s.now)
    && AgentsEarn(c, s.log, s.trace, s.now, s.agents)
    && forall p :: p in s.tombs ==> p in s.log.erased
  }

  /** Evidence only accumulates. */
  predicate Grows(g: Log, x: Trace, h: Log, y: Trace) {
    (forall k :: k in g.pushes ==> k in h.pushes) && g.erased <= h.erased && x.looks <= y.looks
  }

  lemma EvidenceStays(c: Settings, b: Books, g: Log, x: Trace, now: int, h: Log, y: Trace, later: int, agents: map<nat, Pc>)
    requires Grows(g, x, h, y) && now <= later
    ensures OutcomesEarned(c, b, g, x, now) ==> OutcomesEarned(c, b, h, y, later)
    ensures AgentsEarn(c, g, x, now, agents) ==> AgentsEarn(c, h, y, later, agents)
  {
  }

  lemma EarnMove(c: Settings, g: Log, x: Trace, now: int, agents: map<nat, Pc>, a: nat, pc: Pc)
    requires AgentsEarn(c, g, x, now, agents) && AboutToEarn(c, g, x, now, pc)
    ensures AgentsEarn(c, g, x, now, agents[a := pc])
  {
  }

  /** A move of one agent that records no outcome keeps every outcome earned. */
  lemma MoveHonest(c: Settings, s: State, t: State, a: nat)
    requires Honest(c, s) && Grows(s.log, s.trace, t.log, t.trace) && t.now == s.now && t.tombs == s.tombs
    requires a in t.agents && t.agents == s.agents[a := t.agents[a]]
    requires AboutToEarn(c, t.log, t.trace, t.now, t.agents[a])
    requires OutcomesEarned(c, t.books, t.log, t.trace, t.now)
    ensures Honest(c, t)
  {
    EvidenceStays(c, s.books, s.log, s.trace, s.now, t.log, t.trace, t.now, s.agents);
    EarnMove(c, t.log, t.trace, t.now, s.agents, a, t.agents[a]);
  }

  lemma OpeningEarns(c: Settings, s: State, a: nat, o: Opening)
    requires CanBegin(c, s, a, o)
    ensures
      var t := AfterBegin(c, s, a, o);
      Grows(s.log, s.trace, t.log, t.trace) && t.tombs == s.tombs && AboutToEarn(c, t.log, t.trace, t.now, t.agents[a])
  {
  }

  lemma BeginHonest(c: Settings, s: State, a: nat, o: Opening)
    requires Honest(c, s) && CanBegin(c, s, a, o)
    ensures Honest(c, AfterBegin(c, s, a, o))
  {
    var t := AfterBegin(c, s, a, o);
    OpeningEarns(c, s, a, o);
    EvidenceStays(c, s.books, s.log, s.trace, s.now, t.log, t.trace, t.now, s.agents);
    MoveHonest(c, s, t, a);
  }

  /** A placement that was not refused is backed by a push, now or earlier. */
  lemma LandedWasPushed(c: Settings, s: State, u: UserId, p: PostId)
    requires Tidy(c, s.feed, s.log) && !Refuses(s.feed, u, p, c.excludeSeen)
    ensures (u, p) in PlaceIn(c, s, u, p).log.pushes
  {
  }

  lemma PlacingHonest(c: Settings, s: State, a: nat, job: Job, todo: seq<UserId>, landed: Option<UserId>)
    requires Honest(c, s) && Tidy(c, s.feed, s.log)
    requires a in s.agents && s.agents[a] == Working(job, Placing(todo, landed))
    ensures Honest(c, AfterPlacing(c, s, a, job, todo, landed))
  {
    var t := AfterPlacing(c, s, a, job, todo, landed);
    assert AboutToEarn(c, s.log, s.trace, s.now, s.agents[a]);
    if todo != [] && !Refuses(s.feed, todo[0], job.copy.op.post, c.excludeSeen) {
      LandedWasPushed(c, s, todo[0], job.copy.op.post);
    }
    EvidenceStays(c, s.books, s.log, s.trace, s.now, t.log, t.trace, t.now, s.agents);
    MoveHonest(c, s, t, a);
  }

  /** The measurement that finds nobody left is recorded as it is taken. */
  lemma DiffingEarns(c: Settings, s: State, job: Job)
    requires Remaining(c, s, job.copy.op) == {}
    ensures Covered(c, job.copy.op, LookAt(s, job.copy.op))
  {
    var op := job.copy.op;
    forall u | u in AudienceOf(s, op.route) ensures u in AuthorSet(c, op) || (c.excludeSeen && u in SeenOf(s.feed, op.post)) {
      assert u !in Remaining(c, s, op);
    }
  }

  lemma ReadingEarns(c: Settings, s: State, job: Job, stage: Stage, drawn: seq<UserId>)
    requires OnlyReads(stage) && forall p :: p in s.tombs ==> p in s.log.erased
    ensures AboutToEarn(c, s.log, Traced(c, s, job.copy, stage), s.now, Working(job, StageAfter(c, s, job.copy.op, stage, drawn)))
  {
    if stage.Diffing? && Remaining(c, s, job.copy.op) == {} {
      DiffingEarns(c, s, job);
    }
  }

  lemma ReadHonest(c: Settings, s: State, a: nat, job: Job, stage: Stage, drawn: seq<UserId>)
    requires Honest(c, s) && OnlyReads(stage)
    requires a in s.agents && s.agents[a] == Working(job, stage)
    ensures Honest(c, AfterWork(c, s, a, job, stage, drawn))
  {
    var t := AfterWork(c, s, a, job, stage, drawn);
    ReadingEarns(c, s, job, stage, drawn);
    EvidenceStays(c, s.books, s.log, s.trace, s.now, t.log, t.trace, t.now, s.agents);
    MoveHonest(c, s, t, a);
  }

  /** Recording an outcome the agent has earned. */
  lemma EndingEarned(c: Settings, b: Books, g: Log, x: Trace, now: int, k: Copy, outcome: Outcome)
    requires OutcomesEarned(c, b, g, x, now) && TrueCopy(c, b, k) && Earned(c, g, x, now, k.op, outcome)
    ensures OutcomesEarned(c, EndedIn(b, k.id, outcome), g, x, now)
  {
  }

  lemma RetireHonest(c: Settings, s: State, a: nat, job: Job, stage: Stage, drawn: seq<UserId>)
    requires Honest(c, s) && Sound(c, s) && stage.Retiring?
    requires a in s.agents && s.agents[a] == Working(job, stage)
    ensures Honest(c, AfterWork(c, s, a, job, stage, drawn))
  {
    var t := AfterWork(c, s, a, job, stage, drawn);
    assert AboutToEarn(c, s.log, s.trace, s.now, s.agents[a]) && SoundPc(c, s.books, s.agents[a]);
    EndingEarned(c, s.books, s.log, s.trace, s.now, job.copy, stage.outcome);
    EvidenceStays(c, t.books, s.log, s.trace, s.now, t.log, t.trace, t.now, s.agents);
    MoveHonest(c, s, t, a);
  }

  lemma CloseHonest(c: Settings, s: State, a: nat, job: Job, stage: Stage, drawn: seq<UserId>)
    requires Honest(c, s) && (stage.Parking? || stage.Deleting? || stage.Acking?)
    requires a in s.agents && s.agents[a] == Working(job, stage)
    ensures Honest(c, AfterWork(c, s, a, job, stage, drawn))
  {
    var t := AfterWork(c, s, a, job, stage, drawn);
    assert t.books.outcomes == s.books.outcomes;
    EvidenceStays(c, s.books, s.log, s.trace, s.now, t.log, t.trace, t.now, s.agents);
    MoveHonest(c, s, t, a);
  }

  lemma WalkHonest(c: Settings, s: State, a: nat, walk: Walk, leg: Leg)
    requires Honest(c, s) && Sound(c, s)
    requires a in s.agents && s.agents[a] == Walking(walk, leg)
    ensures Honest(c, AfterWalk(c, s, a, walk, leg))
  {
    var t := AfterWalk(c, s, a, walk, leg);
    assert AboutToEarn(c, s.log, s.trace, s.now, s.agents[a]) && SoundPc(c, s.books, s.agents[a]);
    if leg.DroppingOverdue? {
      EndingEarned(c, UnparkedIn(s.books, walk.member), s.log, s.trace, s.now, walk.copy,
                   Overdue(walk.copy.op.expires.GetOr(walk.at), walk.at));
    }
    EvidenceStays(c, t.books, s.log, s.trace, s.now, t.log, t.trace, t.now, s.agents);
    MoveHonest(c, s, t, a);
  }

  lemma ProceedHonest(c: Settings, s: State, a: nat, drawn: seq<UserId>)
    requires Honest(c, s) && Proper(c, s) && CanProceed(c, s, a, drawn)
    ensures Honest(c, AfterProceed(c, s, a, drawn))
  {
    var pc := s.agents[a];
    if pc.Working? {
      if OnlyReads(pc.stage) {
        ReadHonest(c, s, a, pc.job, pc.stage, drawn);
      } else if pc.stage.Placing? {
        PlacingHonest(c, s, a, pc.job, pc.stage.todo, pc.stage.landed);
      } else if pc.stage.Retiring? {
        RetireHonest(c, s, a, pc.job, pc.stage, drawn);
      } else {
        CloseHonest(c, s, a, pc.job, pc.stage, drawn);
      }
    } else if pc.Walking? {
      WalkHonest(c, s, a, pc.walk, pc.leg);
    } else {
      RequestHonest(c, s, a, drawn);
    }
  }

  lemma RequestHonest(c: Settings, s: State, a: nat, drawn: seq<UserId>)
    requires Honest(c, s) && Sound(c, s) && CanProceed(c, s, a, drawn)
    requires s.agents[a].Sending? || s.agents[a].Counting? || s.agents[a].Probing?
    ensures Honest(c, AfterProceed(c, s, a, drawn))
  {
    var t := AfterProceed(c, s, a, drawn);
    assert s.books.nextEntry !in s.books.minted;
    EvidenceStays(c, s.books, s.log, s.trace, s.now, t.log, t.trace, t.now, s.agents);
    MoveHonest(c, s, t, a);
  }

  lemma EventHonest(c: Settings, s: State, e: Event)
    requires Honest(c, s) && CanHappen(c, s, e)
    ensures Honest(c, AfterEvent(c, s, e))
  {
    var t := AfterEvent(c, s, e);
    EvidenceStays(c, s.books, s.log, s.trace, s.now, t.log, t.trace, t.now, s.agents);
    if e.Crash? {
      EarnMove(c, t.log, t.trace, t.now, s.agents, e.agent, Idle);
    }
  }

  // ----- retry clocks -----

  /** The time taken by `hops` waits in the retry set. */
  function Span(c: Settings, hops: nat): int {
    hops * c.retryInterval
  }

  lemma SpanNext(c: Settings, hops: nat)
    ensures Span(c, hops + 1) == Span(c, hops) + c.retryInterval
  {
  }

  /** Re-added `hops` times by time `now`: every return cost a wait since the first park, and
      happened before the deadline. */
  predicate OnTime(c: Settings, now: int, k: Copy) {
    match k.op.expires
    case None => k.hops == 0
    case Some(x) => x - c.retryMaxAge + Span(c, k.hops) <= now && (k.hops == 0 || Span(c, k.hops) < c.retryMaxAge)
  }

  predicate ParkedOnTime(c: Settings, r: Parked) {
    && r.copy.op.expires.Some?
    && r.copy.op.expires.value - c.retryMaxAge + Span(c, r.copy.hops + 1) <= r.due
  }

  /** A member read as due at `at`. */
  predicate DueOnTime(c: Settings, at: int, k: Copy) {
    k.op.expires.Some? && k.op.expires.value - c.retryMaxAge + Span(c, k.hops + 1) <= at
  }

  predicate PcOnTime(c: Settings, now: int, pc: Pc) {
    match pc
    case Working(job, stage) =>
      && OnTime(c, now, job.copy)
      && (forall i :: 0 <= i < |job.rest| ==> OnTime(c, now, job.rest[i].1))
      && (stage.Parking? ==> OnTime(c, stage.at, job.copy))
    case Walking(walk, leg) =>
      && walk.at <= now
      && DueOnTime(c, walk.at, walk.copy)
      && (forall i :: 0 <= i < |walk.rest| ==> DueOnTime(c, walk.at, walk.rest[i].1))
      && (leg.AddingBack? ==> walk.at < walk.copy.op.expires.value)
    case Sending(op) => op.expires.None?
    case _ => true
  }

  predicate BooksOnTime(c: Settings, now: int, b: Books) {
    && (forall e :: e in b.stream ==> OnTime(c, now, b.stream[e]))
    && (forall m :: m in b.retry ==> ParkedOnTime(c, b.retry[m]))
  }

  predicate AgentsOnTime(c: Settings, now: int, agents: map<nat, Pc>) {
    forall a :: a in agents ==> PcOnTime(c, now, agents[a])
  }

  predicate Timely(c: Settings, s: State) {
    BooksOnTime(c, s.now, s.books) && AgentsOnTime(c, s.now, s.agents)
  }

  lemma TimeMove(c: Settings, now: int, agents: map<nat, Pc>, a: nat, pc: Pc)
    requires AgentsOnTime(c, now, agents) && PcOnTime(c, now, pc)
    ensures AgentsOnTime(c, now, agents[a := pc])
  {
  }

  lemma NextJobOnTime(c: Settings, now: int, batch: seq<(nat, Copy)>)
    requires forall i :: 0 <= i < |batch| ==> OnTime(c, now, batch[i].1)
    ensures PcOnTime(c, now, NextJob(batch))
  {
  }

  lemma NextWalkOnTime(c: Settings, now: int, at: int, due: seq<(nat, Copy)>)
    requires at <= now && forall i :: 0 <= i < |due| ==> DueOnTime(c, at, due[i].1)
    ensures PcOnTime(c, now, NextWalk(c, at, due))
  {
    if due != [] {
      assert DueOnTime(c, at, due[0].1);
    }
  }

  lemma BeginTimely(c: Settings, s: State, a: nat, o: Opening)
    requires Timely(c, s) && CanBegin(c, s, a, o)
    ensures Timely(c, AfterBegin(c, s, a, o))
  {
    var t := AfterBegin(c, s, a, o);
    match o {
      case Read(e) => NextJobOnTime(c, s.now, [(e, s.books.stream[e])]);
      case Reclaim(ids) => NextJobOnTime(c, s.now, ClaimedBatch(s.books.stream, ids));
      case Scan(due) =>
        var batch := DueBatch(s.books.retry, due);
        forall i | 0 <= i < |batch| ensures DueOnTime(c, s.now, batch[i].1) {
          assert due[i] in due && ParkedOnTime(c, s.books.retry[due[i]]);
        }
        NextWalkOnTime(c, s.now, s.now, batch);
      case _ =>
    }
    TimeMove(c, s.now, s.agents, a, t.agents[a]);
  }

  lemma ReadingOnTime(c: Settings, s: State, job: Job, stage: Stage, drawn: seq<UserId>)
    requires OnlyReads(stage) && PcOnTime(c, s.now, Working(job, stage))
    ensures PcOnTime(c, s.now, Working(job, StageAfter(c, s, job.copy.op, stage, drawn)))
  {
    var next := StageAfter(c, s, job.copy.op, stage, drawn);
    assert next.Parking? ==> next.at == s.now;
  }

  lemma ParkTimely(c: Settings, k: Copy, at: int)
    requires OnTime(c, at, k)
    ensures ParkedOnTime(c, Parked(ParkedCopy(c, k, at), at + c.retryInterval))
  {
    SpanNext(c, k.hops);
  }

  lemma ReadTimely(c: Settings, s: State, a: nat, job: Job, stage: Stage, drawn: seq<UserId>)
    requires Timely(c, s) && a in s.agents && s.agents[a] == Working(job, stage) && OnlyReads(stage)
    ensures Timely(c, AfterWork(c, s, a, job, stage, drawn))
  {
    var t := AfterWork(c, s, a, job, stage, drawn);
    assert PcOnTime(c, s.now, s.agents[a]);
    ReadingOnTime(c, s, job, stage, drawn);
    TimeMove(c, s.now, s.agents, a, t.agents[a]);
  }

  lemma AckTimely(c: Settings, s: State, a: nat, job: Job, drawn: seq<UserId>)
    requires Timely(c, s) && a in s.agents && s.agents[a] == Working(job, Acking)
    ensures Timely(c, AfterWork(c, s, a, job, Acking, drawn))
  {
    var t := AfterWork(c, s, a, job, Acking, drawn);
    assert PcOnTime(c, s.now, s.agents[a]);
    NextJobOnTime(c, s.now, job.rest);
    TimeMove(c, s.now, s.agents, a, t.agents[a]);
  }

  lemma ParkStepTimely(c: Settings, s: State, a: nat, job: Job, at: int, drawn: seq<UserId>)
    requires Timely(c, s) && a in s.agents && s.agents[a] == Working(job, Parking(at))
    ensures Timely(c, AfterWork(c, s, a, job, Parking(at), drawn))
  {
    var t := AfterWork(c, s, a, job, Parking(at), drawn);
    assert PcOnTime(c, s.now, s.agents[a]);
    ParkTimely(c, job.copy, at);
    TimeMove(c, s.now, s.agents, a, t.agents[a]);
  }

  lemma PlaceStepTimely(c: Settings, s: State, a: nat, job: Job, stage: Stage, drawn: seq<UserId>)
    requires Timely(c, s) && a in s.agents && s.agents[a] == Working(job, stage) && stage.Placing?
    ensures Timely(c, AfterWork(c, s, a, job, stage, drawn))
  {
    var t := AfterWork(c, s, a, job, stage, drawn);
    assert PcOnTime(c, s.now, s.agents[a]);
    TimeMove(c, s.now, s.agents, a, t.agents[a]);
  }

  lemma EndStepTimely(c: Settings, s: State, a: nat, job: Job, stage: Stage, drawn: seq<UserId>)
    requires Timely(c, s) && a in s.agents && s.agents[a] == Working(job, stage) && (stage.Retiring? || stage.Deleting?)
    ensures Timely(c, AfterWork(c, s, a, job, stage, drawn))
  {
    var t := AfterWork(c, s, a, job, stage, drawn);
    assert PcOnTime(c, s.now, s.agents[a]);
    TimeMove(c, s.now, s.agents, a, t.agents[a]);
  }

  lemma WorkTimely(c: Settings, s: State, a: nat, job: Job, stage: Stage, drawn: seq<UserId>)
    requires Timely(c, s) && a in s.agents && s.agents[a] == Working(job, stage)
    ensures Timely(c, AfterWork(c, s, a, job, stage, drawn))
  {
    if OnlyReads(stage) {
      ReadTimely(c, s, a, job, stage, drawn);
    } else if stage.Placing? {
      PlaceStepTimely(c, s, a, job, stage, drawn);
    } else if stage.Parking? {
      ParkStepTimely(c, s, a, job, stage.at, drawn);
    } else if stage.Acking? {
      AckTimely(c, s, a, job, drawn);
    } else {
      EndStepTimely(c, s, a, job, stage, drawn);
    }
  }

  lemma AddedBackOnTime(c: Settings, now: int, walk: Walk)
    requires PcOnTime(c, now, Walking(walk, AddingBack))
    ensures OnTime(c, now, walk.copy.(hops := walk.copy.hops + 1))
  {
  }

  lemma WalkTimely(c: Settings, s: State, a: nat, walk: Walk, leg: Leg)
    requires Timely(c, s) && a in s.agents && s.agents[a] == Walking(walk, leg)
    ensures Timely(c, AfterWalk(c, s, a, walk, leg))
  {
    var t := AfterWalk(c, s, a, walk, leg);
    assert PcOnTime(c, s.now, s.agents[a]);
    if leg.AddingBack? {
      AddedBackOnTime(c, s.now, walk);
    }
    NextWalkOnTime(c, s.now, walk.at, walk.rest);
    TimeMove(c, s.now, s.agents, a, t.agents[a]);
  }

  lemma EventTimely(c: Settings, s: State, e: Event)
    requires Timely(c, s) && CanHappen(c, s, e)
    ensures Timely(c, AfterEvent(c, s, e))
  {
    if e.Crash? {
      TimeMove(c, s.now, s.agents, e.agent, Idle);
    }
  }

  lemma ProceedTimely(c: Settings, s: State, a: nat, drawn: seq<UserId>)
    requires Timely(c, s) && CanProceed(c, s, a, drawn)
    ensures Timely(c, AfterProceed(c, s, a, drawn))
  {
    var pc := s.agents[a];
    if pc.Working? {
      WorkTimely(c, s, a, pc.job, pc.stage, drawn);
    } else if pc.Walking? {
      WalkTimely(c, s, a, pc.walk, pc.leg);
    } else {
      assert PcOnTime(c, s.now, pc);
      TimeMove(c, s.now, s.agents, a, AfterProceed(c, s, a, drawn).agents[a]);
    }
  }

  // ----- over whole runs -----

  ghost predicate WellKept(c: Settings, s: State) {
    Proper(c, s) && Honest(c, s) && Timely(c, s)
  }

  lemma StepWellKept(c: Settings, s: State, step: Step)
    requires WellKept(c, s) && Enabled(c, s, step)
    ensures WellKept(c, After(c, s, step))
  {
    StepProper(c, s, step);
    match step
    case Begin(a, o) => BeginHonest(c, s, a, o); BeginTimely(c, s, a, o);
    case Proceed(a, drawn) => ProceedHonest(c, s, a, drawn); ProceedTimely(c, s, a, drawn);
    case Happen(e) => EventHonest(c, s, e); EventTimely(c, s, e);
  }

  lemma {:induction false} RunWellKept(c: Settings, s: State, steps: seq<Step>, t: State)
    requires WellKept(c, s) && Leads(c, s, steps, t)
    ensures WellKept(c, t)
    decreases |steps|
  {
    if steps != [] {
      StepWellKept(c, s, steps[0]);
      RunWellKept(c, After(c, s, steps[0]), steps[1..], t);
    }
  }

  lemma InitWellKept(c: Settings, s: State)
    requires ValidSettings(c) && Init(s)
    ensures WellKept(c, s)
  {
    InitOrdered(c, s);
  }

  lemma ReachableWellKept(c: Settings, t: State)
    requires ValidSettings(c) && Reachable(c, t)
    ensures WellKept(c, t)
  {
    var s, steps :| Init(s) && Leads(c, s, steps, t);
    InitWellKept(c, s);
    RunWellKept(c, s, steps, t);
  }

  /** A recorded outcome is true: a delivery was pushed, an erasure announced, a deadline past,
      an exhausted audience covered when it was measured. */
  lemma OutcomesAreEarned(c: Settings, t: State, id: nat)
    requires ValidSettings(c) && Reachable(c, t) && id in t.books.outcomes
    ensures id in t.books.minted
    ensures Earned(c, t.log, t.trace, t.now, t.books.minted[id], t.books.outcomes[id])
  {
    ReachableWellKept(c, t);
  }

  // ----- what exhaustion was judged by -----

  /** The measurement shows a state exactly as it is. */
  predicate Shows(s: State, look: Look) {
    look.audience == AudienceOf(s, look.route) && look.seen == SeenOf(s.feed, look.post)
  }

  /** Earlier on the way to `t` a reachable state was as the measurement shows. */
  ghost predicate WasSeen(c: Settings, t: State, look: Look) {
    exists r, steps :: Reachable(c, r) && Leads(c, r, steps, t) && Shows(r, look)
  }

  lemma ProceedLooks(c: Settings, s: State, a: nat, drawn: seq<UserId>, look: Look)
    requires CanProceed(c, s, a, drawn) && look in AfterProceed(c, s, a, drawn).trace.looks && look !in s.trace.looks
    ensures Shows(s, look)
  {
    match s.agents[a]
    case Working(job, stage) => assert stage.Diffing? && look == LookAt(s, job.copy.op);
    case _ => assert false;
  }

  lemma StepLooks(c: Settings, s: State, step: Step, look: Look)
    requires Enabled(c, s, step) && look in After(c, s, step).trace.looks && look !in s.trace.looks
    ensures Shows(s, look)
  {
    if step.Proceed? {
      ProceedLooks(c, s, step.agent, step.drawn, look);
    }
  }

  lemma SeenStays(c: Settings, s: State, step: Step, look: Look)
    requires Enabled(c, s, step) && WasSeen(c, s, look)
    ensures WasSeen(c, After(c, s, step), look)
  {
    var r, steps :| Reachable(c, r) && Leads(c, r, steps, s) && Shows(r, look);
    LeadsOneMore(c, r, steps, s, step);
  }

  ghost predicate LooksAreReal(c: Settings, t: State) {
    forall look :: look in t.trace.looks ==> WasSeen(c, t, look)
  }

  lemma StepLooksReal(c: Settings, s: State, step: Step)
    requires Reachable(c, s) && LooksAreReal(c, s) && Enabled(c, s, step)
    ensures LooksAreReal(c, After(c, s, step))
  {
    forall look | look in After(c, s, step).trace.looks ensures WasSeen(c, After(c, s, step), look) {
      if look !in s.trace.looks {
        StepLooks(c, s, step, look);
        assert Leads(c, s, [], s);
        assert WasSeen(c, s, look);
      }
      SeenStays(c, s, step, look);
    }
  }

  lemma {:induction false} RunLooksReal(c: Settings, s: State, steps: seq<Step>, t: State)
    requires Reachable(c, s) && LooksAreReal(c, s) && Leads(c, s, steps, t)
    ensures LooksAreReal(c, t)
    decreases |steps|
  {
    if steps != [] {
      StepLooksReal(c, s, steps[0]);
      ReachOneMore(c, s, steps[0]);
      RunLooksReal(c, After(c, s, steps[0]), steps[1..], t);
    }
  }

  /** An operation given up as exhausted had, in some earlier state of the run, nobody in its
      route's audience who was not its author or already served. */
  lemma ExhaustedWasCovered(c: Settings, t: State, id: nat)
    requires ValidSettings(c) && Reachable(c, t) && id in t.books.outcomes && t.books.outcomes[id].Exhausted?
    ensures id in t.books.minted
    ensures exists r, steps :: Reachable(c, r) && Leads(c, r, steps, t) && Remaining(c, r, t.books.minted[id]) == {}
  {
    OutcomesAreEarned(c, t, id);
    var s, run :| Init(s) && Leads(c, s, run, t);
    assert Leads(c, s, [], s);
    RunLooksReal(c, s, run, t);
    var look := t.books.outcomes[id].look;
    var r, steps :| Reachable(c, r) && Leads(c, r, steps, t) && Shows(r, look);
    var op := t.books.minted[id];
    assert forall u :: u in AudienceOf(r, op.route) ==> u in AuthorSet(c, op) || (c.excludeSeen && u in SeenOf(r.feed, op.post));
    assert Remaining(c, r, op) == {};
  }

  /** Whatever crashed or was duplicated, a copy comes back from the retry set fewer than
      max-age / interval times. */
  lemma RetriesAreBounded(c: Settings, t: State, e: nat)
    requires ValidSettings(c) && Reachable(c, t) && e in t.books.stream
    ensures t.books.stream[e].hops > 0 ==> t.books.stream[e].hops * c.retryInterval < c.retryMaxAge
  {
    ReachableWellKept(c, t);
    assert OnTime(c, t.now, t.books.stream[e]);
  }

  // ----- retries and the delivered-to set -----

  /** A post's delivered-to set lives one `seenTtl` from its last push: it is there with that
      expiry, or it is gone for a reason. */
  predicate SetOutlives(c: Settings, s: State, p: PostId)
    requires p in s.log.served
  {
    && s.log.served[p] <= s.now
    && (c.excludeSeen ==>
          if p in s.feed.seenExpiry then s.feed.seenExpiry[p] == s.log.served[p] + c.seenTtl
          else p in s.log.erased || s.log.served[p] + c.seenTtl <= s.now)
  }

  ghost predicate SetsOutlive(c: Settings, s: State) {
    && (forall p :: p in s.log.served ==> SetOutlives(c, s, p))
    && (forall p :: p in s.feed.seenExpiry ==> p in s.log.served)
  }

  lemma PlaceOutlives(c: Settings, s: State, u: UserId, p: PostId)
    requires SetsOutlive(c, s)
    ensures SetsOutlive(c, PlaceIn(c, s, u, p))
  {
    var t := PlaceIn(c, s, u, p);
    forall q | q in t.log.served ensures SetOutlives(c, t, q) {
      assert q in s.log.served ==> SetOutlives(c, s, q);
    }
  }

  /** Nothing else moves a set's clock forward or back. */
  lemma OtherStepsOutlive(c: Settings, s: State, t: State)
    requires SetsOutlive(c, s) && s.now <= t.now
    requires t.log.served == s.log.served && s.log.erased <= t.log.erased
    requires forall p :: p in t.feed.seenExpiry ==> p in s.feed.seenExpiry && t.feed.seenExpiry[p] == s.feed.seenExpiry[p]
    requires forall p :: p in s.feed.seenExpiry && p !in t.feed.seenExpiry ==> p in t.log.erased || s.feed.seenExpiry[p] <= t.now
    ensures SetsOutlive(c, t)
  {
    forall q | q in t.log.served ensures SetOutlives(c, t, q) {
      assert SetOutlives(c, s, q);
    }
  }

  lemma ProceedOutlives(c: Settings, s: State, a: nat, drawn: seq<UserId>)
    requires SetsOutlive(c, s) && CanProceed(c, s, a, drawn)
    ensures SetsOutlive(c, AfterProceed(c, s, a, drawn))
  {
    var pc, t := s.agents[a], AfterProceed(c, s, a, drawn);
    if pc.Probing? {
      PlaceOutlives(c, s, pc.reader, pc.probe);
      OtherStepsOutlive(c, PlaceIn(c, s, pc.reader, pc.probe), t);
    } else if pc.Working? && pc.stage.Placing? && pc.stage.todo != [] {
      PlaceOutlives(c, s, pc.stage.todo[0], pc.job.copy.op.post);
      OtherStepsOutlive(c, PlaceIn(c, s, pc.stage.todo[0], pc.job.copy.op.post), t);
    } else {
      OtherStepsOutlive(c, s, t);
    }
  }

  lemma EventOutlives(c: Settings, s: State, e: Event)
    requires SetsOutlive(c, s) && CanHappen(c, s, e)
    ensures SetsOutlive(c, AfterEvent(c, s, e))
  {
    OtherStepsOutlive(c, s, AfterEvent(c, s, e));
  }

  lemma StepOutlives(c: Settings, s: State, step: Step)
    requires SetsOutlive(c, s) && Enabled(c, s, step)
    ensures SetsOutlive(c, After(c, s, step))
  {
    match step
    case Begin(a, o) => OtherStepsOutlive(c, s, AfterBegin(c, s, a, o));
    case Proceed(a, drawn) => ProceedOutlives(c, s, a, drawn);
    case Happen(e) => EventOutlives(c, s, e);
  }

  lemma {:induction false} RunOutlives(c: Settings, s: State, steps: seq<Step>, t: State)
    requires SetsOutlive(c, s) && Leads(c, s, steps, t)
    ensures SetsOutlive(c, t)
    decreases |steps|
  {
    if steps != [] {
      StepOutlives(c, s, steps[0]);
      RunOutlives(c, After(c, s, steps[0]), steps[1..], t);
    }
  }

  /** When the delivered-to set of a post is gone, the post was erased or a whole `seenTtl` has
      passed since its last push. */
  lemma SetsLastTheirTime(c: Settings, t: State, p: PostId)
    requires Reachable(c, t) && c.excludeSeen && p in t.log.served
    ensures p in t.feed.seenExpiry ==> t.feed.seenExpiry[p] == t.log.served[p] + c.seenTtl
    ensures p !in t.feed.seenExpiry ==> p in t.log.erased || t.log.served[p] + c.seenTtl <= t.now
  {
    var s, steps :| Init(s) && Leads(c, s, steps, t);
    RunOutlives(c, s, steps, t);
    assert SetOutlives(c, t, p);
  }

  /** The command that re-adds an operation works from a scan made at `walk.at`. If the operation
      was first parked within one max-age of a moment `last`, that scan was made before a
      delivered-to set last refreshed then expires, whether or not it still exists; and the
      re-adding itself comes before that expiry if it follows the scan by no more than
      `seenTtl` exceeds two max-ages. */
  lemma NeverReaddedAfterSeenExpires(c: Settings, t: State, a: nat, last: int)
    requires ValidSettings(c) && Reachable(c, t)
    requires a in t.agents && t.agents[a].Walking? && t.agents[a].leg.AddingBack?
    ensures t.agents[a].walk.copy.op.expires.Some?
    ensures
      var walk := t.agents[a].walk;
      var firstPark := walk.copy.op.expires.value - c.retryMaxAge;
      firstPark <= last + c.retryMaxAge ==>
        && walk.at < last + c.seenTtl
        && (t.now - walk.at <= c.seenTtl - 2 * c.retryMaxAge ==> t.now < last + c.seenTtl)
  {
    ReachableWellKept(c, t);
    assert PcOnTime(c, t.now, t.agents[a]);
  }

  /** So, measured from the post's last push, an operation re-added without such a stall finds
      the delivered-to set still there, unless the post was erased. */
  lemma ReaddedFindsTheSet(c: Settings, t: State, a: nat)
    requires ValidSettings(c) && Reachable(c, t) && c.excludeSeen
    requires a in t.agents && t.agents[a].Walking? && t.agents[a].leg.AddingBack?
    requires t.agents[a].walk.copy.op.post in t.log.served
    requires t.now - t.agents[a].walk.at <= c.seenTtl - 2 * c.retryMaxAge
    ensures
      var walk := t.agents[a].walk;
      var p := walk.copy.op.post;
      && walk.copy.op.expires.Some?
      && (walk.copy.op.expires.value - c.retryMaxAge <= t.log.served[p] + c.retryMaxAge ==>
            p in t.feed.seenExpiry || p in t.log.erased)
  {
    var p := t.agents[a].walk.copy.op.post;
    NeverReaddedAfterSeenExpires(c, t, a, t.log.served[p]);
    SetsLastTheirTime(c, t, p);
  }
}
