/** Who may be placed for: the bound on queue lengths under concurrent placers, authors never
    fanned out their own posts, and probes confined to their one reader. */
module Placements {
  import opened FeedTypes
  import opened FeedScripts
  import opened FeedMachine
  import opened NoOpLost
  import opened Deliveries

  // ----- pending placements -----

  /** The readers a consumer has selected or is selecting from. */
  function Selected(pc: Pc): seq<UserId> {
    if !pc.Working? then []
    else match pc.stage
      case FilteringFree(drawn) => drawn
      case FilteringSeen(roomy) => roomy
      case Placing(todo, _) => todo
      case _ => []
  }

  /** The readers an agent has seen with room and may still place for. */
  function Aims(pc: Pc): set<UserId> {
    if pc.Probing? then {pc.reader}
    else if pc.Working? && pc.stage.FilteringFree? then {}
    else set u | u in Selected(pc)
  }

  function Aimers(agents: map<nat, Pc>, u: UserId): set<nat> {
    set a | a in agents && u in Aims(agents[a])
  }

  predicate BoundedFor(c: Settings, f: Feed, agents: map<nat, Pc>, u: UserId) {
    |QueueOf(f, u)| + |Aimers(agents, u)| <= c.maxSlots - 1 + |agents|
  }

  /** Queue length plus pending placements: at most the slots, and one per further agent. */
  ghost predicate Bounded(c: Settings, f: Feed, agents: map<nat, Pc>) {
    forall u: UserId :: BoundedFor(c, f, agents, u)
  }

  lemma SubsetSize<T>(x: set<T>, y: set<T>)
    requires x <= y
    ensures |x| <= |y|
  {
    assert y == x + (y - x);
  }

  lemma AimersMove(agents: map<nat, Pc>, a: nat, pc: Pc, u: UserId)
    requires a in agents
    ensures |agents[a := pc]| == |agents|
    ensures |Aimers(agents[a := pc], u)| <= |agents|
    ensures u !in Aims(pc) || u in Aims(agents[a]) ==> |Aimers(agents[a := pc], u)| <= |Aimers(agents, u)|
    ensures u !in Aims(pc) && u in Aims(agents[a]) ==> |Aimers(agents[a := pc], u)| == |Aimers(agents, u)| - 1
  {
    var before, after := Aimers(agents, u), Aimers(agents[a := pc], u);
    assert agents[a := pc].Keys == agents.Keys;
    SubsetSize(after, agents.Keys);
    if u !in Aims(pc) && u in Aims(agents[a]) {
      assert after == before - {a};
    } else if u !in Aims(pc) || u in Aims(agents[a]) {
      SubsetSize(after, before);
    }
  }

  /** One agent's command, seen from one reader: the queue does not grow and the agent aims at
      the reader only with cause, or the queue grows by a placement the agent had pending. */
  predicate FairMove(c: Settings, f: Feed, f': Feed, before: Pc, after: Pc, u: UserId) {
    || (|QueueOf(f', u)| <= |QueueOf(f, u)|
        && (u in Aims(after) ==> u in Aims(before) || HasRoom(f', u, c.maxSlots)))
    || (|QueueOf(f', u)| <= |QueueOf(f, u)| + 1 && u in Aims(before) && u !in Aims(after))
  }

  lemma BoundCarries(c: Settings, f: Feed, f': Feed, agents: map<nat, Pc>, a: nat, pc: Pc)
    requires Bounded(c, f, agents) && a in agents
    requires forall u: UserId :: FairMove(c, f, f', agents[a], pc, u)
    ensures Bounded(c, f', agents[a := pc])
  {
    var moved := agents[a := pc];
    forall u: UserId ensures BoundedFor(c, f', moved, u) {
      assert BoundedFor(c, f, agents, u) && FairMove(c, f, f', agents[a], pc, u);
      AimersMove(agents, a, pc, u);
    }
  }

  // ----- selections are distinct and leave the author out -----

  predicate Fair(c: Settings, pc: Pc) {
    var chosen := Selected(pc);
    && Distinct(chosen)
    && (pc.Working? ==> forall u :: u in chosen ==> u !in AuthorSet(c, pc.job.copy.op))
  }

  predicate AllFair(c: Settings, agents: map<nat, Pc>) {
    forall a :: a in agents ==> Fair(c, agents[a])
  }

  lemma TakeSelects(us: seq<UserId>, k: nat)
    ensures forall u :: u in Take(us, k) ==> u in us
    ensures Distinct(us) ==> Distinct(Take(us, k))
  {
  }

  lemma FilterFreeFair(c: Settings, s: State, job: Job, others: seq<UserId>)
    requires Fair(c, Working(job, FilteringFree(others)))
    ensures
      var pc := Working(job, StageAfter(c, s, job.copy.op, FilteringFree(others), []));
      Fair(c, pc) && forall u :: u in Aims(pc) ==> u in s.feed.free
  {
    TakeSelects(Filter(others, s.feed.free, true), Reach(c, job.copy.op));
  }

  lemma FilterSeenFair(c: Settings, s: State, job: Job, roomy: seq<UserId>)
    requires Fair(c, Working(job, FilteringSeen(roomy)))
    ensures
      var pc := Working(job, StageAfter(c, s, job.copy.op, FilteringSeen(roomy), []));
      Fair(c, pc) && forall u :: u in Aims(pc) ==> u in roomy
  {
    TakeSelects(Filter(roomy, SeenOf(s.feed, job.copy.op.post), false), Reach(c, job.copy.op));
  }

  lemma SamplingFair(c: Settings, s: State, job: Job, drawn: seq<UserId>)
    requires ValidDraw(c, s, job.copy.op, drawn)
    ensures
      var pc := Working(job, StageAfter(c, s, job.copy.op, Sampling, drawn));
      Fair(c, pc) && Aims(pc) == {}
  {
  }

  lemma MeasuringFair(c: Settings, s: State, job: Job, stage: Stage, drawn: seq<UserId>)
    requires stage.CheckingErased? || stage.SizingAudience? || stage.SizingSeen? || stage.Diffing?
    ensures
      var pc := Working(job, StageAfter(c, s, job.copy.op, stage, drawn));
      Fair(c, pc) && Aims(pc) == {}
  {
  }

  lemma ReadingFair(c: Settings, s: State, job: Job, stage: Stage, drawn: seq<UserId>)
    requires OnlyReads(stage) && Fair(c, Working(job, stage))
    requires stage.Sampling? ==> ValidDraw(c, s, job.copy.op, drawn)
    ensures
      var pc := Working(job, StageAfter(c, s, job.copy.op, stage, drawn));
      Fair(c, pc) && forall u :: u in Aims(pc) ==> u in Aims(Working(job, stage)) || u in s.feed.free
  {
    if stage.FilteringFree? {
      FilterFreeFair(c, s, job, stage.drawn);
    } else if stage.FilteringSeen? {
      FilterSeenFair(c, s, job, stage.roomy);
    } else if stage.Sampling? {
      SamplingFair(c, s, job, drawn);
    } else {
      MeasuringFair(c, s, job, stage, drawn);
    }
  }

  lemma ReadingBounded(c: Settings, s: State, a: nat, job: Job, stage: Stage, drawn: seq<UserId>)
    requires Bounded(c, s.feed, s.agents) && FreeIsExact(c, s.feed, s.log)
    requires a in s.agents && s.agents[a] == Working(job, stage) && OnlyReads(stage) && Fair(c, s.agents[a])
    requires stage.Sampling? ==> ValidDraw(c, s, job.copy.op, drawn)
    ensures var t := AfterWork(c, s, a, job, stage, drawn); Bounded(c, t.feed, t.agents)
  {
    ReadingFair(c, s, job, stage, drawn);
    var pc := Working(job, StageAfter(c, s, job.copy.op, stage, drawn));
    forall u: UserId ensures FairMove(c, s.feed, s.feed, s.agents[a], pc, u) {
    }
    BoundCarries(c, s.feed, s.feed, s.agents, a, pc);
  }

  /** A placement pushes at most one post, and only for its reader. */
  lemma PlaceGrowsOne(c: Settings, s: State, u: UserId, p: PostId)
    ensures forall v: UserId :: v != u ==> QueueOf(PlaceIn(c, s, u, p).feed, v) == QueueOf(s.feed, v)
    ensures |QueueOf(PlaceIn(c, s, u, p).feed, u)| <= |QueueOf(s.feed, u)| + 1
  {
  }

  lemma PlacingBounded(c: Settings, s: State, a: nat, job: Job, todo: seq<UserId>, landed: Option<UserId>)
    requires Bounded(c, s.feed, s.agents)
    requires a in s.agents && s.agents[a] == Working(job, Placing(todo, landed)) && Fair(c, s.agents[a])
    ensures var t := AfterPlacing(c, s, a, job, todo, landed);
            Bounded(c, t.feed, t.agents) && Fair(c, t.agents[a])
  {
    var t := AfterPlacing(c, s, a, job, todo, landed);
    if todo == [] {
      forall u: UserId ensures FairMove(c, s.feed, s.feed, s.agents[a], t.agents[a], u) {
      }
    } else {
      PlaceGrowsOne(c, s, todo[0], job.copy.op.post);
      assert todo[0] in todo;
      assert todo[0] !in todo[1..];
      forall u: UserId ensures FairMove(c, s.feed, t.feed, s.agents[a], t.agents[a], u) {
      }
    }
    BoundCarries(c, s.feed, t.feed, s.agents, a, t.agents[a]);
  }

  lemma ProbingBounded(c: Settings, s: State, a: nat)
    requires Bounded(c, s.feed, s.agents) && a in s.agents && s.agents[a].Probing?
    ensures var t := PlaceIn(c, s, s.agents[a].reader, s.agents[a].probe); Bounded(c, t.feed, s.agents[a := Idle])
  {
    var u, p := s.agents[a].reader, s.agents[a].probe;
    var f := PlaceIn(c, s, u, p).feed;
    PlaceGrowsOne(c, s, u, p);
    forall v: UserId ensures FairMove(c, s.feed, f, s.agents[a], Idle, v) {
    }
    BoundCarries(c, s.feed, f, s.agents, a, Idle);
  }

  /** Commands that neither place nor select: queues stay, and the agent aims at nobody new. */
  lemma IdleMoveBounded(c: Settings, f: Feed, agents: map<nat, Pc>, a: nat, pc: Pc)
    requires Bounded(c, f, agents) && a in agents && Aims(pc) == {}
    ensures Bounded(c, f, agents[a := pc])
  {
    forall u: UserId ensures FairMove(c, f, f, agents[a], pc, u) {
    }
    BoundCarries(c, f, f, agents, a, pc);
  }

  lemma OpeningAims(c: Settings, s: State, a: nat, o: Opening)
    requires CanBegin(c, s, a, o)
    ensures var pc := AfterBegin(c, s, a, o).agents[a];
            Fair(c, pc) && Aims(pc) == if o.CheckRoom? then {o.reader} else {}
  {
  }

  /** A claim takes at most one post out of one queue. */
  lemma ClaimShrinks(c: Settings, s: State, u: UserId, p: PostId)
    ensures forall v: UserId :: |QueueOf(ClaimedBy(c, s, u, p).feed, v)| <= |QueueOf(s.feed, v)|
  {
    if p in QueueOf(s.feed, u) {
      RemoveFirstTakesOne(QueueOf(s.feed, u), p);
    }
  }

  lemma BeginBounded(c: Settings, s: State, a: nat, o: Opening)
    requires Bounded(c, s.feed, s.agents) && CanBegin(c, s, a, o)
    ensures var t := AfterBegin(c, s, a, o); Bounded(c, t.feed, t.agents)
  {
    OpeningAims(c, s, a, o);
    var t := AfterBegin(c, s, a, o);
    if o.Review? {
      ClaimShrinks(c, s, o.reader, o.post);
    }
    forall u: UserId ensures FairMove(c, s.feed, t.feed, s.agents[a], t.agents[a], u) {
    }
    BoundCarries(c, s.feed, t.feed, s.agents, a, t.agents[a]);
  }

  lemma ClosingAims(c: Settings, s: State, a: nat, job: Job, stage: Stage, drawn: seq<UserId>)
    requires !OnlyReads(stage) && !stage.Placing?
    ensures var t := AfterWork(c, s, a, job, stage, drawn);
            t.feed == s.feed && Fair(c, t.agents[a]) && Aims(t.agents[a]) == {}
  {
  }

  lemma WalkingAims(c: Settings, s: State, a: nat, walk: Walk, leg: Leg)
    ensures var t := AfterWalk(c, s, a, walk, leg);
            t.feed == s.feed && Fair(c, t.agents[a]) && Aims(t.agents[a]) == {}
  {
  }

  lemma ProceedBounded(c: Settings, s: State, a: nat, drawn: seq<UserId>)
    requires Bounded(c, s.feed, s.agents) && FreeIsExact(c, s.feed, s.log)
    requires CanProceed(c, s, a, drawn) && Fair(c, s.agents[a])
    ensures var t := AfterProceed(c, s, a, drawn); Bounded(c, t.feed, t.agents) && Fair(c, t.agents[a])
  {
    match s.agents[a]
    case Working(job, stage) =>
      if OnlyReads(stage) {
        ReadingFair(c, s, job, stage, drawn);
        ReadingBounded(c, s, a, job, stage, drawn);
      } else if stage.Placing? {
        PlacingBounded(c, s, a, job, stage.todo, stage.landed);
      } else {
        ClosingAims(c, s, a, job, stage, drawn);
        IdleMoveBounded(c, s.feed, s.agents, a, AfterWork(c, s, a, job, stage, drawn).agents[a]);
      }
    case Walking(walk, leg) =>
      WalkingAims(c, s, a, walk, leg);
      IdleMoveBounded(c, s.feed, s.agents, a, AfterWalk(c, s, a, walk, leg).agents[a]);
    case Sending(op) => IdleMoveBounded(c, s.feed, s.agents, a, Counting(op.route, s.books.nextEntry));
    case Counting(_, _) => IdleMoveBounded(c, s.feed, s.agents, a, Idle);
    case Probing(_, _) => ProbingBounded(c, s, a);
  }

  lemma EventBounded(c: Settings, s: State, e: Event)
    requires Bounded(c, s.feed, s.agents) && CanHappen(c, s, e)
    ensures var t := AfterEvent(c, s, e); Bounded(c, t.feed, t.agents)
  {
    var t := AfterEvent(c, s, e);
    if e.Crash? {
      IdleMoveBounded(c, s.feed, s.agents, e.agent, Idle);
    } else {
      if e.ClaimPost? {
        ClaimShrinks(c, s, e.u, e.p);
      }
      forall u: UserId ensures BoundedFor(c, t.feed, t.agents, u) {
        assert BoundedFor(c, s.feed, s.agents, u);
      }
    }
  }

  ghost predicate Ordered(c: Settings, s: State) {
    Tidy(c, s.feed, s.log) && Bounded(c, s.feed, s.agents) && AllFair(c, s.agents)
  }

  lemma FairCarries(c: Settings, agents: map<nat, Pc>, a: nat, pc: Pc)
    requires AllFair(c, agents) && Fair(c, pc)
    ensures AllFair(c, agents[a := pc])
  {
  }

  lemma BeginOrdered(c: Settings, s: State, a: nat, o: Opening)
    requires Ordered(c, s) && CanBegin(c, s, a, o)
    ensures Ordered(c, AfterBegin(c, s, a, o))
  {
    StepTidy(c, s, Begin(a, o));
    BeginBounded(c, s, a, o);
    OpeningAims(c, s, a, o);
    FairCarries(c, s.agents, a, AfterBegin(c, s, a, o).agents[a]);
  }

  lemma ProceedOrdered(c: Settings, s: State, a: nat, drawn: seq<UserId>)
    requires Ordered(c, s) && CanProceed(c, s, a, drawn)
    ensures Ordered(c, AfterProceed(c, s, a, drawn))
  {
    ProceedTidy(c, s, a, drawn);
    ProceedBounded(c, s, a, drawn);
    FairCarries(c, s.agents, a, AfterProceed(c, s, a, drawn).agents[a]);
  }

  lemma EventOrdered(c: Settings, s: State, e: Event)
    requires Ordered(c, s) && CanHappen(c, s, e)
    ensures Ordered(c, AfterEvent(c, s, e))
  {
    EventTidy(c, s, e);
    EventBounded(c, s, e);
    if e.Crash? {
      FairCarries(c, s.agents, e.agent, Idle);
    }
  }

  lemma StepOrdered(c: Settings, s: State, step: Step)
    requires Ordered(c, s) && Enabled(c, s, step)
    ensures Ordered(c, After(c, s, step))
  {
    match step
    case Begin(a, o) => BeginOrdered(c, s, a, o);
    case Proceed(a, drawn) => ProceedOrdered(c, s, a, drawn);
    case Happen(e) => EventOrdered(c, s, e);
  }

  lemma InitOrdered(c: Settings, s: State)
    requires ValidSettings(c) && Init(s)
    ensures Ordered(c, s)
  {
    forall u: UserId ensures BoundedFor(c, s.feed, s.agents, u) {
      assert Aimers(s.agents, u) == {};
    }
  }

  lemma {:induction false} RunOrdered(c: Settings, s: State, steps: seq<Step>, t: State)
    requires Ordered(c, s) && Leads(c, s, steps, t)
    ensures Ordered(c, t)
    decreases |steps|
  {
    if steps != [] {
      StepOrdered(c, s, steps[0]);
      RunOrdered(c, After(c, s, steps[0]), steps[1..], t);
    }
  }

  /** With W agents, no queue ever holds more than the slots plus W - 1, counting the
      placements still pending; so one placer at a time keeps every queue within its slots. */
  lemma QueueBound(c: Settings, t: State, u: UserId)
    requires ValidSettings(c) && Reachable(c, t)
    ensures |QueueOf(t.feed, u)| + |Aimers(t.agents, u)| <= c.maxSlots - 1 + |t.agents|
    ensures |t.agents| == 1 ==> |QueueOf(t.feed, u)| <= c.maxSlots
  {
    var s, steps :| Init(s) && Leads(c, s, steps, t);
    InitOrdered(c, s);
    RunOrdered(c, s, steps, t);
    assert BoundedFor(c, t.feed, t.agents, u);
  }

  // ----- authors and probes -----

  /** Every operation minted for `p` named `a` as its author. */
  predicate AlwaysNames(b: Books, g: Log, p: PostId, a: UserId) {
    p !in g.probes && forall id :: id in b.minted && b.minted[id].post == p ==> b.minted[id].author == Some(a)
  }

  ghost predicate AuthorsSpared(b: Books, g: Log) {
    forall p: PostId, a: UserId :: AlwaysNames(b, g, p, a) ==> (a, p) !in g.pushes
  }

  /** A probe is in no minted operation and was pushed to nobody but its reader. */
  ghost predicate ProbesConfined(b: Books, g: Log) {
    && (forall id :: id in b.minted ==> b.minted[id].post !in g.probes)
    && (forall u: UserId, p: PostId :: (u, p) in g.pushes && p in g.probes ==> u == g.probes[p])
    && (forall u: UserId, p: PostId :: (u, p) in g.pushes ==> p in g.probes || exists id :: id in b.minted && b.minted[id].post == p)
  }

  /** What an agent is about to place or send: a test post only for its reader, an operation
      only for a post that is none. */
  predicate IntentKnown(g: Log, nextPost: PostId, pc: Pc) {
    && (pc.Probing? ==> pc.probe in g.probes && g.probes[pc.probe] == pc.reader)
    && (pc.Sending? ==> pc.op.post !in g.probes && pc.op.post < nextPost)
  }

  predicate IntentsKnown(g: Log, nextPost: PostId, agents: map<nat, Pc>) {
    forall a :: a in agents ==> IntentKnown(g, nextPost, agents[a])
  }

  /** Ids in use lie below the next one, and the rows marked as test posts are the test posts. */
  ghost predicate RowsKnown(b: Books, g: Log, posts: map<PostId, Row>, nextPost: PostId) {
    && (forall p :: p in posts ==> p < nextPost && (posts[p].probe <==> p in g.probes))
    && (forall p :: p in g.probes ==> p < nextPost)
    && (forall id :: id in b.minted ==> b.minted[id].post < nextPost)
  }

  ghost predicate Discreet(c: Settings, s: State) {
    && (c.excludeOwn ==> AuthorsSpared(s.books, s.log))
    && ProbesConfined(s.books, s.log)
    && RowsKnown(s.books, s.log, s.posts, s.nextPost)
    && IntentsKnown(s.log, s.nextPost, s.agents)
  }

  /** A consumer's push is for a minted post, and never for the author its operation names. */
  lemma WorkerPlaceDiscreet(c: Settings, s: State, u: UserId, k: Copy)
    requires Discreet(c, s) && TrueCopy(c, s.books, k) && u !in AuthorSet(c, k.op)
    ensures var t := PlaceIn(c, s, u, k.op.post);
            (c.excludeOwn ==> AuthorsSpared(t.books, t.log)) && ProbesConfined(t.books, t.log)
  {
    var p, t := k.op.post, PlaceIn(c, s, u, k.op.post);
    assert s.books.minted[k.id].post == p;
    if c.excludeOwn {
      forall q: PostId, a: UserId | AlwaysNames(t.books, t.log, q, a) ensures (a, q) !in t.log.pushes {
        assert AlwaysNames(s.books, s.log, q, a);
      }
    }
  }

  lemma ProbePlaceDiscreet(c: Settings, s: State, u: UserId, p: PostId)
    requires Discreet(c, s) && p in s.log.probes && s.log.probes[p] == u
    ensures var t := PlaceIn(c, s, u, p);
            (c.excludeOwn ==> AuthorsSpared(t.books, t.log)) && ProbesConfined(t.books, t.log)
  {
    var t := PlaceIn(c, s, u, p);
    if c.excludeOwn {
      forall q: PostId, a: UserId | AlwaysNames(t.books, t.log, q, a) ensures (a, q) !in t.log.pushes {
        assert AlwaysNames(s.books, s.log, q, a);
      }
    }
  }

  /** What else changes is only ever more minted operations and more probes. */
  lemma QuietStepDiscreet(c: Settings, b: Books, g: Log, d: Books, h: Log)
    requires (c.excludeOwn ==> AuthorsSpared(b, g)) && ProbesConfined(b, g)
    requires h.pushes == g.pushes
    requires forall id :: id in b.minted ==> id in d.minted && d.minted[id] == b.minted[id]
    requires forall p :: p in g.probes ==> p in h.probes && h.probes[p] == g.probes[p]
    requires forall id :: id in d.minted ==> d.minted[id].post !in h.probes
    ensures (c.excludeOwn ==> AuthorsSpared(d, h)) && ProbesConfined(d, h)
  {
    if c.excludeOwn {
      forall p: PostId, a: UserId | AlwaysNames(d, h, p, a) ensures (a, p) !in h.pushes {
        assert AlwaysNames(b, g, p, a);
      }
    }
  }

  /** Moving one agent, while history only grows. */
  lemma IntentsCarry(g: Log, n: PostId, h: Log, m: PostId, agents: map<nat, Pc>, a: nat, pc: Pc)
    requires IntentsKnown(g, n, agents) && IntentKnown(h, m, pc) && n <= m
    requires forall p :: p in g.probes ==> p in h.probes && h.probes[p] == g.probes[p]
    requires forall p :: p in h.probes && p !in g.probes ==> p >= n
    ensures IntentsKnown(h, m, agents[a := pc])
  {
    var moved := agents[a := pc];
    forall b | b in moved ensures IntentKnown(h, m, moved[b]) {
      if b != a {
        assert IntentKnown(g, n, agents[b]);
      }
    }
  }

  /** What a review leads to: a forward is sent only for a reviewed post that is no test. */
  lemma ReviewIntent(c: Settings, s: State, a: nat, o: Opening)
    requires RowsKnown(s.books, s.log, s.posts, s.nextPost) && CanBegin(c, s, a, o) && o.Review?
    ensures var t := AfterBegin(c, s, a, o); IntentKnown(t.log, t.nextPost, t.agents[a])
  {
    if Reviewable(s, o.reader, o.post) {
      assert s.posts[o.post].probe <==> o.post in s.log.probes;
    }
  }

  lemma OpeningIntent(c: Settings, s: State, a: nat, o: Opening)
    requires RowsKnown(s.books, s.log, s.posts, s.nextPost) && CanBegin(c, s, a, o)
    ensures var t := AfterBegin(c, s, a, o); IntentKnown(t.log, t.nextPost, t.agents[a])
  {
    if o.Review? {
      ReviewIntent(c, s, a, o);
    }
  }

  lemma OpeningRows(c: Settings, s: State, a: nat, o: Opening)
    requires RowsKnown(s.books, s.log, s.posts, s.nextPost) && CanBegin(c, s, a, o)
    ensures var t := AfterBegin(c, s, a, o); RowsKnown(t.books, t.log, t.posts, t.nextPost)
  {
  }

  /** Between openings history only grows: more test posts, under ids not used before. */
  predicate LogExtends(g: Log, n: PostId, h: Log, m: PostId) {
    && n <= m && h.pushes == g.pushes
    && (forall p :: p in g.probes ==> p in h.probes && h.probes[p] == g.probes[p])
    && (forall p :: p in h.probes && p !in g.probes ==> p >= n)
  }

  lemma OpeningLog(c: Settings, s: State, a: nat, o: Opening)
    requires (forall p :: p in s.log.probes ==> p < s.nextPost) && CanBegin(c, s, a, o)
    ensures var t := AfterBegin(c, s, a, o); LogExtends(s.log, s.nextPost, t.log, t.nextPost)
  {
  }

  lemma BeginDiscreet(c: Settings, s: State, a: nat, o: Opening)
    requires Discreet(c, s) && CanBegin(c, s, a, o)
    ensures Discreet(c, AfterBegin(c, s, a, o))
  {
    var t := AfterBegin(c, s, a, o);
    OpeningIntent(c, s, a, o);
    OpeningRows(c, s, a, o);
    OpeningLog(c, s, a, o);
    QuietStepDiscreet(c, s.books, s.log, t.books, t.log);
    IntentsCarry(s.log, s.nextPost, t.log, t.nextPost, s.agents, a, t.agents[a]);
  }

  lemma PlacingDiscreet(c: Settings, s: State, a: nat, job: Job, todo: seq<UserId>, landed: Option<UserId>)
    requires Discreet(c, s) && Sound(c, s) && AllFair(c, s.agents)
    requires a in s.agents && s.agents[a] == Working(job, Placing(todo, landed))
    ensures Discreet(c, AfterPlacing(c, s, a, job, todo, landed))
  {
    assert SoundPc(c, s.books, s.agents[a]) && Fair(c, s.agents[a]);
    var t := AfterPlacing(c, s, a, job, todo, landed);
    if todo != [] {
      assert todo[0] in Selected(s.agents[a]);
      WorkerPlaceDiscreet(c, s, todo[0], job.copy);
    }
    IntentsCarry(s.log, s.nextPost, t.log, t.nextPost, s.agents, a, t.agents[a]);
  }

  /** Moving one agent and touching no row, no delivery and no operation's identity. */
  lemma QuietMoveDiscreet(c: Settings, s: State, t: State, a: nat)
    requires Discreet(c, s) && t.log == s.log && t.posts == s.posts && t.nextPost == s.nextPost
    requires t.books.minted == s.books.minted && a in t.agents && t.agents == s.agents[a := t.agents[a]]
    requires !t.agents[a].Probing? && !t.agents[a].Sending?
    ensures Discreet(c, t)
  {
    QuietStepDiscreet(c, s.books, s.log, t.books, t.log);
    IntentsCarry(s.log, s.nextPost, t.log, t.nextPost, s.agents, a, t.agents[a]);
  }

  /** Sending the operation of a post that is no test keeps every operation one. */
  lemma SendingDiscreet(c: Settings, s: State, a: nat, op: Op)
    requires Discreet(c, s) && Sound(c, s) && a in s.agents && s.agents[a] == Sending(op)
    ensures Discreet(c, AfterProceed(c, s, a, []))
  {
    var t := AfterProceed(c, s, a, []);
    assert IntentKnown(s.log, s.nextPost, s.agents[a]);
    assert s.books.nextEntry !in s.books.minted;
    QuietStepDiscreet(c, s.books, s.log, t.books, t.log);
    IntentsCarry(s.log, s.nextPost, t.log, t.nextPost, s.agents, a, t.agents[a]);
  }

  lemma ProceedDiscreet(c: Settings, s: State, a: nat, drawn: seq<UserId>)
    requires Discreet(c, s) && Sound(c, s) && AllFair(c, s.agents) && CanProceed(c, s, a, drawn)
    ensures Discreet(c, AfterProceed(c, s, a, drawn))
  {
    var pc := s.agents[a];
    if pc.Probing? {
      assert IntentKnown(s.log, s.nextPost, pc);
      ProbePlaceDiscreet(c, s, pc.reader, pc.probe);
      var t := AfterProceed(c, s, a, drawn);
      IntentsCarry(s.log, s.nextPost, t.log, t.nextPost, s.agents, a, Idle);
    } else if pc.Working? && pc.stage.Placing? {
      PlacingDiscreet(c, s, a, pc.job, pc.stage.todo, pc.stage.landed);
    } else if pc.Sending? {
      SendingDiscreet(c, s, a, pc.op);
    } else {
      QuietMoveDiscreet(c, s, AfterProceed(c, s, a, drawn), a);
    }
  }

  lemma EventDiscreet(c: Settings, s: State, e: Event)
    requires Discreet(c, s) && CanHappen(c, s, e)
    ensures Discreet(c, AfterEvent(c, s, e))
  {
    var t := AfterEvent(c, s, e);
    EventMintsNothing(c, s, e);
    QuietStepDiscreet(c, s.books, s.log, t.books, t.log);
    if e.Crash? {
      IntentsCarry(s.log, s.nextPost, t.log, t.nextPost, s.agents, e.agent, Idle);
    } else {
      forall b | b in t.agents ensures IntentKnown(t.log, t.nextPost, t.agents[b]) {
        assert IntentKnown(s.log, s.nextPost, s.agents[b]);
      }
    }
  }

  // ----- operations and the rows they are about -----

  /** An operation goes where its post's row says, and travels under the author the row names. */
  predicate TrueToRow(op: Op, posts: map<PostId, Row>) {
    op.post in posts ==>
      op.route == posts[op.post].route && (posts[op.post].author.Some? ==> op.author == posts[op.post].author)
  }

  ghost predicate Carried(s: State) {
    && (forall id :: id in s.books.minted ==> TrueToRow(s.books.minted[id], s.posts))
    && (forall a :: a in s.agents && s.agents[a].Sending? ==> TrueToRow(s.agents[a].op, s.posts))
  }

  lemma BeginCarried(c: Settings, s: State, a: nat, o: Opening)
    requires Carried(s) && Discreet(c, s) && CanBegin(c, s, a, o)
    ensures Carried(AfterBegin(c, s, a, o))
  {
    var t := AfterBegin(c, s, a, o);
    forall b | b in t.agents && t.agents[b].Sending? ensures TrueToRow(t.agents[b].op, t.posts) {
      if b != a {
        assert IntentKnown(s.log, s.nextPost, s.agents[b]);
      }
    }
  }

  lemma ProceedCarried(c: Settings, s: State, a: nat, drawn: seq<UserId>)
    requires Carried(s) && CanProceed(c, s, a, drawn)
    ensures Carried(AfterProceed(c, s, a, drawn))
  {
  }

  /** A row may lose its author or go; it never gains one. */
  lemma EventCarried(c: Settings, s: State, e: Event)
    requires Carried(s) && CanHappen(c, s, e)
    ensures Carried(AfterEvent(c, s, e))
  {
    var t := AfterEvent(c, s, e);
    forall op: Op | TrueToRow(op, s.posts) ensures TrueToRow(op, t.posts) {
    }
  }

  ghost predicate Proper(c: Settings, s: State) {
    Sound(c, s) && Ordered(c, s) && Discreet(c, s) && Carried(s)
  }

  lemma StepProper(c: Settings, s: State, step: Step)
    requires Proper(c, s) && Enabled(c, s, step)
    ensures Proper(c, After(c, s, step))
  {
    StepSound(c, s, step);
    StepOrdered(c, s, step);
    match step
    case Begin(a, o) =>
      BeginDiscreet(c, s, a, o);
      BeginCarried(c, s, a, o);
    case Proceed(a, drawn) =>
      ProceedDiscreet(c, s, a, drawn);
      ProceedCarried(c, s, a, drawn);
    case Happen(e) =>
      EventDiscreet(c, s, e);
      EventCarried(c, s, e);
  }

  lemma {:induction false} RunProper(c: Settings, s: State, steps: seq<Step>, t: State)
    requires Proper(c, s) && Leads(c, s, steps, t)
    ensures Proper(c, t)
    decreases |steps|
  {
    if steps != [] {
      StepProper(c, s, steps[0]);
      RunProper(c, After(c, s, steps[0]), steps[1..], t);
    }
  }

  lemma ReachableProper(c: Settings, t: State)
    requires ValidSettings(c) && Reachable(c, t)
    ensures Proper(c, t)
  {
    var s, steps :| Init(s) && Leads(c, s, steps, t);
    InitOrdered(c, s);
    RunProper(c, s, steps, t);
  }

  /** A forward of an ordinary queued post mints one operation, with the route and author of the
      post's row and the fan-out it was given; any other review mints none. */
  lemma ForwardMints(c: Settings, s: State, a: nat, u: UserId, p: PostId, forward: bool, fanout: Option<int>)
    requires CanBegin(c, s, a, Review(u, p, forward, fanout))
    ensures
      var t := AfterBegin(c, s, a, Review(u, p, forward, fanout));
      if forward && p in s.posts && p in QueueOf(s.feed, u) && !s.posts[p].probe
      then CanProceed(c, t, a, [])
           && AfterProceed(c, t, a, []).books.minted
              == s.books.minted[s.books.nextEntry := Op(p, s.posts[p].route, s.posts[p].author, fanout, None)]
      else t.agents[a] == Idle && t.books.minted == s.books.minted
  {
  }

  /** Whoever minted it, by publishing or by forwarding, an operation goes where the row of its
      post says and travels under the author the row names, for as long as there is a row and it
      names one; and so does every copy of it. */
  lemma OperationsAreTrueToRows(c: Settings, t: State)
    requires ValidSettings(c) && Reachable(c, t)
    ensures forall id :: id in t.books.minted ==> TrueToRow(t.books.minted[id], t.posts)
    ensures forall e :: e in t.books.stream ==> TrueToRow(t.books.stream[e].op, t.posts)
    ensures forall m :: m in t.books.retry ==> TrueToRow(t.books.retry[m].copy.op, t.posts)
  {
    ReachableProper(c, t);
    CopiesStayTrue(c, t);
  }

  /** With own posts excluded, an author was never pushed their post by any worker in any
      interleaving, if its row names them or it only ever travelled under their name. */
  lemma AuthorsNeverReceiveTheirOwn(c: Settings, t: State, p: PostId, a: UserId)
    requires ValidSettings(c) && Reachable(c, t) && c.excludeOwn
    requires (p in t.posts && !t.posts[p].probe && t.posts[p].author == Some(a)) || AlwaysNames(t.books, t.log, p, a)
    ensures PushCount(t.log, a, p) == 0 && p !in QueueOf(t.feed, a)
  {
    ReachableProper(c, t);
    assert AlwaysNames(t.books, t.log, p, a) by {
      assert forall id :: id in t.books.minted ==> TrueToRow(t.books.minted[id], t.posts);
    }
  }

  /** No operation is ever minted for a test post, so it is on no stream entry and in no retry
      member; and it sits in its reader's queue or in none. */
  lemma ProbesStayPrivate(c: Settings, t: State, p: PostId)
    requires ValidSettings(c) && Reachable(c, t)
    requires p in t.log.probes || (p in t.posts && t.posts[p].probe)
    ensures forall id :: id in t.books.minted ==> t.books.minted[id].post != p
    ensures forall e :: e in t.books.stream ==> t.books.stream[e].op.post != p
    ensures forall m :: m in t.books.retry ==> t.books.retry[m].copy.op.post != p
    ensures p in t.log.probes && forall u: UserId :: p in QueueOf(t.feed, u) ==> u == t.log.probes[p]
  {
    ReachableProper(c, t);
  }
}
