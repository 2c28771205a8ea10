/** What an erasure leaves: how long a tombstone keeps the operations of an erased post from being
    handed out, and exactly when nothing can hand the post out any more. */
module Erasure {
  import opened FeedTypes
  import opened FeedScripts
  import opened FeedMachine
  import N = NoOpLost
  import F = Fanout
  import W = WorkerAlone

  // ----- an erasure is for good -----

  /** Post `p` has no row, and its tombstone stands until `until`. */
  predicate Buried(c: Settings, s: State, p: PostId, until: int) {
    && (s.now < until ==> p in s.tombs && until <= s.tombs[p]) && until <= s.now + c.retryMaxAge
    && p < s.nextPost && p !in s.posts
  }

  /** Rows are only added under new ids, by a request that begins. */
  lemma RowsOnlyGrow(c: Settings, s: State, a: nat, o: Opening)
    requires CanBegin(c, s, a, o)
    ensures
      var t := AfterBegin(c, s, a, o);
      && s.nextPost <= t.nextPost && t.now == s.now && t.tombs == s.tombs
      && forall p :: p in t.posts && p < s.nextPost ==> p in s.posts && t.posts[p] == s.posts[p]
  {
  }

  lemma EventBuries(c: Settings, s: State, e: Event, p: PostId, until: int)
    requires CanHappen(c, s, e) && Buried(c, s, p, until)
    ensures Buried(c, AfterEvent(c, s, e), p, until)
  {
  }

  lemma StepBuries(c: Settings, s: State, step: Step, p: PostId, until: int)
    requires Enabled(c, s, step) && Buried(c, s, p, until)
    ensures Buried(c, After(c, s, step), p, until)
  {
    match step
    case Begin(a, o) => RowsOnlyGrow(c, s, a, o);
    case Proceed(a, drawn) =>
    case Happen(e) => EventBuries(c, s, e, p, until);
  }

  lemma {:induction false} RunBuries(c: Settings, s: State, steps: seq<Step>, t: State, p: PostId, until: int)
    requires Leads(c, s, steps, t) && Buried(c, s, p, until)
    ensures Buried(c, t, p, until)
    decreases |steps|
  {
    if steps != [] {
      StepBuries(c, s, steps[0], p, until);
      RunBuries(c, After(c, s, steps[0]), steps[1..], t, p, until);
    }
  }

  /** Whatever runs on after an erasure: there is no row of the post any more, so it is never
      reviewed again; for a whole max-age its tombstone stands, so a worker that takes an operation
      of it up ends it; and a walk begun after that drops each of its operations that was first
      parked before the erasure. */
  lemma ErasureLasts(c: Settings, s: State, p: PostId, steps: seq<Step>, t: State)
    requires p < s.nextPost && Leads(c, AfterEvent(c, s, ErasePost(p)), steps, t)
    ensures p !in t.posts && forall u: UserId :: !Reviewable(t, u, p)
    ensures t.now < s.now + c.retryMaxAge ==>
              forall op: Op, drawn :: op.post == p ==> StageAfter(c, t, op, CheckingErased, drawn) == Retiring(Erased)
    ensures t.now >= s.now + c.retryMaxAge ==>
              forall m, k: Copy :: k.op.post == p && k.op.expires.Some? && k.op.expires.value <= s.now + c.retryMaxAge ==>
                NextWalk(c, t.now, [(m, k)]) == Walking(Walk(t.now, m, k, []), DroppingOverdue)
  {
    RunBuries(c, AfterEvent(c, s, ErasePost(p)), steps, t, p, s.now + c.retryMaxAge);
    assert forall m: nat, k: Copy :: [(m, k)][1..] == [];
  }

  /** The tombstone may go exactly from then on, and is gone once it has. */
  lemma TombstoneEnds(c: Settings, s: State, p: PostId, d: nat)
    ensures
      var t := AfterEvent(c, AfterEvent(c, s, ErasePost(p)), Tick(d));
      && (CanHappen(c, t, ExpireTomb(p)) <==> d >= c.retryMaxAge)
      && (d >= c.retryMaxAge ==> p !in AfterEvent(c, t, ExpireTomb(p)).tombs)
  {
  }

  predicate Authorless(s: State, p: PostId) {
    p < s.nextPost && (p in s.posts ==> s.posts[p].author.None?)
  }

  lemma StepAuthorless(c: Settings, s: State, step: Step, p: PostId)
    requires Enabled(c, s, step) && Authorless(s, p)
    ensures Authorless(After(c, s, step), p)
  {
    if step.Begin? {
      RowsOnlyGrow(c, s, step.agent, step.opening);
    }
  }

  lemma {:induction false} AnonymityLasts(c: Settings, s: State, steps: seq<Step>, t: State, p: PostId)
    requires Authorless(s, p) && Leads(c, s, steps, t)
    ensures Authorless(t, p)
    decreases |steps|
  {
    if steps != [] {
      StepAuthorless(c, s, steps[0], p);
      AnonymityLasts(c, After(c, s, steps[0]), steps[1..], t, p);
    }
  }

  /** A post whose author is forgotten stays without one. */
  lemma ForgottenAuthorsStayForgotten(c: Settings, s: State, p: PostId, steps: seq<Step>, t: State)
    requires p in s.posts && p < s.nextPost && Leads(c, AfterEvent(c, s, Anonymise(p)), steps, t)
    ensures p in t.posts ==> t.posts[p].author.None?
  {
    AnonymityLasts(c, AfterEvent(c, s, Anonymise(p)), steps, t, p);
  }

  // ----- nothing chases it any more -----

  predicate PastDue(op: Op, p: PostId, at: int) {
    op.post == p ==> op.expires.Some? && op.expires.value <= at
  }

  /** The agent is not at work on an operation of `p`, and drops each one it walks over. */
  predicate Leaves(pc: Pc, p: PostId) {
    match pc
    case Idle => true
    case Counting(_, _) => true
    case Sending(op) => op.post != p
    case Probing(_, q) => q != p
    case Working(job, _) => job.copy.op.post != p && forall i :: 0 <= i < |job.rest| ==> job.rest[i].1.op.post != p
    case Walking(walk, leg) =>
      && (walk.copy.op.post == p ==> leg.DroppingOverdue? || leg.RetiringOverdue?)
      && forall i :: 0 <= i < |walk.rest| ==> PastDue(walk.rest[i].1.op, p, walk.at)
  }

  /** The deadline of what waits has passed, or will have when it is due. */
  predicate Hopeless(w: Parked, p: PostId, now: int) {
    w.copy.op.post == p ==> w.copy.op.expires.Some? && (w.copy.op.expires.value <= now || w.copy.op.expires.value <= w.due)
  }

  /** No row, no entry and no agent holds post `p`, and what waits in the retry set is hopeless. */
  ghost predicate Over(s: State, p: PostId) {
    && p < s.nextPost && p !in s.posts
    && (forall e :: e in s.books.stream ==> s.books.stream[e].op.post != p)
    && (forall m :: m in s.books.retry ==> Hopeless(s.books.retry[m], p, s.now))
    && forall a :: a in s.agents ==> Leaves(s.agents[a], p)
  }

  /** No reader's queue has gained the post. */
  ghost predicate NobodyGains(s: State, t: State, p: PostId) {
    forall u: UserId :: p in QueueOf(t.feed, u) ==> p in QueueOf(s.feed, u)
  }

  lemma NextWalkLeaves(c: Settings, at: int, due: seq<(nat, Copy)>, p: PostId)
    requires forall i :: 0 <= i < |due| ==> PastDue(due[i].1.op, p, at)
    ensures Leaves(NextWalk(c, at, due), p)
  {
    if due != [] {
      assert PastDue(due[0].1.op, p, at);
      assert forall i :: 0 <= i < |due[1..]| ==> due[1..][i] == due[i + 1];
    }
  }

  lemma BeginLeaves(c: Settings, s: State, a: nat, o: Opening, p: PostId)
    requires CanBegin(c, s, a, o) && Over(s, p)
    ensures Leaves(AfterBegin(c, s, a, o).agents[a], p)
  {
    if o.Scan? {
      NextWalkLeaves(c, s.now, DueBatch(s.books.retry, o.due), p);
    }
  }

  lemma TakenOutGains(f: Feed, u: UserId, q: PostId, slots: nat, p: PostId, v: UserId)
    ensures p in QueueOf(Claimed(f, u, q, slots), v) ==> p in QueueOf(f, v)
  {
    if q in QueueOf(f, u) {
      RemoveFirstTakesOne(QueueOf(f, u), q);
      assert p in RemoveFirst(QueueOf(f, u), q) ==> p in multiset(RemoveFirst(QueueOf(f, u), q));
    }
  }

  lemma BeginOver(c: Settings, s: State, a: nat, o: Opening, p: PostId)
    requires CanBegin(c, s, a, o) && Over(s, p)
    ensures Over(AfterBegin(c, s, a, o), p) && NobodyGains(s, AfterBegin(c, s, a, o), p)
  {
    BeginLeaves(c, s, a, o, p);
    RowsOnlyGrow(c, s, a, o);
    if o.Review? {
      forall u: UserId ensures p in QueueOf(Claimed(s.feed, o.reader, o.post, c.maxSlots), u) ==> p in QueueOf(s.feed, u) {
        TakenOutGains(s.feed, o.reader, o.post, c.maxSlots, p, u);
      }
    }
  }

  lemma WalkOver(c: Settings, s: State, a: nat, walk: Walk, leg: Leg, p: PostId)
    requires a in s.agents && s.agents[a] == Walking(walk, leg) && Over(s, p)
    ensures Over(AfterWalk(c, s, a, walk, leg), p)
  {
    assert Leaves(s.agents[a], p);
    NextWalkLeaves(c, walk.at, walk.rest, p);
  }

  lemma WorkOver(c: Settings, s: State, a: nat, job: Job, stage: Stage, drawn: seq<UserId>, p: PostId)
    requires a in s.agents && s.agents[a] == Working(job, stage) && Over(s, p)
    ensures Over(AfterWork(c, s, a, job, stage, drawn), p) && NobodyGains(s, AfterWork(c, s, a, job, stage, drawn), p)
  {
    assert Leaves(s.agents[a], p);
    var t := AfterWork(c, s, a, job, stage, drawn);
    assert Leaves(t.agents[a], p);
  }

  lemma ProceedOver(c: Settings, s: State, a: nat, drawn: seq<UserId>, p: PostId)
    requires CanProceed(c, s, a, drawn) && Over(s, p)
    ensures Over(AfterProceed(c, s, a, drawn), p) && NobodyGains(s, AfterProceed(c, s, a, drawn), p)
  {
    assert Leaves(s.agents[a], p);
    match s.agents[a]
    case Working(job, stage) => WorkOver(c, s, a, job, stage, drawn, p);
    case Walking(walk, leg) => WalkOver(c, s, a, walk, leg, p);
    case _ => RequestOver(c, s, a, drawn, p);
  }

  lemma SendingOver(c: Settings, s: State, a: nat, drawn: seq<UserId>, p: PostId)
    requires CanProceed(c, s, a, drawn) && Over(s, p) && s.agents[a].Sending?
    ensures Over(AfterProceed(c, s, a, drawn), p) && NobodyGains(s, AfterProceed(c, s, a, drawn), p)
  {
    assert Leaves(s.agents[a], p);
  }

  lemma RequestOver(c: Settings, s: State, a: nat, drawn: seq<UserId>, p: PostId)
    requires CanProceed(c, s, a, drawn) && Over(s, p) && !s.agents[a].Working? && !s.agents[a].Walking?
    ensures Over(AfterProceed(c, s, a, drawn), p) && NobodyGains(s, AfterProceed(c, s, a, drawn), p)
  {
    assert Leaves(s.agents[a], p);
    if s.agents[a].Sending? {
      SendingOver(c, s, a, drawn, p);
    } else {
      assert AfterProceed(c, s, a, drawn).books == s.books;
    }
  }

  lemma EventOver(c: Settings, s: State, e: Event, p: PostId)
    requires CanHappen(c, s, e) && Over(s, p)
    ensures Over(AfterEvent(c, s, e), p) && NobodyGains(s, AfterEvent(c, s, e), p)
  {
    if e.ClaimPost? {
      forall u: UserId ensures p in QueueOf(Claimed(s.feed, e.u, e.p, c.maxSlots), u) ==> p in QueueOf(s.feed, u) {
        TakenOutGains(s.feed, e.u, e.p, c.maxSlots, p, u);
      }
    }
  }

  /** Once that is so the post is never handed to anyone again, whatever runs on. */
  lemma {:induction false} ErasedPostIsOver(c: Settings, s: State, steps: seq<Step>, t: State, p: PostId)
    requires Leads(c, s, steps, t) && Over(s, p)
    ensures Over(t, p) && NobodyGains(s, t, p)
    decreases |steps|
  {
    if steps != [] {
      match steps[0] {
        case Begin(a, o) => BeginOver(c, s, a, o, p);
        case Proceed(a, drawn) => ProceedOver(c, s, a, drawn, p);
        case Happen(e) => EventOver(c, s, e, p);
      }
      ErasedPostIsOver(c, After(c, s, steps[0]), steps[1..], t, p);
    }
  }

  /** A max-age after its erasure that is so, if no entry of the post is left on the stream, no
      agent is at work on one, and what waits in the retry set was first parked before. */
  lemma OverAfterMaxAge(c: Settings, s: State, p: PostId, steps: seq<Step>, t: State)
    requires p < s.nextPost && Leads(c, AfterEvent(c, s, ErasePost(p)), steps, t) && s.now + c.retryMaxAge <= t.now
    requires forall e :: e in t.books.stream ==> t.books.stream[e].op.post != p
    requires forall a :: a in t.agents ==> Leaves(t.agents[a], p)
    requires forall m :: m in t.books.retry ==> PastDue(t.books.retry[m].copy.op, p, s.now + c.retryMaxAge)
    ensures Over(t, p)
  {
    RunBuries(c, AfterEvent(c, s, ErasePost(p)), steps, t, p, s.now + c.retryMaxAge);
    forall m | m in t.books.retry ensures Hopeless(t.books.retry[m], p, t.now) {
      assert PastDue(t.books.retry[m].copy.op, p, s.now + c.retryMaxAge);
    }
  }

  // ----- what chases it can catch it -----

  /** Some run from `s` leads to `t`. */
  ghost predicate Onward(c: Settings, s: State, t: State) {
    exists steps :: Leads(c, s, steps, t)
  }

  lemma OnwardStays(c: Settings, s: State)
    ensures Onward(c, s, s)
  {
    assert Leads(c, s, [], s);
  }

  lemma OnwardOneMore(c: Settings, s: State, t: State, step: Step)
    requires Onward(c, s, t) && Enabled(c, t, step)
    ensures Onward(c, s, After(c, t, step))
  {
    var steps :| Leads(c, s, steps, t);
    LeadsOneMore(c, s, steps, t, step);
  }

  lemma OnwardThen(c: Settings, s: State, u: State, t: State)
    requires Onward(c, s, u) && Onward(c, u, t)
    ensures Onward(c, s, t)
  {
    var steps :| Leads(c, s, steps, u);
    OnwardAfter(c, s, steps, u, t);
  }

  lemma {:induction false} OnwardAfter(c: Settings, s: State, steps: seq<Step>, u: State, t: State)
    requires Leads(c, s, steps, u) && Onward(c, u, t)
    ensures Onward(c, s, t)
    decreases |steps|
  {
    if steps != [] {
      OnwardAfter(c, After(c, s, steps[0]), steps[1..], u, t);
      var rest :| Leads(c, After(c, s, steps[0]), rest, t);
      assert ([steps[0]] + rest)[1..] == rest;
      assert Leads(c, s, [steps[0]] + rest, t);
    }
  }

  /** Entry `e` can still be handed to a consumer. */
  predicate Fetchable(b: Books, e: nat) {
    e in b.stream && (e in b.pending || b.cursor <= e)
  }

  /** What fetching leaves alone. */
  predicate SameSurroundings(s: State, t: State) {
    t.feed == s.feed && t.audience == s.audience && t.tombs == s.tombs && t.now == s.now
  }

  lemma LeastUnread(stream: map<nat, Copy>, cursor: nat, e: nat) returns (x: nat)
    requires e in stream && cursor <= e
    ensures x in stream && cursor <= x <= e && forall y :: y in stream && cursor <= y ==> x <= y
    decreases e - cursor
  {
    if cursor in stream {
      x := cursor;
    } else {
      x := LeastUnread(stream, cursor + 1, e);
    }
  }

  function TakenUp(s: State, a: nat, e: nat): map<nat, Pc>
    requires e in s.books.stream
  {
    s.agents[a := Working(Job(e, s.books.stream[e], []), CheckingErased)]
  }

  lemma ReadsNext(c: Settings, s: State, a: nat, x: nat) returns (t: State)
    requires CanBegin(c, s, a, Read(x))
    ensures Onward(c, s, t) && SameSurroundings(s, t) && t.agents == TakenUp(s, a, x)
    ensures t.books.stream == s.books.stream && t.books.cursor == x + 1
  {
    OnwardStays(c, s);
    OnwardOneMore(c, s, s, Begin(a, Read(x)));
    t := After(c, s, Begin(a, Read(x)));
    assert [(x, s.books.stream[x])][1..] == [];
  }

  lemma TakesOver(c: Settings, s: State, a: nat, e: nat) returns (t: State)
    requires a in s.agents && s.agents[a].Idle? && e in s.books.stream && e in s.books.pending
    ensures Onward(c, s, t) && SameSurroundings(s, t) && t.agents == TakenUp(s, a, e)
  {
    OnwardStays(c, s);
    assert CanBegin(c, s, a, Reclaim([e]));
    OnwardOneMore(c, s, s, Begin(a, Reclaim([e])));
    t := After(c, s, Begin(a, Reclaim([e])));
    assert ClaimedBatch(s.books.stream, [e]) == [(e, s.books.stream[e])] && [(e, s.books.stream[e])][1..] == [];
  }

  lemma Crashes(c: Settings, s: State, u: State, a: nat) returns (t: State)
    requires Onward(c, s, u) && a in u.agents
    ensures Onward(c, s, t) && SameSurroundings(u, t) && t.agents == u.agents[a := Idle] && t.books == u.books
  {
    OnwardOneMore(c, s, u, Happen(Crash(a)));
    t := After(c, u, Happen(Crash(a)));
  }

  /** Taking over or reading on, a worker gets the entry, crashing over others if it must. */
  lemma {:induction false} Fetch(c: Settings, s: State, a: nat, e: nat) returns (t: State)
    requires a in s.agents && s.agents[a].Idle? && Fetchable(s.books, e)
    ensures Onward(c, s, t) && SameSurroundings(s, t) && t.agents == TakenUp(s, a, e)
    decreases e - s.books.cursor
  {
    if e in s.books.pending {
      t := TakesOver(c, s, a, e);
    } else {
      var x := LeastUnread(s.books.stream, s.books.cursor, e);
      t := ReadsNext(c, s, a, x);
      if x != e {
        var v := Crashes(c, s, t, a);
        t := Fetch(c, v, a, e);
        OnwardThen(c, s, v, t);
        assert TakenUp(v, a, e) == TakenUp(s, a, e);
      }
    }
  }

  lemma {:induction false} AboveAll(s: set<nat>) returns (u: nat)
    ensures forall x :: x in s ==> x < u
    decreases |s|
  {
    if s == {} {
      u := 0;
    } else {
      var x :| x in s;
      var v := AboveAll(s - {x});
      u := if v > x then v else x + 1;
      assert forall y :: y in s ==> y == x || y in s - {x};
    }
  }

  /** A reader nobody has queued, served or named. */
  lemma NewReader(s: State, op: Op) returns (u: UserId)
    ensures QueueOf(s.feed, u) == [] && u !in SeenOf(s.feed, op.post) && op.author != Some(u)
  {
    var authors: set<nat> := if op.author.Some? then {op.author.value} else {};
    u := AboveAll(s.feed.queues.Keys + SeenOf(s.feed, op.post) + authors);
  }

  lemma Occurs(c: Settings, s: State, u: State, e: Event) returns (t: State)
    requires Onward(c, s, u) && CanHappen(c, u, e)
    ensures Onward(c, s, t) && t == AfterEvent(c, u, e)
  {
    OnwardOneMore(c, s, u, Happen(e));
    t := AfterEvent(c, u, e);
  }

  lemma Unbury(c: Settings, s: State, p: PostId) returns (t: State)
    ensures Onward(c, s, t) && p !in t.tombs
    ensures t.agents == s.agents && t.books == s.books && t.feed == s.feed
  {
    OnwardStays(c, s);
    t := s;
    if p in s.tombs {
      t := Occurs(c, s, t, Tick(if s.tombs[p] > s.now then s.tombs[p] - s.now else 0));
      t := Occurs(c, s, t, ExpireTomb(p));
    }
  }

  /** The tombstone goes, and the audience of the route is one new reader who is free. */
  lemma Clear(c: Settings, s: State, op: Op, u: UserId) returns (t: State)
    requires c.maxSlots >= 1 && QueueOf(s.feed, u) == []
    ensures Onward(c, s, t) && t.agents == s.agents && t.books == s.books
    ensures op.post !in t.tombs && AudienceOf(t, op.route) == {u} && u in t.feed.free
    ensures t.feed.queues == s.feed.queues && t.feed.seen == s.feed.seen
  {
    t := Unbury(c, s, op.post);
    t := Occurs(c, s, t, SetAudience(Audience(op.route), {u}));
    t := Occurs(c, s, t, MakeFree(u));
  }

  /** A worker pass then hands the post to that reader. */
  lemma PassServes(c: Settings, s: State, a: nat, job: Job, u: UserId) returns (t: State)
    requires ValidSettings(c) && a in s.agents && s.agents[a] == Working(job, CheckingErased)
    requires job.copy.op.post !in s.tombs && AudienceOf(s, job.copy.op.route) == {u} && u in s.feed.free
    requires QueueOf(s.feed, u) == [] && u !in SeenOf(s.feed, job.copy.op.post) && job.copy.op.author != Some(u)
    ensures Onward(c, s, t) && job.copy.op.post in QueueOf(t.feed, u)
  {
    var op := job.copy.op;
    assert Reach(c, op) * c.sampleMultiplier >= 1;
    assert ValidDraw(c, s, op, [u]);
    var served;
    t, served := W.PassIsOneCall(c, s, a, job, [u]);
    W.IsAlone(c, s, a, t);
    assert F.Eligible(c, {u}, s.feed, op) == {u};
    assert |served| == 1 && served[0] in F.Members(served);
    assert F.QueuedFor(c, s.feed, t.feed, op.post, served);
    assert u in served;
  }

  /** As long as an entry of it is on the stream, a post can be handed out again. */
  lemma EntryCanLand(c: Settings, s: State, a: nat, e: nat) returns (t: State, u: UserId)
    requires ValidSettings(c) && a in s.agents && s.agents[a].Idle? && Fetchable(s.books, e)
    ensures Onward(c, s, t)
    ensures s.books.stream[e].op.post !in QueueOf(s.feed, u) && s.books.stream[e].op.post in QueueOf(t.feed, u)
  {
    var op := s.books.stream[e].op;
    u := NewReader(s, op);
    var v := Clear(c, s, op, u);
    var w := Fetch(c, v, a, e);
    OnwardThen(c, s, v, w);
    t := PassServes(c, w, a, Job(e, s.books.stream[e], []), u);
    OnwardThen(c, s, w, t);
  }

  /** A due retry in time is put back on the stream, and the worker crashes over the rest. */
  lemma Returns(c: Settings, s: State, a: nat, m: nat) returns (t: State)
    requires a in s.agents && s.agents[a].Idle? && m in s.books.retry && s.books.retry[m].due <= s.now
    requires var op := s.books.retry[m].copy.op; op.expires.None? || op.expires.value > s.now
    ensures Onward(c, s, t) && t.feed == s.feed && t.agents == s.agents && t.books.cursor == s.books.cursor
    ensures s.books.nextEntry in t.books.stream
    ensures t.books.stream[s.books.nextEntry].op.post == s.books.retry[m].copy.op.post
  {
    var u := Scanned(c, s, a, m);
    t := PutBack(c, u, a);
    OnwardThen(c, s, u, t);
    assert t.agents == s.agents;
  }

  lemma Scanned(c: Settings, s: State, a: nat, m: nat) returns (t: State)
    requires a in s.agents && s.agents[a].Idle? && m in s.books.retry && s.books.retry[m].due <= s.now
    requires var op := s.books.retry[m].copy.op; op.expires.None? || op.expires.value > s.now
    ensures Onward(c, s, t) && t.feed == s.feed && t.books == s.books && a in t.agents && t.agents == s.agents[a := t.agents[a]]
    ensures t.agents[a].Walking? && t.agents[a].leg.AddingBack? && t.agents[a].walk.copy.op.post == s.books.retry[m].copy.op.post
  {
    OnwardStays(c, s);
    OnwardOneMore(c, s, s, Begin(a, Scan([m])));
    t := After(c, s, Begin(a, Scan([m])));
    assert t.agents[a] == NextWalk(c, s.now, DueBatch(s.books.retry, [m]));
  }

  lemma PutBack(c: Settings, s: State, a: nat) returns (t: State)
    requires a in s.agents && s.agents[a].Walking? && s.agents[a].leg.AddingBack?
    ensures Onward(c, s, t) && t.feed == s.feed && t.agents == s.agents[a := Idle] && t.books.cursor == s.books.cursor
    ensures s.books.nextEntry in t.books.stream
    ensures t.books.stream[s.books.nextEntry].op.post == s.agents[a].walk.copy.op.post
  {
    OnwardStays(c, s);
    OnwardOneMore(c, s, s, Proceed(a, []));
    var u := After(c, s, Proceed(a, []));
    t := Crashes(c, s, u, a);
  }

  /** And as long as a retry of it can come due in time. */
  lemma RetryCanReturn(c: Settings, s: State, a: nat, m: nat) returns (t: State, e: nat)
    requires a in s.agents && s.agents[a].Idle? && m in s.books.retry && s.books.cursor <= s.books.nextEntry
    requires
      var op := s.books.retry[m].copy.op;
      op.expires.None? || (op.expires.value > s.now && op.expires.value > s.books.retry[m].due)
    ensures Onward(c, s, t) && t.feed == s.feed && t.agents == s.agents && Fetchable(t.books, e)
    ensures t.books.stream[e].op.post == s.books.retry[m].copy.op.post
  {
    var wait := if s.books.retry[m].due > s.now then s.books.retry[m].due - s.now else 0;
    OnwardStays(c, s);
    OnwardOneMore(c, s, s, Happen(Tick(wait)));
    var u := After(c, s, Happen(Tick(wait)));
    t := Returns(c, u, a, m);
    e := s.books.nextEntry;
    OnwardThen(c, s, u, t);
  }

  lemma EntriesAreFetchable(c: Settings, s: State)
    requires Reachable(c, s)
    ensures s.books.cursor <= s.books.nextEntry && forall e :: e in s.books.stream ==> Fetchable(s.books, e)
  {
    var i, steps :| Init(i) && Leads(c, i, steps, s);
    N.RunKeeps(c, i, steps, s);
  }

  /** Some run from here hands the post to a reader who does not have it. */
  ghost predicate CanLand(c: Settings, s: State, p: PostId) {
    exists t, u :: Onward(c, s, t) && p !in QueueOf(s.feed, u) && p in QueueOf(t.feed, u)
  }

  /** Exactly what still chases an erased post: between requests it can be handed out again if and
      only if an entry of it is on the stream, or a retry of it is due before its deadline and
      that has not passed. */
  lemma ChasedExactly(c: Settings, s: State, a: nat, p: PostId)
    requires ValidSettings(c) && Reachable(c, s) && p < s.nextPost && p !in s.posts
    requires a in s.agents && forall b :: b in s.agents ==> s.agents[b].Idle?
    ensures CanLand(c, s, p) <==>
              || (exists e :: e in s.books.stream && s.books.stream[e].op.post == p)
              || exists m ::
                   && m in s.books.retry && s.books.retry[m].copy.op.post == p
                   && var expires := s.books.retry[m].copy.op.expires;
                      expires.None? || (expires.value > s.now && expires.value > s.books.retry[m].due)
  {
    EntriesAreFetchable(c, s);
    if e :| e in s.books.stream && s.books.stream[e].op.post == p {
      var t, u := EntryCanLand(c, s, a, e);
      assert CanLand(c, s, p);
    } else if m :| m in s.books.retry && !Hopeless(s.books.retry[m], p, s.now) {
      var v, e := RetryCanReturn(c, s, a, m);
      var t, u := EntryCanLand(c, v, a, e);
      OnwardThen(c, s, v, t);
      assert CanLand(c, s, p);
    } else {
      assert Over(s, p);
      if CanLand(c, s, p) {
        var t, u :| Onward(c, s, t) && p !in QueueOf(s.feed, u) && p in QueueOf(t.feed, u);
        var steps :| Leads(c, s, steps, t);
        ErasedPostIsOver(c, s, steps, t, p);
      }
    }
  }
}
