/** Building runs of the machine: single commands and the short sequences that witnesses are
    made of, each with what it changes and what it leaves. */
module Runs {
  import opened FeedTypes
  import opened FeedScripts
  import opened FeedMachine

  // ----- single steps -----

  /** True of every number; it only gives the quantifier below something to wait for. */
  predicate Named(n: nat) {
    n == n
  }

  /** The same as `Reachable` (`IsReachable`), but folded: the verifier opens the definition only
      where some `Named(n)` is mentioned, so how a state was reached does not burden the proofs
      of later steps, to which it does not matter. */
  ghost predicate Reached(c: Settings, t: State) {
    forall n: nat :: Named(n) ==> Reachable(c, t)
  }

  lemma IsReachable(c: Settings, t: State)
    ensures Reached(c, t) <==> Reachable(c, t)
  {
    assert Named(0);
  }

  lemma ReachedOneMore(c: Settings, s: State, step: Step)
    requires Reached(c, s) && Enabled(c, s, step)
    ensures Reached(c, After(c, s, step))
  {
    IsReachable(c, s);
    ReachOneMore(c, s, step);
  }

  lemma Went(c: Settings, s: State, a: nat, drawn: seq<UserId>) returns (t: State)
    requires Reached(c, s) && CanProceed(c, s, a, drawn)
    ensures Reached(c, t) && t == AfterProceed(c, s, a, drawn)
  {
    ReachedOneMore(c, s, Proceed(a, drawn));
    t := AfterProceed(c, s, a, drawn);
  }

  lemma Began(c: Settings, s: State, a: nat, o: Opening) returns (t: State)
    requires Reached(c, s) && CanBegin(c, s, a, o)
    ensures Reached(c, t) && t == AfterBegin(c, s, a, o)
  {
    ReachedOneMore(c, s, Begin(a, o));
    t := AfterBegin(c, s, a, o);
  }

  lemma Happened(c: Settings, s: State, e: Event) returns (t: State)
    requires Reached(c, s) && CanHappen(c, s, e)
    ensures Reached(c, t) && t == AfterEvent(c, s, e)
  {
    ReachedOneMore(c, s, Happen(e));
    t := AfterEvent(c, s, e);
  }

  // ----- starting -----

  function Below(w: nat): (r: set<nat>)
    ensures |r| == w && forall a :: a in r <==> 0 <= a < w
  {
    if w == 0 then {} else Below(w - 1) + {w - 1}
  }

  function StartWith(w: nat): State {
    State(0, Books(map[], 0, 0, {}, map[], 0, map[], map[]), Feed(map[], {}, map[], map[]),
          map[], map[], map[], map[], 0, map a | a in Below(w) :: Idle,
          Log(map[], map[], {}, {}, map[], map[]), Trace({}, {}, map[], map[], {}, map[], {}))
  }

  lemma StartReachable(c: Settings, w: nat)
    requires w >= 1
    ensures Reached(c, StartWith(w))
  {
    var s := StartWith(w);
    assert s.agents.Keys == Below(w);
    assert |s.agents| == |s.agents.Keys|;
    assert Init(s) && Leads(c, s, [], s);
    IsReachable(c, s);
  }

  // ----- what short sequences leave alone -----

  /** The same clock, audiences, tombstones, queues and deliveries. */
  predicate SameFeed(s: State, t: State) {
    t.now == s.now && t.audience == s.audience && t.tombs == s.tombs && t.feed == s.feed && t.log == s.log
  }

  predicate SameRows(s: State, t: State) {
    t.posts == s.posts && t.nextPost == s.nextPost
  }

  /** Nothing has changed but the stream, the retry set and agents. */
  predicate OnlyBooks(s: State, t: State) {
    SameFeed(s, t) && SameRows(s, t) && t.outstanding == s.outstanding
  }

  predicate Moved(s: State, t: State, a: nat, pc: Pc) {
    a in s.agents && t.agents == s.agents[a := pc]
  }

  lemma MovedOn(s: State, u: State, t: State, a: nat, pc: Pc, next: Pc)
    requires Moved(s, u, a, pc) && Moved(u, t, a, next)
    ensures Moved(s, t, a, next)
  {
  }

  /** The route of the posts in these runs, and their author. */
  const ROUTE := Route(0, UNSPECIFIED)

  const AUTHOR: UserId := 1

  function Written(p: PostId): Op {
    Op(p, ROUTE, Some(AUTHOR), None, None)
  }

  // ----- requests -----

  lemma Added(c: Settings, s: State, a: nat, op: Op) returns (t: State)
    requires Reached(c, s) && a in s.agents && s.agents[a] == Sending(op)
    ensures Reached(c, t) && OnlyBooks(s, t)
    ensures Moved(s, t, a, Counting(op.route, s.books.nextEntry)) && t.books == MintedIn(s.books, op)
  {
    t := Went(c, s, a, []);
  }

  lemma Counted(c: Settings, s: State, a: nat, r: Route, id: nat) returns (t: State)
    requires Reached(c, s) && a in s.agents && s.agents[a] == Counting(r, id)
    ensures Reached(c, t) && SameFeed(s, t) && SameRows(s, t) && t.books == s.books
    ensures Moved(s, t, a, Idle) && t.outstanding == s.outstanding[r := CountOf(s.outstanding, r) + 1]
  {
    t := Went(c, s, a, []);
  }

  /** XADD, then the count. */
  lemma Sent(c: Settings, s: State, a: nat, op: Op) returns (t: State)
    requires Reached(c, s) && a in s.agents && s.agents[a] == Sending(op)
    ensures Reached(c, t) && SameFeed(s, t) && SameRows(s, t) && Moved(s, t, a, Idle)
    ensures t.books == MintedIn(s.books, op)
    ensures t.outstanding == s.outstanding[op.route := CountOf(s.outstanding, op.route) + 1]
  {
    var u := Added(c, s, a, op);
    t := Counted(c, u, a, op.route, s.books.nextEntry);
    MovedOn(s, u, t, a, Counting(op.route, s.books.nextEntry), Idle);
  }

  lemma RowAdded(c: Settings, s: State, a: nat) returns (t: State)
    requires Reached(c, s) && a in s.agents && s.agents[a] == Idle
    ensures Reached(c, t) && SameFeed(s, t) && Moved(s, t, a, Sending(Written(s.nextPost)))
    ensures t.nextPost == s.nextPost + 1 && t.posts == s.posts[s.nextPost := Row(ROUTE, Some(AUTHOR), false)]
    ensures t.books == s.books && t.outstanding == s.outstanding
  {
    t := Began(c, s, a, Publish(AUTHOR, ROUTE));
  }

  /** A publication up to its XADD. */
  lemma PublishedUncounted(c: Settings, s: State, a: nat) returns (t: State)
    requires Reached(c, s) && a in s.agents && s.agents[a] == Idle
    ensures Reached(c, t) && SameFeed(s, t) && t.nextPost == s.nextPost + 1
    ensures Moved(s, t, a, Counting(ROUTE, s.books.nextEntry))
    ensures t.books == MintedIn(s.books, Written(s.nextPost)) && t.outstanding == s.outstanding
  {
    var u := RowAdded(c, s, a);
    t := Added(c, u, a, Written(s.nextPost));
    MovedOn(s, u, t, a, Sending(Written(s.nextPost)), Counting(ROUTE, s.books.nextEntry));
  }

  lemma Published(c: Settings, s: State, a: nat) returns (t: State)
    requires Reached(c, s) && a in s.agents && s.agents[a] == Idle
    ensures Reached(c, t) && SameFeed(s, t) && Moved(s, t, a, Idle)
    ensures t.nextPost == s.nextPost + 1 && t.posts == s.posts[s.nextPost := Row(ROUTE, Some(AUTHOR), false)]
    ensures t.books == MintedIn(s.books, Written(s.nextPost))
    ensures t.outstanding == s.outstanding[ROUTE := CountOf(s.outstanding, ROUTE) + 1]
  {
    var u := RowAdded(c, s, a);
    t := Sent(c, u, a, Written(s.nextPost));
    MovedOn(s, u, t, a, Sending(Written(s.nextPost)), Idle);
  }

  // ----- a consumer on one entry -----

  lemma TakenUp(c: Settings, s: State, a: nat, e: nat, k: Copy) returns (t: State)
    requires Reached(c, s) && CanBegin(c, s, a, Read(e)) && s.books.stream[e] == k
    ensures Reached(c, t) && OnlyBooks(s, t)
    ensures Moved(s, t, a, Working(Job(e, k, []), CheckingErased)) && t.books == ReadIn(s.books, e)
  {
    t := Began(c, s, a, Read(e));
    assert [(e, k)][1..] == [];
  }

  lemma ReadOn(c: Settings, s: State, a: nat, job: Job, stage: Stage, drawn: seq<UserId>) returns (t: State)
    requires Reached(c, s) && a in s.agents && s.agents[a] == Working(job, stage) && OnlyReads(stage)
    requires stage.Sampling? ==> ValidDraw(c, s, job.copy.op, drawn)
    ensures Reached(c, t) && OnlyBooks(s, t) && t.books == s.books
    ensures Moved(s, t, a, Working(job, StageAfter(c, s, job.copy.op, stage, drawn)))
  {
    t := Went(c, s, a, drawn);
  }

  lemma Deleted(c: Settings, s: State, a: nat, job: Job) returns (t: State)
    requires Reached(c, s) && a in s.agents && s.agents[a] == Working(job, Deleting)
    ensures Reached(c, t) && OnlyBooks(s, t)
    ensures Moved(s, t, a, Working(job, Acking)) && t.books == DeletedIn(s.books, job.entry)
  {
    t := Went(c, s, a, []);
  }

  lemma Acked(c: Settings, s: State, a: nat, job: Job) returns (t: State)
    requires Reached(c, s) && a in s.agents && s.agents[a] == Working(job, Acking) && job.rest == []
    ensures Reached(c, t) && OnlyBooks(s, t)
    ensures Moved(s, t, a, Idle) && t.books == AckedIn(s.books, job.entry)
  {
    t := Went(c, s, a, []);
  }

  lemma Closed(c: Settings, s: State, a: nat, job: Job) returns (t: State)
    requires Reached(c, s) && a in s.agents && s.agents[a] == Working(job, Deleting) && job.rest == []
    ensures Reached(c, t) && OnlyBooks(s, t)
    ensures Moved(s, t, a, Idle) && t.books == AckedIn(DeletedIn(s.books, job.entry), job.entry)
  {
    var u := Deleted(c, s, a, job);
    t := Acked(c, u, a, job);
    MovedOn(s, u, t, a, Working(job, Acking), Idle);
  }

  lemma Ended(c: Settings, s: State, a: nat, job: Job, outcome: Outcome) returns (t: State)
    requires Reached(c, s) && a in s.agents && s.agents[a] == Working(job, Retiring(outcome))
    ensures Reached(c, t) && SameFeed(s, t) && SameRows(s, t) && Moved(s, t, a, Working(job, Deleting))
    ensures t.books == EndedIn(s.books, job.copy.id, outcome)
    ensures t.outstanding == RetireIn(s, job.copy.op.route, job.copy.id).outstanding
  {
    t := Went(c, s, a, []);
  }

  lemma WasParked(c: Settings, s: State, a: nat, job: Job, at: int) returns (t: State)
    requires Reached(c, s) && a in s.agents && s.agents[a] == Working(job, Parking(at))
    ensures Reached(c, t) && OnlyBooks(s, t)
    ensures Moved(s, t, a, Working(job, Deleting))
    ensures t.books == ParkedIn(s.books, ParkedCopy(c, job.copy, at), at + c.retryInterval)
  {
    t := Went(c, s, a, []);
  }

  /** The operation of an erased post is given up. */
  lemma Abandoned(c: Settings, s: State, a: nat, job: Job) returns (t: State)
    requires Reached(c, s) && a in s.agents && s.agents[a] == Working(job, CheckingErased) && job.copy.op.post in s.tombs
    ensures Reached(c, t) && SameFeed(s, t) && SameRows(s, t) && Moved(s, t, a, Working(job, Deleting))
    ensures t.books == EndedIn(s.books, job.copy.id, Erased)
    ensures t.outstanding == RetireIn(s, job.copy.op.route, job.copy.id).outstanding
  {
    var u := ReadOn(c, s, a, job, CheckingErased, []);
    t := Ended(c, u, a, job, Erased);
    MovedOn(s, u, t, a, Working(job, Retiring(Erased)), Working(job, Deleting));
  }

  lemma StagesForNobody(c: Settings, s: State, op: Op)
    requires op.post !in s.tombs && AudienceOf(s, op.route) == {}
    ensures ValidDraw(c, s, op, [])
    ensures StageAfter(c, s, op, CheckingErased, []) == Sampling
    ensures StageAfter(c, s, op, Sampling, []) == NothingLanded(c, s.now)
    ensures StageAfter(c, s, op, SizingAudience, []) == Parking(s.now)
  {
  }

  lemma FoundNobody(c: Settings, s: State, a: nat, job: Job) returns (t: State)
    requires Reached(c, s) && a in s.agents && s.agents[a] == Working(job, CheckingErased)
    requires job.copy.op.post !in s.tombs && AudienceOf(s, job.copy.op.route) == {}
    ensures Reached(c, t) && OnlyBooks(s, t) && t.books == s.books
    ensures Moved(s, t, a, Working(job, NothingLanded(c, s.now)))
  {
    StagesForNobody(c, s, job.copy.op);
    var u := ReadOn(c, s, a, job, CheckingErased, []);
    StagesForNobody(c, u, job.copy.op);
    t := ReadOn(c, u, a, job, Sampling, []);
    MovedOn(s, u, t, a, Working(job, Sampling), Working(job, NothingLanded(c, s.now)));
  }

  lemma MustPark(c: Settings, s: State, a: nat, job: Job) returns (t: State)
    requires Reached(c, s) && a in s.agents && s.agents[a] == Working(job, CheckingErased)
    requires job.copy.op.post !in s.tombs && AudienceOf(s, job.copy.op.route) == {}
    ensures Reached(c, t) && OnlyBooks(s, t) && t.books == s.books
    ensures Moved(s, t, a, Working(job, Parking(s.now)))
  {
    t := FoundNobody(c, s, a, job);
    if c.excludeSeen || c.excludeOwn {
      StagesForNobody(c, t, job.copy.op);
      var u := t;
      t := ReadOn(c, u, a, job, SizingAudience, []);
      MovedOn(s, u, t, a, Working(job, SizingAudience), Working(job, Parking(s.now)));
    }
  }

  /** Into the retry set, and off the stream. */
  function SetAside(c: Settings, b: Books, job: Job, at: int): Books {
    AckedIn(DeletedIn(ParkedIn(b, ParkedCopy(c, job.copy, at), at + c.retryInterval), job.entry), job.entry)
  }

  lemma ParkedAndClosed(c: Settings, s: State, a: nat, job: Job, at: int) returns (t: State)
    requires Reached(c, s) && a in s.agents && s.agents[a] == Working(job, Parking(at)) && job.rest == []
    ensures Reached(c, t) && OnlyBooks(s, t)
    ensures Moved(s, t, a, Idle) && t.books == SetAside(c, s.books, job, at)
  {
    var v := WasParked(c, s, a, job, at);
    t := Closed(c, v, a, job);
    MovedOn(s, v, t, a, Working(job, Deleting), Idle);
  }

  /** With nobody in the audience the operation is parked. */
  lemma ParkedForNobody(c: Settings, s: State, a: nat, job: Job) returns (t: State)
    requires Reached(c, s) && a in s.agents && s.agents[a] == Working(job, CheckingErased) && job.rest == []
    requires job.copy.op.post !in s.tombs && AudienceOf(s, job.copy.op.route) == {}
    ensures Reached(c, t) && OnlyBooks(s, t) && Moved(s, t, a, Idle)
    ensures t.books == SetAside(c, s.books, job, s.now)
  {
    var u := MustPark(c, s, a, job);
    t := ParkedAndClosed(c, u, a, job, s.now);
    MovedOn(s, u, t, a, Working(job, Parking(s.now)), Idle);
  }

  // ----- delivering to reader 0 -----

  /** Reader 0 is the audience, nothing is erased, and every entry has been read. */
  predicate Calm(t: State) {
    && t.tombs == map[] && AudienceOf(t, ROUTE) == {0}
    && t.books.cursor == t.books.nextEntry && forall e :: e in t.books.stream ==> e < t.books.nextEntry
  }

  lemma Selects(c: Settings, s: State, p: PostId)
    requires AudienceOf(s, ROUTE) == {0} && 0 in s.feed.free && 0 !in SeenOf(s.feed, p) && c.sampleMultiplier >= 1
    ensures ValidDraw(c, s, Written(p), [0])
    ensures StageAfter(c, s, Written(p), Sampling, [0]) == FilteringFree([0])
    ensures StageAfter(c, s, Written(p), FilteringFree([0]), []) == if c.excludeSeen then FilteringSeen([0]) else Placing([0], None)
    ensures StageAfter(c, s, Written(p), FilteringSeen([0]), []) == Placing([0], None)
  {
    assert Reach(c, Written(p)) * c.sampleMultiplier >= 1;
    assert [0][1..] == [];
  }

  /** A worker with the operation in hand selects reader 0. */
  lemma Selected(c: Settings, s: State, a: nat, job: Job, p: PostId) returns (t: State)
    requires ValidSettings(c) && Reached(c, s) && Calm(s) && a in s.agents && s.agents[a] == Working(job, CheckingErased)
    requires job.copy.op == Written(p) && 0 in s.feed.free && 0 !in SeenOf(s.feed, p)
    ensures Reached(c, t) && SameFeed(s, t) && SameRows(s, t) && t.books == s.books
    ensures Moved(s, t, a, Working(job, Placing([0], None)))
  {
    Selects(c, s, p);
    var u := ReadOn(c, s, a, job, CheckingErased, []);
    Selects(c, u, p);
    var v := ReadOn(c, u, a, job, Sampling, [0]);
    MovedOn(s, u, v, a, Working(job, Sampling), Working(job, FilteringFree([0])));
    t := Filtered(c, v, a, job, p);
    MovedOn(s, v, t, a, Working(job, FilteringFree([0])), Working(job, Placing([0], None)));
  }

  lemma Filtered(c: Settings, s: State, a: nat, job: Job, p: PostId) returns (t: State)
    requires ValidSettings(c) && Reached(c, s) && Calm(s) && a in s.agents && s.agents[a] == Working(job, FilteringFree([0]))
    requires job.copy.op == Written(p) && 0 in s.feed.free && 0 !in SeenOf(s.feed, p)
    ensures Reached(c, t) && SameFeed(s, t) && SameRows(s, t) && t.books == s.books
    ensures Moved(s, t, a, Working(job, Placing([0], None)))
  {
    Selects(c, s, p);
    t := ReadOn(c, s, a, job, FilteringFree([0]), []);
    if c.excludeSeen {
      var u := t;
      Selects(c, u, p);
      t := ReadOn(c, u, a, job, FilteringSeen([0]), []);
      MovedOn(s, u, t, a, Working(job, FilteringSeen([0])), Working(job, Placing([0], None)));
    }
  }

  lemma PublishedAndTaken(c: Settings, s: State, a: nat) returns (t: State, job: Job)
    requires Reached(c, s) && Calm(s) && a in s.agents && s.agents[a] == Idle
    ensures Reached(c, t) && Calm(t) && SameFeed(s, t)
    ensures t.nextPost == s.nextPost + 1 && t.posts == s.posts[s.nextPost := Row(ROUTE, Some(AUTHOR), false)]
    ensures Moved(s, t, a, Working(job, CheckingErased)) && job.rest == [] && job.copy.op == Written(s.nextPost)
  {
    var p, e := s.nextPost, s.books.nextEntry;
    var u := Published(c, s, a);
    job := Job(e, Copy(e, Written(p), 0), []);
    t := TakenUp(c, u, a, e, job.copy);
    MovedOn(s, u, t, a, Idle, Working(job, CheckingErased));
  }

  /** One agent publishes a post and, as a worker, selects reader 0 for it. */
  lemma Armed(c: Settings, s: State, a: nat) returns (t: State, job: Job)
    requires ValidSettings(c) && Reached(c, s) && Calm(s) && a in s.agents && s.agents[a] == Idle
    requires 0 in s.feed.free && 0 !in SeenOf(s.feed, s.nextPost)
    ensures Reached(c, t) && Calm(t) && SameFeed(s, t)
    ensures t.nextPost == s.nextPost + 1 && t.posts == s.posts[s.nextPost := Row(ROUTE, Some(AUTHOR), false)]
    ensures Moved(s, t, a, Working(job, Placing([0], None))) && job.rest == [] && job.copy.op == Written(s.nextPost)
  {
    var u;
    u, job := PublishedAndTaken(c, s, a);
    t := Selected(c, u, a, job, s.nextPost);
    MovedOn(s, u, t, a, Working(job, CheckingErased), Working(job, Placing([0], None)));
  }

  lemma Placed0(c: Settings, s: State, a: nat, job: Job) returns (t: State)
    requires Reached(c, s) && a in s.agents && s.agents[a] == Working(job, Placing([0], None))
    requires Pushes(s.feed, 0, job.copy.op.post, c.excludeSeen)
    ensures Reached(c, t) && SameRows(s, t) && t.now == s.now && t.audience == s.audience && t.tombs == s.tombs && t.books == s.books
    ensures Moved(s, t, a, Working(job, Retiring(Delivered(0))))
    ensures t.feed == PlaceIn(c, s, 0, job.copy.op.post).feed && t.log == PlaceIn(c, s, 0, job.copy.op.post).log
  {
    t := Went(c, s, a, []);
    assert [0][1..] == [];
  }

  /** The placement, and the end of the operation. */
  lemma Landed(c: Settings, s: State, a: nat, job: Job) returns (t: State)
    requires Reached(c, s) && Calm(s) && a in s.agents && s.agents[a] == Working(job, Placing([0], None)) && job.rest == []
    requires Pushes(s.feed, 0, job.copy.op.post, c.excludeSeen)
    ensures Reached(c, t) && Calm(t) && SameRows(s, t) && Moved(s, t, a, Idle) && t.now == s.now
    ensures t.feed == PlaceIn(c, s, 0, job.copy.op.post).feed && t.log == PlaceIn(c, s, 0, job.copy.op.post).log
  {
    var u := Placed0(c, s, a, job);
    var v := Ended(c, u, a, job, Delivered(0));
    MovedOn(s, u, v, a, Working(job, Retiring(Delivered(0))), Working(job, Deleting));
    t := Closed(c, v, a, job);
    MovedOn(s, v, t, a, Working(job, Deleting), Idle);
  }
}
