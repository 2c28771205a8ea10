/** Runs that show what the protocol does not promise, each built command by command: the
    queue bound is attained for every number of placers, a route's outstanding count drifts in
    two ways, and a stalled retry outlives the delivered-to set. */
module Witnesses {
  import opened FeedTypes
  import opened FeedScripts
  import opened FeedMachine
  import opened Outstanding
  import opened Runs

  // ----- the bound is attained -----

  /** Agent `a`, as a worker, is about to place post `p` for reader 0. */
  predicate AboutToPlace(pc: Pc, p: PostId) {
    pc.Working? && pc.stage == Placing([0], None) && pc.job.rest == [] && pc.job.copy.op == Written(p)
  }

  /** Agents from `done` up to `armed` have selected reader 0; the others are idle. */
  predicate Ranks(agents: map<nat, Pc>, w: nat, base: nat, done: nat, armed: nat) {
    && agents.Keys == Below(w) && done <= armed <= w
    && (forall a :: a in agents && done <= a < armed ==> AboutToPlace(agents[a], base + a))
    && (forall a :: a in agents && !(done <= a < armed) ==> agents[a] == Idle)
  }

  /** Reader 0 holds `queued` posts, is free below the slots, and posts from that number on are
      new to everyone. */
  ghost predicate Stocked(c: Settings, f: Feed, queued: nat) {
    && |QueueOf(f, 0)| == queued
    && (queued < c.maxSlots ==> 0 in f.free)
    && (forall p :: p in QueueOf(f, 0) ==> p < queued)
    && (forall p: PostId :: queued <= p ==> SeenOf(f, p) == {})
  }

  ghost predicate Filling(c: Settings, t: State, w: nat, base: nat, done: nat, armed: nat) {
    && Ranks(t.agents, w, base, done, armed) && Stocked(c, t.feed, base + done)
    && Calm(t) && t.nextPost == base + armed && t.log.probes == map[]
  }

  lemma RanksArm(agents: map<nat, Pc>, w: nat, base: nat, armed: nat, pc: Pc)
    requires Ranks(agents, w, base, 0, armed) && armed < w && AboutToPlace(pc, base + armed)
    ensures Ranks(agents[armed := pc], w, base, 0, armed + 1)
  {
    assert agents[armed := pc].Keys == agents.Keys;
  }

  lemma RanksLand(agents: map<nat, Pc>, w: nat, base: nat, done: nat, armed: nat)
    requires Ranks(agents, w, base, done, armed) && done < armed
    ensures Ranks(agents[done := Idle], w, base, done + 1, armed)
  {
    assert agents[done := Idle].Keys == agents.Keys;
  }

  /** The next agent publishes a post and, as a worker, finds reader 0 free for it. */
  lemma ArmOne(c: Settings, t: State, w: nat, base: nat, armed: nat) returns (t': State)
    requires ValidSettings(c) && Reached(c, t) && Filling(c, t, w, base, 0, armed) && armed < w && base < c.maxSlots
    ensures Reached(c, t') && Filling(c, t', w, base, 0, armed + 1)
  {
    assert armed in t.agents && t.agents[armed] == Idle;
    var job;
    t', job := Armed(c, t, armed);
    RanksArm(t.agents, w, base, armed, Working(job, Placing([0], None)));
  }

  lemma PlaceStocks(c: Settings, t: State, queued: nat)
    requires Stocked(c, t.feed, queued)
    ensures Pushes(t.feed, 0, queued, c.excludeSeen)
    ensures Stocked(c, PlaceIn(c, t, 0, queued).feed, queued + 1)
  {
    var f, g := t.feed, PlaceIn(c, t, 0, queued).feed;
    assert QueueOf(g, 0) == [queued] + QueueOf(f, 0);
    forall p: PostId | queued + 1 <= p ensures SeenOf(g, p) == {} {
      assert SeenOf(g, p) == SeenOf(f, p);
    }
  }

  lemma LandOne(c: Settings, t: State, w: nat, base: nat, done: nat, armed: nat) returns (t': State)
    requires Reached(c, t) && Filling(c, t, w, base, done, armed) && done < armed
    ensures Reached(c, t') && Filling(c, t', w, base, done + 1, armed)
  {
    assert done in t.agents && AboutToPlace(t.agents[done], base + done);
    PlaceStocks(c, t, base + done);
    t' := Landed(c, t, done, t.agents[done].job);
    RanksLand(t.agents, w, base, done, armed);
  }

  lemma StartFilling(c: Settings, w: nat) returns (t: State)
    requires ValidSettings(c) && w >= 1
    ensures Reached(c, t) && Filling(c, t, w, 0, 0, 0)
    ensures t.now == 0 && t.posts == map[] && t.feed == Feed(map[], {0}, map[], map[]) && t.log.served == map[] && t.log.erased == {}
  {
    StartReachable(c, w);
    assert StartWith(w).agents.Keys == Below(w);
    t := Happened(c, StartWith(w), SetAudience(Everyone(0), {0}));
    t := Happened(c, t, MakeFree(0));
  }

  lemma NextBase(c: Settings, t: State, w: nat, base: nat)
    requires w >= 1 && Filling(c, t, w, base, 1, 1)
    ensures Filling(c, t, w, base + 1, 0, 0)
  {
  }

  /** One agent alone fills the queue to any length below the slots. */
  lemma {:induction false} FillTo(c: Settings, w: nat, n: nat) returns (t: State)
    requires ValidSettings(c) && w >= 1 && n < c.maxSlots
    ensures Reached(c, t) && Filling(c, t, w, n, 0, 0)
    decreases n
  {
    if n == 0 {
      t := StartFilling(c, w);
    } else {
      t := FillTo(c, w, n - 1);
      t := ArmOne(c, t, w, n - 1, 0);
      t := LandOne(c, t, w, n - 1, 0, 1);
      NextBase(c, t, w, n - 1);
    }
  }

  lemma {:induction false} ArmAll(c: Settings, t: State, w: nat, base: nat, armed: nat) returns (t': State)
    requires ValidSettings(c) && Reached(c, t) && Filling(c, t, w, base, 0, armed) && base < c.maxSlots
    ensures Reached(c, t') && Filling(c, t', w, base, 0, w)
    decreases w - armed
  {
    if armed == w {
      t' := t;
    } else {
      t' := ArmOne(c, t, w, base, armed);
      t' := ArmAll(c, t', w, base, armed + 1);
    }
  }

  lemma {:induction false} LandAll(c: Settings, t: State, w: nat, base: nat, done: nat) returns (t': State)
    requires Reached(c, t) && Filling(c, t, w, base, done, w)
    ensures Reached(c, t') && Filling(c, t', w, base, w, w)
    decreases w - done
  {
    if done == w {
      t' := t;
    } else {
      t' := LandOne(c, t, w, base, done, w);
      t' := LandAll(c, t', w, base, done + 1);
    }
  }

  /** For every number W of concurrent workers and every slot count some run of publications and
      fan-outs fills a queue to slots - 1 + W: with two workers the cap is already exceeded. */
  lemma BoundIsAttained(c: Settings, w: nat) returns (t: State)
    requires ValidSettings(c) && w >= 1
    ensures Reachable(c, t) && |t.agents| == w && t.log.probes == map[]
    ensures |QueueOf(t.feed, 0)| == c.maxSlots - 1 + w
    ensures w >= 2 ==> |QueueOf(t.feed, 0)| > c.maxSlots
  {
    t := FillTo(c, w, c.maxSlots - 1);
    t := ArmAll(c, t, w, c.maxSlots - 1, 0);
    t := LandAll(c, t, w, c.maxSlots - 1, 0);
    assert |t.agents| == |t.agents.Keys|;
    IsReachable(c, t);
  }

  // ----- the outstanding count drifts upward -----

  /** Every agent idle, nothing on the stream, pending or parked. */
  predicate Quiet(t: State) {
    && (forall a :: a in t.agents ==> t.agents[a].Idle?)
    && t.books.stream == map[] && t.books.retry == map[] && t.books.pending == {}
  }

  lemma Erase(c: Settings, s: State, p: PostId) returns (t: State)
    requires Reached(c, s)
    ensures Reached(c, t) && p in t.tombs && t.tombs.Keys == s.tombs.Keys + {p}
    ensures t.books == s.books && t.agents == s.agents && t.outstanding == s.outstanding && t.now == s.now
    ensures t.nextPost == s.nextPost && t.audience == s.audience
  {
    t := Happened(c, s, ErasePost(p));
  }

  lemma Passed(c: Settings, s: State, d: nat) returns (t: State)
    requires Reached(c, s)
    ensures Reached(c, t) && t == s.(now := s.now + d)
  {
    t := Happened(c, s, Tick(d));
  }

  /** The count after a retire. */
  function Floored(n: int): int {
    if n <= 0 then n else n - 1
  }

  /** A worker takes up the entry of an erased post, gives the operation up and closes it. */
  lemma GivenUp(c: Settings, s: State, a: nat, e: nat) returns (t: State)
    requires Reached(c, s) && CanBegin(c, s, a, Read(e)) && s.books.stream[e].op.post in s.tombs
    ensures Reached(c, t) && Moved(s, t, a, Idle) && SameFeed(s, t)
    ensures t.books == AckedIn(DeletedIn(EndedIn(ReadIn(s.books, e), s.books.stream[e].id, Erased), e), e)
    ensures CountOf(t.outstanding, s.books.stream[e].op.route) == Floored(CountOf(s.outstanding, s.books.stream[e].op.route))
  {
    var k := s.books.stream[e];
    var job := Job(e, k, []);
    var u := TakenUp(c, s, a, e, k);
    var v := Abandoned(c, u, a, job);
    MovedOn(s, u, v, a, Working(job, CheckingErased), Working(job, Deleting));
    t := Closed(c, v, a, job);
    MovedOn(s, v, t, a, Working(job, Deleting), Idle);
  }

  lemma TwoAgents(c: Settings) returns (t: State)
    ensures Reached(c, t) && t == StartWith(2) && t.agents == map[0 := Idle, 1 := Idle]
  {
    StartReachable(c, 2);
    t := StartWith(2);
  }

  /** The operation of a post that was erased between its XADD and its count. */
  lemma ErasedUncounted(c: Settings) returns (t: State)
    ensures Reached(c, t) && t.agents == map[0 := Counting(ROUTE, 0), 1 := Idle] && 0 in t.tombs
    ensures t.books == MintedIn(StartWith(2).books, Written(0)) && t.outstanding == map[]
  {
    var s := TwoAgents(c);
    var u := PublishedUncounted(c, s, 0);
    t := Erase(c, u, 0);
  }

  /** A worker may retire an operation before the request that minted it has counted it: the
      count then stays at one with no operation left anywhere. */
  lemma CountsCanDrift(c: Settings) returns (t: State)
    ensures Reachable(c, t) && Quiet(t)
    ensures CountOf(t.outstanding, ROUTE) == 1 && LiveOn(t.books, ROUTE) == {}
  {
    var s := ErasedUncounted(c);
    var u := GivenUp(c, s, 1, 0);
    t := Counted(c, u, 0, ROUTE, 0);
    IsReachable(c, t);
  }

  // ----- the outstanding count drifts downward -----

  /** The operation of post 0 once it is parked, with nobody in its audience. */
  function Waits(c: Settings): Copy {
    ParkedCopy(c, Copy(0, Written(0), 0), 0)
  }

  function Returned(c: Settings): Copy {
    Waits(c).(hops := 1)
  }

  /** Post 0 is published into an empty channel, and its operation is parked at time 0. */
  lemma ParkedEarly(c: Settings) returns (t: State)
    ensures Reached(c, t) && t.agents == map[0 := Idle, 1 := Idle] && t.now == 0 && t.tombs == map[]
    ensures CountOf(t.outstanding, ROUTE) == 1 && t.nextPost == 1 && t.audience == map[]
    ensures t.books == Books(map[], 1, 1, {}, map[0 := Parked(Waits(c), c.retryInterval)], 1, map[0 := Written(0)], map[])
  {
    var s := TwoAgents(c);
    var u := Published(c, s, 0);
    var job := Job(0, Copy(0, Written(0), 0), []);
    var v := TakenUp(c, u, 1, 0, job.copy);
    t := ParkedForNobody(c, v, 1, job);
  }

  lemma Scanned(c: Settings, s: State, a: nat, m: nat) returns (t: State)
    requires Reached(c, s) && CanBegin(c, s, a, Scan([m]))
    ensures Reached(c, t) && t == Goto(s, a, NextWalk(c, s.now, [(m, s.books.retry[m].copy)]))
  {
    t := Began(c, s, a, Scan([m]));
    assert DueBatch(s.books.retry, [m]) == [(m, s.books.retry[m].copy)];
  }

  lemma AddedBack(c: Settings, s: State, a: nat, walk: Walk) returns (t: State)
    requires Reached(c, s) && a in s.agents && s.agents[a] == Walking(walk, AddingBack)
    ensures Reached(c, t) && t.agents == s.agents[a := Walking(walk, TakingOut)]
    ensures t.books == FeedMachine.Added(s.books, walk.copy.(hops := walk.copy.hops + 1))
    ensures OnlyBooks(s, t)
  {
    t := Went(c, s, a, []);
  }

  lemma TakenOut(c: Settings, s: State, a: nat, walk: Walk) returns (t: State)
    requires Reached(c, s) && a in s.agents && s.agents[a] == Walking(walk, TakingOut) && walk.rest == []
    ensures Reached(c, t) && t.agents == s.agents[a := Idle] && t.books == UnparkedIn(s.books, walk.member)
    ensures OnlyBooks(s, t)
  {
    t := Went(c, s, a, []);
  }

  function OnceDue(c: Settings): Walk {
    Walk(c.retryInterval, 0, Waits(c), [])
  }

  /** Both workers read the one due member before either takes it out. */
  lemma BothScan(c: Settings) returns (t: State)
    requires c.retryInterval < c.retryMaxAge
    ensures Reached(c, t) && t.tombs == map[] && t.nextPost == 1 && CountOf(t.outstanding, ROUTE) == 1
    ensures t.agents == map[0 := Walking(OnceDue(c), AddingBack), 1 := Walking(OnceDue(c), AddingBack)]
    ensures t.books == Books(map[], 1, 1, {}, map[0 := Parked(Waits(c), c.retryInterval)], 1, map[0 := Written(0)], map[])
  {
    var s := ParkedEarly(c);
    var u := Passed(c, s, c.retryInterval);
    assert NextWalk(c, u.now, [(0, Waits(c))]) == Walking(OnceDue(c), AddingBack) by {
      assert [(0, Waits(c))][1..] == [];
    }
    var v := Scanned(c, u, 0, 0);
    t := Scanned(c, v, 1, 0);
  }

  /** So it comes back twice. */
  lemma BothReturn(c: Settings) returns (t: State)
    requires c.retryInterval < c.retryMaxAge
    ensures Reached(c, t) && t.tombs == map[] && t.nextPost == 1 && CountOf(t.outstanding, ROUTE) == 1
    ensures t.agents == map[0 := Idle, 1 := Idle]
    ensures t.books == Books(map[1 := Returned(c), 2 := Returned(c)], 3, 1, {}, map[], 1, map[0 := Written(0)], map[])
  {
    var s := BothScan(c);
    var u := AddedBack(c, s, 0, OnceDue(c));
    var v := AddedBack(c, u, 1, OnceDue(c));
    var w := TakenOut(c, v, 0, OnceDue(c));
    t := TakenOut(c, w, 1, OnceDue(c));
  }

  /** Post 1 is published, and post 0 erased with both copies of its operation on the stream. */
  lemma ErasedTwiceThere(c: Settings) returns (t: State)
    requires c.retryInterval < c.retryMaxAge
    ensures Reached(c, t) && 0 in t.tombs && CountOf(t.outstanding, ROUTE) == 2 && t.agents == map[0 := Idle, 1 := Idle]
    ensures t.books == Books(map[1 := Returned(c), 2 := Returned(c), 3 := Copy(3, Written(1), 0)], 4, 1, {}, map[], 1,
                             map[0 := Written(0), 3 := Written(1)], map[])
  {
    var s := BothReturn(c);
    var u := Published(c, s, 0);
    t := Erase(c, u, 0);
  }

  /** Two workers that re-add one due operation retire it twice: the count is zero while an
      operation is on the stream. */
  lemma CountsCanFallShort(c: Settings) returns (t: State)
    requires c.retryInterval < c.retryMaxAge
    ensures Reachable(c, t) && (forall a :: a in t.agents ==> t.agents[a].Idle?)
    ensures CountOf(t.outstanding, ROUTE) == 0 && LiveOn(t.books, ROUTE) == {3} && 3 in t.books.stream
  {
    var s := ErasedTwiceThere(c);
    var u := GivenUp(c, s, 1, 1);
    t := GivenUp(c, u, 1, 2);
    IsReachable(c, t);
  }

  // ----- a stalled retry outlives the delivered-to set -----

  const READER: UserId := 0

  /** Post 0 is delivered to its reader at time 0. */
  lemma DeliveredEarly(c: Settings) returns (t: State)
    requires ValidSettings(c) && c.excludeSeen
    ensures Reached(c, t) && Calm(t) && t.agents == map[0 := Idle] && t.now == 0
    ensures 0 in t.posts && t.posts[0] == Row(ROUTE, Some(AUTHOR), false)
    ensures QueueOf(t.feed, READER) == [0] && t.feed.seenExpiry == map[0 := c.seenTtl]
    ensures t.log.served == map[0 := 0] && t.log.erased == {}
  {
    var s := StartFilling(c, 1);
    var u, job := Armed(c, s, 0);
    t := Landed(c, u, 0, job);
  }

  /** What the rest of the run leaves alone. */
  predicate SetStands(c: Settings, t: State) {
    t.tombs == map[] && t.feed.seenExpiry == map[0 := c.seenTtl] && t.log.served == map[0 := 0] && t.log.erased == {}
  }

  /** One max-age later the reader forwards it. */
  lemma ForwardedLate(c: Settings) returns (t: State)
    requires ValidSettings(c) && c.excludeSeen
    ensures Reached(c, t) && Calm(t) && t.agents == map[0 := Sending(Written(0))]
    ensures t.now == c.retryMaxAge && SetStands(c, t)
  {
    var s := DeliveredEarly(c);
    var u := Passed(c, s, c.retryMaxAge);
    t := Began(c, u, 0, Review(READER, 0, true, None));
  }

  /** The operation reaches the stream, and the audience empties. */
  lemma SentToNobody(c: Settings) returns (t: State, e: nat)
    requires ValidSettings(c) && c.excludeSeen
    ensures Reached(c, t) && t.agents == map[0 := Idle] && t.now == c.retryMaxAge && SetStands(c, t)
    ensures AudienceOf(t, ROUTE) == {} && CanBegin(c, t, 0, Read(e)) && t.books.stream[e].op == Written(0)
  {
    var s := ForwardedLate(c);
    e := s.books.nextEntry;
    var u := Sent(c, s, 0, Written(0));
    t := Happened(c, u, SetAudience(Everyone(0), {}));
  }

  /** Its operation is first parked one max-age after the delivery, and due one interval on. */
  lemma ParkedLate(c: Settings) returns (t: State, m: nat)
    requires ValidSettings(c) && c.excludeSeen
    ensures Reached(c, t) && t.agents == map[0 := Idle] && t.now == c.retryMaxAge && SetStands(c, t)
    ensures m in t.books.retry && t.books.retry[m].due == c.retryMaxAge + c.retryInterval
    ensures t.books.retry[m].copy.op.post == 0 && t.books.retry[m].copy.op.expires == Some(2 * c.retryMaxAge)
  {
    var s, e := SentToNobody(c);
    var job := Job(e, s.books.stream[e], []);
    m := s.books.nextMember;
    var u := TakenUp(c, s, 0, e, job.copy);
    t := ParkedForNobody(c, u, 0, job);
  }

  /** The scan comes in the last unit of time before the deadline. */
  lemma ScannedLate(c: Settings) returns (t: State, walk: Walk)
    requires ValidSettings(c) && c.excludeSeen && c.retryInterval < c.retryMaxAge
    ensures Reached(c, t) && t.agents == map[0 := Walking(walk, AddingBack)] && t.now == walk.at == 2 * c.retryMaxAge - 1
    ensures walk.copy.op.post == 0 && walk.copy.op.expires == Some(2 * c.retryMaxAge) && SetStands(c, t)
  {
    var s, m := ParkedLate(c);
    var u := Passed(c, s, c.retryMaxAge - 1);
    t := Scanned(c, u, 0, m);
    walk := t.agents[0].walk;
  }

  /** The stall that keeps retries within the life of the delivered-to set is exact: one unit of
      time more, and an operation in time for its deadline goes back on the stream when the set
      of its post is gone, although the post was served and not erased. */
  lemma StallOutlivesTheSet(c: Settings) returns (t: State)
    requires ValidSettings(c) && c.excludeSeen && c.retryInterval < c.retryMaxAge
    ensures Reachable(c, t) && 0 in t.agents && t.agents[0].Walking? && t.agents[0].leg.AddingBack?
    ensures
      var walk := t.agents[0].walk;
      var p := walk.copy.op.post;
      && t.now - walk.at == c.seenTtl - 2 * c.retryMaxAge + 1
      && p in t.log.served && walk.copy.op.expires == Some(t.log.served[p] + 2 * c.retryMaxAge)
      && p !in t.feed.seenExpiry && p !in t.log.erased
  {
    var s, walk := ScannedLate(c);
    var u := Passed(c, s, c.seenTtl - 2 * c.retryMaxAge + 1);
    t := Happened(c, u, ExpireSeen(0));
    IsReachable(c, t);
  }

  // ----- an entry that waits outlives a tombstone -----

  /** Post 0 is erased with its operation still on the stream, and its tombstone expires. */
  lemma TombstoneGone(c: Settings) returns (t: State)
    requires ValidSettings(c)
    ensures Reached(c, t) && t.agents == map[0 := Idle] && t.now == c.retryMaxAge && t.tombs == map[] && AudienceOf(t, ROUTE) == {0}
    ensures t.feed == Feed(map[], {0}, map[], map[]) && 0 in t.log.erased && t.posts == map[]
    ensures t.books == MintedIn(StartWith(1).books, Written(0)) && t.log.pushes == map[]
  {
    var s := Begun(c);
    var u := Published(c, s, 0);
    var v := Happened(c, u, ErasePost(0));
    var w := Passed(c, v, c.retryMaxAge);
    t := Happened(c, w, ExpireTomb(0));
  }

  /** One worker, and reader 0 who is free. */
  lemma Begun(c: Settings) returns (t: State)
    ensures Reached(c, t) && t.agents == map[0 := Idle] && t.now == 0 && t.tombs == map[] && AudienceOf(t, ROUTE) == {0}
    ensures t.feed.queues == map[] && t.feed.seen == map[] && t.feed.seenExpiry == map[] && t.log.pushes == map[]
    ensures t.books == StartWith(1).books && t.posts == map[] && t.nextPost == 0
    ensures c.maxSlots >= 1 ==> t.feed.free == {0}
  {
    StartReachable(c, 1);
    assert StartWith(1).agents == map[0 := Idle];
    t := Happened(c, StartWith(1), SetAudience(Everyone(0), {0}));
    t := Happened(c, t, MakeFree(0));
  }

  /** Nothing keeps an entry from waiting longer than a tombstone stands: a worker then hands out a
      post that was erased a whole max-age before. */
  lemma ErasedPostIsDelivered(c: Settings) returns (t: State)
    requires ValidSettings(c)
    ensures Reachable(c, t) && 0 in t.log.erased && 0 !in t.posts && t.now == c.retryMaxAge
    ensures QueueOf(t.feed, READER) == [0] && PushCount(t.log, READER, 0) == 1
  {
    var s := TombstoneGone(c);
    var job := Job(0, Copy(0, Written(0), 0), []);
    var u := TakenUp(c, s, 0, 0, job.copy);
    var v := Selected(c, u, 0, job, 0);
    t := Landed(c, v, 0, job);
    IsReachable(c, t);
  }

  // ----- a takeover sets a second deadline -----

  /** Agent 0 is about to park the operation of post 0 when agent 1 takes its entry over. */
  lemma TakenOver(c: Settings, job: Job) returns (t: State)
    requires job == Job(0, Copy(0, Written(0), 0), [])
    ensures Reached(c, t) && t.agents == map[0 := Working(job, Parking(0)), 1 := Working(job, CheckingErased)]
    ensures t.now == 0 && t.tombs == map[] && t.audience == map[] && t.books.retry == map[] && t.books.nextMember == 0
  {
    var s := TwoAgents(c);
    var u := Published(c, s, 0);
    var v := TakenUp(c, u, 0, 0, job.copy);
    var w := MustPark(c, v, 0, job);
    t := Began(c, w, 1, Reclaim([0]));
    assert ClaimedBatch(w.books.stream, [0]) == [(0, job.copy)];
    assert [(0, job.copy)][1..] == [];
  }

  /** So the hand-outs of an operation's first entry bound its deadlines for a reason: taken over
      before it is parked, it is parked twice, each time for the first time. */
  lemma TakeoverSetsTwoDeadlines(c: Settings) returns (t: State)
    ensures Reachable(c, t) && 0 in t.books.retry && 1 in t.books.retry
    ensures t.books.retry[0].copy.id == t.books.retry[1].copy.id
    ensures t.books.retry[0].copy.op.expires == Some(c.retryMaxAge)
    ensures t.books.retry[1].copy.op.expires == Some(c.retryMaxAge + 1)
  {
    var job := Job(0, Copy(0, Written(0), 0), []);
    var s := TakenOver(c, job);
    var u := Passed(c, s, 1);
    var v := MustPark(c, u, 1, job);
    var w := WasParked(c, v, 0, job, 0);
    t := WasParked(c, w, 1, job, 1);
    IsReachable(c, t);
  }
}
