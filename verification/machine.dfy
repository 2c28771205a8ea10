/** The distribution protocol as a state machine of single Redis commands.

    Any number of agents (worker processes and request handlers) take turns; between two
    commands anything may happen, and an agent may crash and forget what it held. Every
    command, Lua script or MULTI block is one step. The stream entry, the pending list and
    the retry set carry copies of operations; copies of one minted operation share its id.
    `Log`, `Trace`, `minted` and `outcomes` are history: no command reads them. A client that
    reads its own clock does so together with a neighbouring command: a walk's `at` with the
    read of the due members, the `at` of `Parking` with the command that found nobody. */
module FeedMachine {
  import opened FeedTypes
  import R = Rounding
  import opened FeedScripts

  /** A copy of minted operation `id`; `hops` counts its returns from the retry set. */
  datatype Copy = Copy(id: nat, op: Op, hops: nat)

  datatype Parked = Parked(copy: Copy, due: int)

  /** A post's audience and those already served, as one command found them. */
  datatype Look = Look(post: PostId, route: Route, audience: set<UserId>, seen: set<UserId>)

  /** Why an operation needs no further work. */
  datatype Outcome = Delivered(reader: UserId) | Erased | Exhausted(look: Look) | Overdue(deadline: int, at: int)

  /** What a consumer is working on: an entry it was handed, then the rest of its batch. */
  datatype Job = Job(entry: nat, copy: Copy, rest: seq<(nat, Copy)>)

  /** The next command of a consumer on its current entry. */
  datatype Stage =
    | CheckingErased
    | Sampling
    | FilteringFree(drawn: seq<UserId>)
    | FilteringSeen(roomy: seq<UserId>)
    | Placing(todo: seq<UserId>, landed: Option<UserId>)
    | SizingAudience
    | SizingSeen(audience: nat)
    | Diffing
    | Parking(at: int)
    | Retiring(outcome: Outcome)
    | Deleting
    | Acking

  /** A due retry member, then the rest of the due list, as read at time `at`. */
  datatype Walk = Walk(at: int, member: nat, copy: Copy, rest: seq<(nat, Copy)>)

  datatype Leg = AddingBack | TakingOut | DroppingOverdue | RetiringOverdue

  datatype Pc =
    | Idle
    | Working(job: Job, stage: Stage)
    | Walking(walk: Walk, leg: Leg)
    | Sending(op: Op)
    | Counting(route: Route, id: nat)
    | Probing(reader: UserId, probe: PostId)

  /** A post's row: where it goes, who wrote it, and whether it is a test post. */
  datatype Row = Row(route: Route, author: Option<UserId>, probe: bool)

  /** The stream with its consumer group, the retry set, and which operations were minted
      and how they ended (`minted` and `outcomes` are history). */
  datatype Books = Books(
    stream: map<nat, Copy>, nextEntry: nat, cursor: nat, pending: set<nat>,
    retry: map<nat, Parked>, nextMember: nat,
    minted: map<nat, Op>, outcomes: map<nat, Outcome>)

  /** History of deliveries: pushes per reader and post, losses of delivered-to sets, erased
      posts, readers made reachable and not purged since, probes with their reader, and when
      each post was last pushed. */
  datatype Log = Log(
    pushes: map<(UserId, PostId), nat>, losses: map<PostId, nat>,
    erased: set<PostId>, reached: set<UserId>, probes: map<PostId, UserId>, served: map<PostId, int>)

  /** History of operations: which were counted and which retired, retires beyond the first and
      retires swallowed by the floor per route, first parks with the deadline they set, how
      often each entry was handed to a consumer, and what exhaustion was judged by. */
  datatype Trace = Trace(
    counted: set<nat>, retired: set<nat>, repeats: map<Route, nat>, floored: map<Route, nat>,
    parks: set<(nat, int)>, handed: map<nat, nat>, looks: set<Look>)

  datatype State = State(
    now: int,
    books: Books,
    feed: Feed,
    outstanding: map<Route, int>,
    audience: map<AudienceKey, set<UserId>>,
    tombs: map<PostId, int>,
    posts: map<PostId, Row>,
    nextPost: PostId,
    agents: map<nat, Pc>,
    log: Log,
    trace: Trace)

  /** What an idle agent may begin with. */
  datatype Opening =
    | Read(entry: nat)
    | Reclaim(ids: seq<nat>)
    | Scan(due: seq<nat>)
    | Publish(author: UserId, route: Route)
    | Review(reader: UserId, post: PostId, forward: bool, fanout: Option<int>)
    | CheckRoom(reader: UserId, route: Route)

  datatype Event =
    | ClaimPost(u: UserId, p: PostId)
    | MakeFree(u: UserId)
    | PurgeUser(u: UserId)
    | ErasePost(p: PostId)
    | Anonymise(p: PostId)
    | ExpireSeen(p: PostId)
    | ExpireTomb(p: PostId)
    | SetAudience(key: AudienceKey, users: set<UserId>)
    | Tick(elapsed: nat)
    | Crash(agent: nat)

  /** An idle agent begins, a busy one issues its next command (`drawn` answers a random
      draw, and matters to no other command), or something else happens. */
  datatype Step =
    | Begin(agent: nat, opening: Opening)
    | Proceed(agent: nat, drawn: seq<UserId>)
    | Happen(event: Event)

  // ----- small readers -----

  function AudienceOf(s: State, r: Route): set<UserId> {
    if Audience(r) in s.audience then s.audience[Audience(r)] else {}
  }

  function CountOf(counts: map<Route, int>, r: Route): int {
    if r in counts then counts[r] else 0
  }

  function PushCount(g: Log, u: UserId, p: PostId): nat {
    if (u, p) in g.pushes then g.pushes[(u, p)] else 0
  }

  function LossCount(g: Log, p: PostId): nat {
    if p in g.losses then g.losses[p] else 0
  }

  function Goto(s: State, a: nat, pc: Pc): State {
    s.(agents := s.agents[a := pc])
  }

  /** The first batch element becomes the current entry; an empty batch ends the turn. */
  function NextJob(batch: seq<(nat, Copy)>): Pc {
    if batch == [] then Idle
    else Working(Job(batch[0].0, batch[0].1, batch[1..]), CheckingErased)
  }

  /** The claimed ids whose entry still exists, with the fields read along with them. */
  function ClaimedBatch(stream: map<nat, Copy>, ids: seq<nat>): (batch: seq<(nat, Copy)>)
    ensures forall i :: 0 <= i < |batch| ==> batch[i].0 in stream && stream[batch[i].0] == batch[i].1
  {
    if ids == [] then []
    else if ids[0] in stream then [(ids[0], stream[ids[0]])] + ClaimedBatch(stream, ids[1..])
    else ClaimedBatch(stream, ids[1..])
  }

  /** A due member is dropped when its deadline has passed, and added back otherwise; one
      parked before deadlines existed is given a deadline first. */
  function NextWalk(c: Settings, at: int, due: seq<(nat, Copy)>): Pc {
    if due == [] then Idle
    else
      var (m, k) := due[0];
      match k.op.expires
      case None =>
        Walking(Walk(at, m, k.(op := k.op.(expires := Some(at + c.retryMaxAge))), due[1..]), AddingBack)
      case Some(x) =>
        Walking(Walk(at, m, k, due[1..]), if x <= at then DroppingOverdue else AddingBack)
  }

  function DueBatch(retry: map<nat, Parked>, due: seq<nat>): (batch: seq<(nat, Copy)>)
    requires forall m :: m in due ==> m in retry
    ensures |batch| == |due|
    ensures forall i :: 0 <= i < |due| ==> batch[i] == (due[i], retry[due[i]].copy)
  {
    seq(|due|, i requires 0 <= i < |due| => (due[i], retry[due[i]].copy))
  }

  /** Nothing landed: with both exclusions off the operation is parked unasked, otherwise
      the audience is measured first. */
  function NothingLanded(c: Settings, now: int): Stage {
    if c.excludeSeen || c.excludeOwn then SizingAudience else Parking(now)
  }

  function ToPlace(c: Settings, now: int, todo: seq<UserId>, landed: Option<UserId>): Stage {
    if todo != [] then Placing(todo, landed)
    else if landed.Some? then Retiring(Delivered(landed.value))
    else NothingLanded(c, now)
  }

  /** The members of the operation's audience that could still be given the post. */
  function Remaining(c: Settings, s: State, op: Op): set<UserId> {
    AudienceOf(s, op.route) - (if c.excludeSeen then SeenOf(s.feed, op.post) else {}) - AuthorSet(c, op)
  }

  function Pushed(g: Log, u: UserId, p: PostId, now: int): Log {
    g.(pushes := g.pushes[(u, p) := PushCount(g, u, p) + 1], served := g.served[p := now])
  }

  /** Run the `place` script for one reader and record a real push. */
  function PlaceIn(c: Settings, s: State, u: UserId, p: PostId): State {
    s.(feed := Placed(s.feed, u, p, c.maxSlots, c.excludeSeen, s.now + c.seenTtl),
       log := if Pushes(s.feed, u, p, c.excludeSeen) then Pushed(s.log, u, p, s.now) else s.log)
  }

  // ----- commands on the stream and the retry set -----

  /** XADD of a copy. */
  function Added(b: Books, k: Copy): Books {
    b.(stream := b.stream[b.nextEntry := k], nextEntry := b.nextEntry + 1)
  }

  /** XADD of a new operation, which takes its id from its first entry. */
  function MintedIn(b: Books, op: Op): Books {
    Added(b, Copy(b.nextEntry, op, 0)).(minted := b.minted[b.nextEntry := op])
  }

  /** XREADGROUP of the next entry. */
  function ReadIn(b: Books, e: nat): Books {
    b.(cursor := e + 1, pending := b.pending + {e})
  }

  /** XAUTOCLAIM: a claimed id whose entry is gone leaves the pending list. */
  function ReclaimIn(b: Books, ids: seq<nat>): Books {
    b.(pending := b.pending - (set i | i in ids && i !in b.stream))
  }

  /** ZADD into the retry set. */
  function ParkedIn(b: Books, k: Copy, due: int): Books {
    b.(retry := b.retry[b.nextMember := Parked(k, due)], nextMember := b.nextMember + 1)
  }

  /** ZREM from the retry set. */
  function UnparkedIn(b: Books, m: nat): Books {
    b.(retry := b.retry - {m})
  }

  function DeletedIn(b: Books, e: nat): Books {
    b.(stream := b.stream - {e})
  }

  function AckedIn(b: Books, e: nat): Books {
    b.(pending := b.pending - {e})
  }

  function EndedIn(b: Books, id: nat, outcome: Outcome): Books {
    b.(outcomes := b.outcomes[id := outcome])
  }

  function TimesIn(counts: map<Route, nat>, r: Route): nat {
    if r in counts then counts[r] else 0
  }

  function HandedTimes(g: Trace, e: nat): nat {
    if e in g.handed then g.handed[e] else 0
  }

  function RetiredIn(g: Trace, r: Route, id: nat, count: int): Trace {
    g.(retired := g.retired + {id},
       repeats := if id in g.retired then g.repeats[r := TimesIn(g.repeats, r) + 1] else g.repeats,
       floored := if count <= 0 then g.floored[r := TimesIn(g.floored, r) + 1] else g.floored)
  }

  /** The `retire` script, for operation `id` of route `r`. */
  function RetireIn(s: State, r: Route, id: nat): State {
    s.(outstanding := if CountOf(s.outstanding, r) <= 0 then s.outstanding
                      else s.outstanding[r := CountOf(s.outstanding, r) - 1],
       trace := RetiredIn(s.trace, r, id, CountOf(s.outstanding, r)))
  }

  /** HINCRBY of a route's count, for a new operation. */
  function CountIn(s: State, r: Route, id: nat): State {
    s.(outstanding := s.outstanding[r := CountOf(s.outstanding, r) + 1],
       trace := s.trace.(counted := s.trace.counted + {id}))
  }

  /** Neither a count nor what it is made of has moved. */
  predicate SameCounts(s: State, t: State) {
    && t.outstanding == s.outstanding && t.trace.counted == s.trace.counted && t.trace.retired == s.trace.retired
    && t.trace.repeats == s.trace.repeats && t.trace.floored == s.trace.floored
  }

  /** These entries, each named once, are handed to a consumer. */
  function HandOut(g: Trace, entries: set<nat>): Trace {
    g.(handed := map e | e in g.handed.Keys + entries :: HandedTimes(g, e) + if e in entries then 1 else 0)
  }

  // ----- what an idle agent begins -----

  predicate CanBegin(c: Settings, s: State, a: nat, o: Opening) {
    && a in s.agents && s.agents[a].Idle?
    && match o
       case Read(e) =>
         e in s.books.stream && s.books.cursor <= e && forall x :: x in s.books.stream && s.books.cursor <= x ==> e <= x
       case Reclaim(ids) => Distinct(ids) && forall i :: i in ids ==> i in s.books.pending
       case Scan(due) => forall m :: m in due ==> m in s.books.retry && s.books.retry[m].due <= s.now
       case CheckRoom(u, _) => HasRoom(s.feed, u, c.maxSlots)
       case _ => true
  }

  /** Insert a row under the next id. */
  function Posted(s: State, row: Row): State {
    s.(posts := s.posts[s.nextPost := row], nextPost := s.nextPost + 1)
  }

  /** A post is reviewed only while its row exists and it sits in the reader's queue. */
  predicate Reviewable(s: State, u: UserId, p: PostId) {
    p in s.posts && p in QueueOf(s.feed, u)
  }

  function ClaimedBy(c: Settings, s: State, u: UserId, p: PostId): State {
    s.(feed := Claimed(s.feed, u, p, c.maxSlots),
       log := if p in QueueOf(s.feed, u) then s.log.(reached := s.log.reached + {u}) else s.log)
  }

  /** After the claim a test post takes the short branch; an ordinary forward goes on to send
      an operation with the post's route and author. */
  function AfterClaim(row: Row, p: PostId, forward: bool, fanout: Option<int>): Pc {
    if row.probe then Idle
    else if forward then Sending(Op(p, row.route, row.author, fanout, None))
    else Idle
  }

  function OpenedBooks(b: Books, o: Opening): Books {
    match o
    case Read(e) => ReadIn(b, e)
    case Reclaim(ids) => ReclaimIn(b, ids)
    case _ => b
  }

  function AfterBegin(c: Settings, s: State, a: nat, o: Opening): (t: State)
    requires CanBegin(c, s, a, o)
    ensures a in t.agents && t.agents == s.agents[a := t.agents[a]]
    ensures t.books == OpenedBooks(s.books, o)
    ensures t.outstanding == s.outstanding && t.now == s.now && t.audience == s.audience && t.tombs == s.tombs
    ensures SameCounts(s, t)
    ensures t.trace.looks == s.trace.looks && t.log.served == s.log.served && t.log.erased == s.log.erased
    ensures t.feed.seenExpiry == s.feed.seenExpiry && t.log.pushes == s.log.pushes
    ensures o.Read? || o.Reclaim? || o.Scan? ==>
              && t.feed == s.feed && t.log == s.log && t.posts == s.posts && t.nextPost == s.nextPost
              && !t.agents[a].Sending? && !t.agents[a].Probing?
  {
    match o
    case Read(e) =>
      Goto(s.(books := ReadIn(s.books, e), trace := HandOut(s.trace, {e})), a, NextJob([(e, s.books.stream[e])]))
    case Reclaim(ids) =>
      Goto(s.(books := ReclaimIn(s.books, ids), trace := HandOut(s.trace, set i | i in ids && i in s.books.stream)),
           a, NextJob(ClaimedBatch(s.books.stream, ids)))
    case Scan(due) =>
      Goto(s, a, NextWalk(c, s.now, DueBatch(s.books.retry, due)))
    case Publish(author, route) =>
      Goto(Posted(s, Row(route, Some(author), false)), a, Sending(Op(s.nextPost, route, Some(author), None, None)))
    case Review(u, p, forward, fanout) =>
      if !Reviewable(s, u, p) then Goto(s, a, Idle)
      else Goto(ClaimedBy(c, s, u, p), a, AfterClaim(s.posts[p], p, forward, fanout))
    case CheckRoom(u, route) =>
      var t := Posted(s, Row(route, None, true));
      Goto(t.(log := s.log.(probes := s.log.probes[s.nextPost := u])), a, Probing(u, s.nextPost))
  }

  // ----- the next command of a busy agent -----

  /** The copy that goes into the retry set: the deadline is set once, on the first park. */
  function ParkedCopy(c: Settings, k: Copy, at: int): Copy {
    k.(op := k.op.(expires := Some(k.op.expires.GetOr(at + c.retryMaxAge)), fanout := Some(Reach(c, k.op))))
  }

  predicate ValidDraw(c: Settings, s: State, op: Op, drawn: seq<UserId>) {
    && Distinct(drawn)
    && (forall u :: u in drawn ==> u in AudienceOf(s, op.route))
    && |drawn| == R.Min(Reach(c, op) * c.sampleMultiplier, |AudienceOf(s, op.route)|)
  }

  function LookAt(s: State, op: Op): Look {
    Look(op.post, op.route, AudienceOf(s, op.route), SeenOf(s.feed, op.post))
  }

  /** Where the consumer goes next when its command only reads. */
  function StageAfter(c: Settings, s: State, op: Op, stage: Stage, drawn: seq<UserId>): Stage {
    match stage
    case CheckingErased =>
      if op.post in s.tombs then Retiring(Erased) else Sampling
    case Sampling =>
      var others := Filter(drawn, AuthorSet(c, op), false);
      if others == [] then NothingLanded(c, s.now) else FilteringFree(others)
    case FilteringFree(others) =>
      var roomy := Filter(others, s.feed.free, true);
      if roomy != [] && c.excludeSeen then FilteringSeen(roomy)
      else ToPlace(c, s.now, Take(roomy, Reach(c, op)), None)
    case FilteringSeen(roomy) =>
      var unseen := Filter(roomy, SeenOf(s.feed, op.post), false);
      ToPlace(c, s.now, Take(unseen, Reach(c, op)), None)
    case SizingAudience =>
      var size := |AudienceOf(s, op.route)|;
      if size == 0 then Parking(s.now) else SizingSeen(size)
    case SizingSeen(size) =>
      var had := if c.excludeSeen then |SeenOf(s.feed, op.post)| else 0;
      if had + 1 < size then Parking(s.now) else Diffing
    case Diffing =>
      if Remaining(c, s, op) != {} then Parking(s.now) else Retiring(Exhausted(LookAt(s, op)))
    case _ => stage
  }

  /** Commands that only read leave nothing changed but the consumer's own place. */
  predicate OnlyReads(stage: Stage) {
    !(stage.Placing? || stage.Parking? || stage.Retiring? || stage.Deleting? || stage.Acking?)
  }

  /** What a consumer's command adds to the history of operations. */
  function Traced(c: Settings, s: State, k: Copy, stage: Stage): Trace {
    if stage.Diffing? then s.trace.(looks := s.trace.looks + {LookAt(s, k.op)})
    else if stage.Parking? && k.op.expires.None? then s.trace.(parks := s.trace.parks + {(k.id, stage.at + c.retryMaxAge)})
    else s.trace
  }

  function WorkedBooks(c: Settings, b: Books, job: Job, stage: Stage): (d: Books)
    ensures d.minted == b.minted
  {
    if stage.Parking? then ParkedIn(b, ParkedCopy(c, job.copy, stage.at), stage.at + c.retryInterval)
    else if stage.Retiring? then EndedIn(b, job.copy.id, stage.outcome)
    else if stage.Deleting? then DeletedIn(b, job.entry)
    else if stage.Acking? then AckedIn(b, job.entry)
    else b
  }

  function AfterWork(c: Settings, s: State, a: nat, job: Job, stage: Stage, drawn: seq<UserId>): (t: State)
    ensures a in t.agents && t.agents == s.agents[a := t.agents[a]] && !t.agents[a].Probing? && !t.agents[a].Sending?
    ensures t.books == WorkedBooks(c, s.books, job, stage)
    ensures t.posts == s.posts && t.nextPost == s.nextPost && t.now == s.now && t.audience == s.audience && t.tombs == s.tombs
    ensures !stage.Placing? ==> t.feed == s.feed && t.log == s.log
    ensures !stage.Retiring? ==> SameCounts(s, t)
    ensures !t.agents[a].Walking? && !t.agents[a].Counting?
    ensures t.trace.looks == s.trace.looks + if stage.Diffing? then {LookAt(s, job.copy.op)} else {}
  {
    var op := job.copy.op;
    if OnlyReads(stage) then
      Goto(s.(trace := Traced(c, s, job.copy, stage)), a, Working(job, StageAfter(c, s, op, stage, drawn)))
    else if stage.Placing? then
      AfterPlacing(c, s, a, job, stage.todo, stage.landed)
    else if stage.Parking? then
      Goto(s.(books := WorkedBooks(c, s.books, job, stage), trace := Traced(c, s, job.copy, stage)), a, Working(job, Deleting))
    else if stage.Retiring? then
      Goto(RetireIn(s, op.route, job.copy.id).(books := WorkedBooks(c, s.books, job, stage)), a, Working(job, Deleting))
    else if stage.Deleting? then
      Goto(s.(books := WorkedBooks(c, s.books, job, stage)), a, Working(job, Acking))
    else
      Goto(s.(books := WorkedBooks(c, s.books, job, stage)), a, NextJob(job.rest))
  }

  /** Place for the next selected reader; a refusal is not a delivery. */
  function AfterPlacing(c: Settings, s: State, a: nat, job: Job, todo: seq<UserId>, landed: Option<UserId>): (t: State)
    ensures a in t.agents && t.agents == s.agents[a := t.agents[a]] && !t.agents[a].Probing? && !t.agents[a].Sending?
    ensures t.books == s.books && t.trace == s.trace && t.outstanding == s.outstanding
    ensures t.posts == s.posts && t.nextPost == s.nextPost && t.now == s.now && t.audience == s.audience && t.tombs == s.tombs
    ensures t.agents[a].Working? && t.agents[a].job == job && !t.agents[a].stage.Deleting? && !t.agents[a].stage.Acking?
  {
    if todo == [] then Goto(s, a, Working(job, ToPlace(c, s.now, [], landed)))
    else
      var op := job.copy.op;
      var landed' := if Refuses(s.feed, todo[0], op.post, c.excludeSeen) then landed else Some(todo[0]);
      Goto(PlaceIn(c, s, todo[0], op.post), a, Working(job, ToPlace(c, s.now, todo[1..], landed')))
  }

  function WalkedBooks(b: Books, walk: Walk, leg: Leg): (d: Books)
    ensures d.minted == b.minted
  {
    match leg
    case AddingBack => Added(b, walk.copy.(hops := walk.copy.hops + 1))
    case TakingOut => UnparkedIn(b, walk.member)
    case DroppingOverdue =>
      EndedIn(UnparkedIn(b, walk.member), walk.copy.id, Overdue(walk.copy.op.expires.GetOr(walk.at), walk.at))
    case RetiringOverdue => b
  }

  function AfterWalk(c: Settings, s: State, a: nat, walk: Walk, leg: Leg): (t: State)
    ensures a in t.agents && t.agents == s.agents[a := t.agents[a]] && !t.agents[a].Probing? && !t.agents[a].Sending?
    ensures t.books == WalkedBooks(s.books, walk, leg)
    ensures t.posts == s.posts && t.nextPost == s.nextPost && t.now == s.now && t.audience == s.audience && t.tombs == s.tombs
    ensures t.feed == s.feed && t.log == s.log && t.trace.looks == s.trace.looks
    ensures t.trace.parks == s.trace.parks && t.trace.handed == s.trace.handed && !t.agents[a].Working?
    ensures !leg.RetiringOverdue? ==> SameCounts(s, t)
    ensures !t.agents[a].Counting?
  {
    match leg
    case AddingBack =>
      Goto(s.(books := WalkedBooks(s.books, walk, leg)), a, Walking(walk, TakingOut))
    case TakingOut =>
      Goto(s.(books := WalkedBooks(s.books, walk, leg)), a, NextWalk(c, walk.at, walk.rest))
    case DroppingOverdue =>
      Goto(s.(books := WalkedBooks(s.books, walk, leg)), a, Walking(walk, RetiringOverdue))
    case RetiringOverdue =>
      Goto(RetireIn(s, walk.copy.op.route, walk.copy.id), a, NextWalk(c, walk.at, walk.rest))
  }

  /** The two commands of an agent that touch queues. */
  predicate Places(pc: Pc) {
    pc.Probing? || (pc.Working? && pc.stage.Placing?)
  }

  predicate CanProceed(c: Settings, s: State, a: nat, drawn: seq<UserId>) {
    && a in s.agents && !s.agents[a].Idle?
    && (s.agents[a].Working? && s.agents[a].stage.Sampling? ==> ValidDraw(c, s, s.agents[a].job.copy.op, drawn))
  }

  function AfterProceed(c: Settings, s: State, a: nat, drawn: seq<UserId>): (t: State)
    requires CanProceed(c, s, a, drawn)
    ensures a in t.agents && t.agents == s.agents[a := t.agents[a]] && !t.agents[a].Probing? && !t.agents[a].Sending?
    ensures !s.agents[a].Sending? ==> t.books.minted == s.books.minted
    ensures t.posts == s.posts && t.nextPost == s.nextPost && t.now == s.now && t.audience == s.audience && t.tombs == s.tombs
    ensures !s.agents[a].Working? ==>
              t.trace.parks == s.trace.parks && t.trace.handed == s.trace.handed && !t.agents[a].Working?
    ensures !Places(s.agents[a]) ==> t.feed == s.feed && t.log == s.log
  {
    match s.agents[a]
    case Idle => s
    case Working(job, stage) => AfterWork(c, s, a, job, stage, drawn)
    case Walking(walk, leg) => AfterWalk(c, s, a, walk, leg)
    case Sending(op) => Goto(s.(books := MintedIn(s.books, op)), a, Counting(op.route, s.books.nextEntry))
    case Counting(r, id) => Goto(CountIn(s, r, id), a, Idle)
    case Probing(u, p) => Goto(PlaceIn(c, s, u, p), a, Idle)
  }

  // ----- everything else -----

  predicate CanHappen(c: Settings, s: State, e: Event) {
    match e
    case ExpireSeen(p) => p in s.feed.seenExpiry && s.feed.seenExpiry[p] <= s.now
    case ExpireTomb(p) => p in s.tombs && s.tombs[p] <= s.now
    case Crash(a) => a in s.agents
    case Anonymise(p) => p in s.posts
    case _ => true
  }

  function LoseSeen(s: State, p: PostId): State {
    s.(feed := SeenLost(s.feed, p),
       log := if p in s.feed.seen then s.log.(losses := s.log.losses[p := LossCount(s.log, p) + 1]) else s.log)
  }

  function AfterEvent(c: Settings, s: State, e: Event): (t: State)
    requires CanHappen(c, s, e)
    ensures t.books == s.books && t.outstanding == s.outstanding && t.trace == s.trace
    ensures t.agents == s.agents || e.Crash?
  {
    match e
    case ClaimPost(u, p) => ClaimedBy(c, s, u, p)
    case MakeFree(u) => s.(feed := FreeEnsured(s.feed, u, c.maxSlots), log := s.log.(reached := s.log.reached + {u}))
    case PurgeUser(u) => s.(feed := Purged(s.feed, u), log := s.log.(reached := s.log.reached - {u}))
    case ErasePost(p) =>
      var t := LoseSeen(s, p);
      t.(tombs := s.tombs[p := s.now + c.retryMaxAge], posts := s.posts - {p}, log := t.log.(erased := t.log.erased + {p}))
    case Anonymise(p) => s.(posts := s.posts[p := s.posts[p].(author := None)])
    case ExpireSeen(p) => LoseSeen(s, p)
    case ExpireTomb(p) => s.(tombs := s.tombs - {p})
    case SetAudience(key, users) => s.(audience := s.audience[key := users])
    case Tick(d) => s.(now := s.now + d)
    case Crash(a) => Goto(s, a, Idle)
  }

  // ----- runs -----

  predicate Enabled(c: Settings, s: State, step: Step) {
    match step
    case Begin(a, o) => CanBegin(c, s, a, o)
    case Proceed(a, drawn) => CanProceed(c, s, a, drawn)
    case Happen(e) => CanHappen(c, s, e)
  }

  function After(c: Settings, s: State, step: Step): State
    requires Enabled(c, s, step)
  {
    match step
    case Begin(a, o) => AfterBegin(c, s, a, o)
    case Proceed(a, drawn) => AfterProceed(c, s, a, drawn)
    case Happen(e) => AfterEvent(c, s, e)
  }

  predicate Init(s: State) {
    && s.books == Books(map[], 0, 0, {}, map[], 0, map[], map[])
    && s.feed == Feed(map[], {}, map[], map[])
    && s.outstanding == map[] && s.tombs == map[] && s.posts == map[]
    && |s.agents| >= 1 && (forall a :: a in s.agents ==> s.agents[a] == Idle)
    && s.log == Log(map[], map[], {}, {}, map[], map[])
    && s.trace == Trace({}, {}, map[], map[], {}, map[], {})
  }

  /** `t` is where the steps lead from `s`, each enabled when its turn comes. */
  ghost predicate Leads(c: Settings, s: State, steps: seq<Step>, t: State)
    decreases |steps|
  {
    if steps == [] then s == t
    else Enabled(c, s, steps[0]) && Leads(c, After(c, s, steps[0]), steps[1..], t)
  }

  /** Reached from some start by some finite run. */
  ghost predicate Reachable(c: Settings, t: State) {
    exists s, steps :: Init(s) && Leads(c, s, steps, t)
  }

  lemma {:induction false} LeadsOneMore(c: Settings, s: State, steps: seq<Step>, t: State, step: Step)
    requires Leads(c, s, steps, t) && Enabled(c, t, step)
    ensures Leads(c, s, steps + [step], After(c, t, step))
    decreases |steps|
  {
    if steps == [] {
      assert Leads(c, After(c, t, step), [step][1..], After(c, t, step));
      assert [] + [step] == [step];
    } else {
      LeadsOneMore(c, After(c, s, steps[0]), steps[1..], t, step);
      assert (steps + [step])[1..] == steps[1..] + [step];
    }
  }

  lemma ReachOneMore(c: Settings, t: State, step: Step)
    requires Reachable(c, t) && Enabled(c, t, step)
    ensures Reachable(c, After(c, t, step))
  {
    var s, steps :| Init(s) && Leads(c, s, steps, t);
    LeadsOneMore(c, s, steps, t, step);
  }
}
