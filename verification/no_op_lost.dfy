/** Crash safety: whatever interleaves and whoever crashes, a minted operation has either
    had its outcome or still has a copy that nobody is about to take away. */
module NoOpLost {
  import opened FeedTypes
  import opened FeedScripts
  import opened FeedMachine

  // ----- copies keep the identity of what was minted -----

  /** `y` is still the work `x` was minted as: same post, route and author, and the fan-out given
      then. The deadline may have been set, and a fan-out left out or worth nothing been written
      out as what it stands for. */
  predicate SameWork(c: Settings, x: Op, y: Op) {
    && x.post == y.post && x.route == y.route && x.author == y.author
    && (x.fanout.Some? && x.fanout.value >= 1 ==> y.fanout == x.fanout)
    && (y.fanout == x.fanout || y.fanout == Some(Reach(c, x)))
  }

  predicate TrueCopy(c: Settings, b: Books, k: Copy) {
    k.id in b.minted && SameWork(c, b.minted[k.id], k.op)
  }

  /** What an agent remembers of an entry, while the entry lasts. */
  predicate KnowsEntry(c: Settings, b: Books, e: nat, k: Copy) {
    e < b.nextEntry && (e in b.stream ==> b.stream[e] == k) && TrueCopy(c, b, k)
  }

  /** What an agent remembers of a retry member, while the member lasts. */
  predicate KnowsMember(c: Settings, b: Books, m: nat, k: Copy) {
    m < b.nextMember && (m in b.retry ==> b.retry[m].copy.id == k.id) && TrueCopy(c, b, k)
  }

  predicate KnowsBatch(c: Settings, b: Books, batch: seq<(nat, Copy)>) {
    forall i :: 0 <= i < |batch| ==> KnowsEntry(c, b, batch[i].0, batch[i].1)
  }

  predicate KnowsDue(c: Settings, b: Books, due: seq<(nat, Copy)>) {
    forall i :: 0 <= i < |due| ==> KnowsMember(c, b, due[i].0, due[i].1)
  }

  predicate SoundPc(c: Settings, b: Books, pc: Pc) {
    match pc
    case Working(job, stage) =>
      && KnowsEntry(c, b, job.entry, job.copy)
      && KnowsBatch(c, b, job.rest)
      && (stage.Acking? ==> job.entry !in b.stream)
    case Walking(walk, _) =>
      KnowsMember(c, b, walk.member, walk.copy) && KnowsDue(c, b, walk.rest)
    case _ => true
  }

  /** Ids in use lie below the counters, every copy is true to what was minted, and no entry
      is out of the group's sight: it is still to be read, or pending and claimable. */
  predicate SoundBooks(c: Settings, b: Books) {
    && b.cursor <= b.nextEntry
    && (forall e :: e in b.stream ==> e < b.nextEntry && TrueCopy(c, b, b.stream[e]))
    && (forall e :: e in b.stream ==> b.cursor <= e || e in b.pending)
    && (forall m :: m in b.retry ==> m < b.nextMember && TrueCopy(c, b, b.retry[m].copy))
    && (forall id :: id in b.minted ==> id < b.nextEntry)
  }

  predicate SoundAgents(c: Settings, b: Books, agents: map<nat, Pc>) {
    forall a :: a in agents ==> SoundPc(c, b, agents[a])
  }

  predicate Sound(c: Settings, s: State) {
    SoundBooks(c, s.books) && SoundAgents(c, s.books, s.agents)
  }

  /** Ids are never reused and entries never rewritten. */
  predicate Evolves(b: Books, d: Books) {
    && b.nextEntry <= d.nextEntry && b.nextMember <= d.nextMember
    && (forall id :: id in b.minted ==> id in d.minted && d.minted[id] == b.minted[id])
    && (forall e :: e in d.stream && e < b.nextEntry ==> e in b.stream && d.stream[e] == b.stream[e])
    && (forall m :: m in d.retry && m < b.nextMember ==> m in b.retry && d.retry[m] == b.retry[m])
  }

  // ----- every command keeps the books sound -----

  lemma AddedSound(c: Settings, b: Books, k: Copy)
    requires SoundBooks(c, b) && TrueCopy(c, b, k)
    ensures SoundBooks(c, Added(b, k)) && Evolves(b, Added(b, k))
  {
  }

  lemma MintedSound(c: Settings, b: Books, op: Op)
    requires SoundBooks(c, b)
    ensures SoundBooks(c, MintedIn(b, op)) && Evolves(b, MintedIn(b, op))
  {
  }

  lemma ReadSound(c: Settings, b: Books, e: nat)
    requires SoundBooks(c, b) && e in b.stream && b.cursor <= e
    requires forall x :: x in b.stream && b.cursor <= x ==> e <= x
    ensures SoundBooks(c, ReadIn(b, e)) && Evolves(b, ReadIn(b, e))
  {
  }

  lemma ParkedSound(c: Settings, b: Books, k: Copy, due: int)
    requires SoundBooks(c, b) && TrueCopy(c, b, k)
    ensures SoundBooks(c, ParkedIn(b, k, due)) && Evolves(b, ParkedIn(b, k, due))
  {
  }

  lemma ReclaimSound(c: Settings, b: Books, ids: seq<nat>)
    requires SoundBooks(c, b)
    ensures SoundBooks(c, ReclaimIn(b, ids)) && Evolves(b, ReclaimIn(b, ids))
  {
  }

  lemma UnparkedSound(c: Settings, b: Books, m: nat)
    requires SoundBooks(c, b)
    ensures SoundBooks(c, UnparkedIn(b, m)) && Evolves(b, UnparkedIn(b, m))
  {
  }

  lemma DeletedSound(c: Settings, b: Books, e: nat)
    requires SoundBooks(c, b)
    ensures SoundBooks(c, DeletedIn(b, e)) && Evolves(b, DeletedIn(b, e))
  {
  }

  lemma EndedSound(c: Settings, b: Books, id: nat, outcome: Outcome)
    requires SoundBooks(c, b)
    ensures SoundBooks(c, EndedIn(b, id, outcome)) && Evolves(b, EndedIn(b, id, outcome))
  {
  }

  /** An entry may leave the pending list only when it has left the stream. */
  lemma AckedSound(c: Settings, b: Books, e: nat)
    requires SoundBooks(c, b) && e !in b.stream
    ensures SoundBooks(c, AckedIn(b, e)) && Evolves(b, AckedIn(b, e))
  {
  }

  // ----- what agents remember stays true -----

  lemma SoundPcStable(c: Settings, b: Books, d: Books, pc: Pc)
    requires SoundPc(c, b, pc) && Evolves(b, d)
    ensures SoundPc(c, d, pc)
  {
  }

  /** Moving one agent keeps all agents sound once its new place is. */
  lemma AgentsStable(c: Settings, b: Books, d: Books, agents: map<nat, Pc>, a: nat, pc: Pc)
    requires SoundAgents(c, b, agents) && Evolves(b, d) && SoundPc(c, d, pc)
    ensures SoundAgents(c, d, agents[a := pc])
  {
    var moved := agents[a := pc];
    forall x | x in moved ensures SoundPc(c, d, moved[x]) {
      if x != a {
        SoundPcStable(c, b, d, agents[x]);
      }
    }
  }

  lemma NextJobSound(c: Settings, b: Books, batch: seq<(nat, Copy)>)
    requires KnowsBatch(c, b, batch)
    ensures SoundPc(c, b, NextJob(batch))
  {
    if batch != [] {
      assert KnowsEntry(c, b, batch[0].0, batch[0].1);
    }
  }

  lemma NextWalkSound(c: Settings, b: Books, at: int, due: seq<(nat, Copy)>)
    requires KnowsDue(c, b, due)
    ensures SoundPc(c, b, NextWalk(c, at, due))
  {
    if due != [] {
      assert KnowsMember(c, b, due[0].0, due[0].1);
    }
  }

  lemma BeginSound(c: Settings, s: State, a: nat, o: Opening)
    requires Sound(c, s) && CanBegin(c, s, a, o)
    ensures Sound(c, AfterBegin(c, s, a, o))
  {
    var b, t := s.books, AfterBegin(c, s, a, o);
    assert SoundBooks(c, t.books) && Evolves(b, t.books) by {
      match o
      case Read(e) => ReadSound(c, b, e);
      case Reclaim(ids) => ReclaimSound(c, b, ids);
      case _ =>
    }
    OpeningSound(c, s, a, o, t.books);
    AgentsStable(c, b, t.books, s.agents, a, t.agents[a]);
  }

  lemma OpeningSound(c: Settings, s: State, a: nat, o: Opening, d: Books)
    requires Sound(c, s) && CanBegin(c, s, a, o) && d == AfterBegin(c, s, a, o).books
    requires Evolves(s.books, d)
    ensures SoundPc(c, d, AfterBegin(c, s, a, o).agents[a])
  {
    match o
    case Read(e) => NextJobSound(c, d, [(e, s.books.stream[e])]);
    case Reclaim(ids) => NextJobSound(c, d, ClaimedBatch(s.books.stream, ids));
    case Scan(due) => NextWalkSound(c, d, s.now, DueBatch(s.books.retry, due));
    case _ =>
  }

  /** A consumer that only reads stays on its entry, and cannot skip ahead to removing it. */
  lemma ReadingMoves(c: Settings, s: State, op: Op, stage: Stage, drawn: seq<UserId>)
    requires OnlyReads(stage)
    ensures var r := StageAfter(c, s, op, stage, drawn); !r.Deleting? && !r.Acking?
  {
  }

  lemma ParkedCopyTrue(c: Settings, b: Books, k: Copy, at: int)
    requires TrueCopy(c, b, k)
    ensures TrueCopy(c, b, ParkedCopy(c, k, at))
  {
  }

  lemma WorkBooksSound(c: Settings, b: Books, job: Job, stage: Stage)
    requires SoundBooks(c, b) && SoundPc(c, b, Working(job, stage))
    ensures SoundBooks(c, WorkedBooks(c, b, job, stage)) && Evolves(b, WorkedBooks(c, b, job, stage))
  {
    if stage.Parking? {
      ParkedCopyTrue(c, b, job.copy, stage.at);
      ParkedSound(c, b, ParkedCopy(c, job.copy, stage.at), stage.at + c.retryInterval);
    } else if stage.Retiring? {
      EndedSound(c, b, job.copy.id, stage.outcome);
    } else if stage.Deleting? {
      DeletedSound(c, b, job.entry);
    } else if stage.Acking? {
      AckedSound(c, b, job.entry);
    }
  }

  lemma WorkPcSound(c: Settings, s: State, a: nat, job: Job, stage: Stage, drawn: seq<UserId>, d: Books)
    requires d == AfterWork(c, s, a, job, stage, drawn).books
    requires SoundPc(c, d, Working(job, stage))
    ensures SoundPc(c, d, AfterWork(c, s, a, job, stage, drawn).agents[a])
  {
    if stage.Acking? {
      NextJobSound(c, d, job.rest);
    } else if OnlyReads(stage) {
      ReadingMoves(c, s, job.copy.op, stage, drawn);
    }
  }

  lemma WorkSound(c: Settings, s: State, a: nat, job: Job, stage: Stage, drawn: seq<UserId>)
    requires Sound(c, s) && a in s.agents && s.agents[a] == Working(job, stage)
    ensures Sound(c, AfterWork(c, s, a, job, stage, drawn))
  {
    var t := AfterWork(c, s, a, job, stage, drawn);
    assert SoundPc(c, s.books, s.agents[a]);
    WorkBooksSound(c, s.books, job, stage);
    SoundPcStable(c, s.books, t.books, s.agents[a]);
    WorkPcSound(c, s, a, job, stage, drawn, t.books);
    AgentsStable(c, s.books, t.books, s.agents, a, t.agents[a]);
  }

  lemma WalkBooksSound(c: Settings, b: Books, walk: Walk, leg: Leg)
    requires SoundBooks(c, b) && SoundPc(c, b, Walking(walk, leg))
    ensures SoundBooks(c, WalkedBooks(b, walk, leg)) && Evolves(b, WalkedBooks(b, walk, leg))
  {
    match leg
    case AddingBack => AddedSound(c, b, walk.copy.(hops := walk.copy.hops + 1));
    case TakingOut => UnparkedSound(c, b, walk.member);
    case DroppingOverdue =>
      UnparkedSound(c, b, walk.member);
      EndedSound(c, UnparkedIn(b, walk.member), walk.copy.id, Overdue(walk.copy.op.expires.GetOr(walk.at), walk.at));
    case RetiringOverdue =>
  }

  lemma WalkSound(c: Settings, s: State, a: nat, walk: Walk, leg: Leg)
    requires Sound(c, s) && a in s.agents && s.agents[a] == Walking(walk, leg)
    ensures Sound(c, AfterWalk(c, s, a, walk, leg))
  {
    var t := AfterWalk(c, s, a, walk, leg);
    assert SoundPc(c, s.books, s.agents[a]);
    WalkBooksSound(c, s.books, walk, leg);
    SoundPcStable(c, s.books, t.books, s.agents[a]);
    NextWalkSound(c, t.books, walk.at, walk.rest);
    AgentsStable(c, s.books, t.books, s.agents, a, t.agents[a]);
  }

  lemma ProceedSound(c: Settings, s: State, a: nat, drawn: seq<UserId>)
    requires Sound(c, s) && CanProceed(c, s, a, drawn)
    ensures Sound(c, AfterProceed(c, s, a, drawn))
  {
    match s.agents[a]
    case Working(job, stage) => WorkSound(c, s, a, job, stage, drawn);
    case Walking(walk, leg) => WalkSound(c, s, a, walk, leg);
    case Sending(op) =>
      MintedSound(c, s.books, op);
      AgentsStable(c, s.books, MintedIn(s.books, op), s.agents, a, Counting(op.route, s.books.nextEntry));
    case _ => AgentsStable(c, s.books, s.books, s.agents, a, Idle);
  }

  lemma StepSound(c: Settings, s: State, step: Step)
    requires Sound(c, s) && Enabled(c, s, step)
    ensures Sound(c, After(c, s, step))
  {
    match step
    case Begin(a, o) => BeginSound(c, s, a, o);
    case Proceed(a, drawn) => ProceedSound(c, s, a, drawn);
    case Happen(e) =>
      if e.Crash? {
        AgentsStable(c, s.books, s.books, s.agents, e.agent, Idle);
      }
  }

  // ----- live copies -----

  /** The consumer has dealt with entry `e` and is about to delete it. */
  predicate Removing(pc: Pc, e: nat) {
    pc.Working? && pc.stage.Deleting? && pc.job.entry == e
  }

  /** Member `m` is back on the stream and is about to leave the retry set. */
  predicate Unparking(pc: Pc, m: nat) {
    pc.Walking? && pc.leg.TakingOut? && pc.walk.member == m
  }

  predicate LiveEntry(b: Books, agents: map<nat, Pc>, id: nat, e: nat) {
    e in b.stream && b.stream[e].id == id && forall a :: a in agents ==> !Removing(agents[a], e)
  }

  predicate LiveMember(b: Books, agents: map<nat, Pc>, id: nat, m: nat) {
    m in b.retry && b.retry[m].copy.id == id && forall a :: a in agents ==> !Unparking(agents[a], m)
  }

  ghost predicate Kept(b: Books, agents: map<nat, Pc>, id: nat) {
    || id in b.outcomes
    || (exists e :: LiveEntry(b, agents, id, e))
    || (exists m :: LiveMember(b, agents, id, m))
  }

  ghost predicate NoneLost(s: State) {
    forall id :: id in s.books.minted ==> Kept(s.books, s.agents, id)
  }

  /** A copy survives a command of agent `a` unless `a` had announced its removal, and `a`
      announces a removal only once the operation is kept by other means. */
  lemma KeptCarries(b: Books, agents: map<nat, Pc>, d: Books, a: nat, pc: Pc, id: nat)
    requires a in agents && Kept(b, agents, id)
    requires forall i :: i in b.outcomes ==> i in d.outcomes
    requires forall e :: e in b.stream && !Removing(agents[a], e) ==> e in d.stream && d.stream[e] == b.stream[e]
    requires forall m :: m in b.retry && !Unparking(agents[a], m) ==>
               (m in d.retry && d.retry[m] == b.retry[m]) || b.retry[m].copy.id in d.outcomes
    requires forall e :: Removing(pc, e) && e in d.stream && d.stream[e].id == id ==> Kept(d, agents[a := pc], id)
    requires forall m :: Unparking(pc, m) && m in d.retry && d.retry[m].copy.id == id ==> Kept(d, agents[a := pc], id)
    ensures Kept(d, agents[a := pc], id)
  {
    if id in b.outcomes {
    } else if e :| LiveEntry(b, agents, id, e) {
      assert !Removing(agents[a], e);
      if !Removing(pc, e) {
        assert LiveEntry(d, agents[a := pc], id, e);
      }
    } else {
      var m :| LiveMember(b, agents, id, m);
      assert !Unparking(agents[a], m);
      if !Unparking(pc, m) && id !in d.outcomes {
        assert LiveMember(d, agents[a := pc], id, m);
      }
    }
  }

  /** An entry that has just been added is nobody's to remove. */
  lemma AddedIsLive(c: Settings, b: Books, agents: map<nat, Pc>, k: Copy, a: nat, pc: Pc)
    requires SoundAgents(c, b, agents) && !Removing(pc, b.nextEntry)
    ensures LiveEntry(Added(b, k), agents[a := pc], k.id, b.nextEntry)
  {
    forall x | x in agents ensures !Removing(agents[x], b.nextEntry) {
      assert SoundPc(c, b, agents[x]);
    }
  }

  lemma ParkedIsLive(c: Settings, b: Books, agents: map<nat, Pc>, k: Copy, due: int, a: nat, pc: Pc)
    requires SoundAgents(c, b, agents) && !Unparking(pc, b.nextMember)
    ensures LiveMember(ParkedIn(b, k, due), agents[a := pc], k.id, b.nextMember)
  {
    forall x | x in agents ensures !Unparking(agents[x], b.nextMember) {
      assert SoundPc(c, b, agents[x]);
    }
  }

  lemma BeginKeeps(c: Settings, s: State, a: nat, o: Opening)
    requires Sound(c, s) && NoneLost(s) && CanBegin(c, s, a, o)
    ensures NoneLost(AfterBegin(c, s, a, o))
  {
    var b, t := s.books, AfterBegin(c, s, a, o);
    OpeningDoomsNothing(c, s, a, o);
    forall id | id in t.books.minted ensures Kept(t.books, t.agents, id) {
      KeptCarries(b, s.agents, t.books, a, t.agents[a], id);
    }
  }

  lemma OpeningDoomsNothing(c: Settings, s: State, a: nat, o: Opening)
    requires CanBegin(c, s, a, o)
    ensures
      var b, d, pc := s.books, AfterBegin(c, s, a, o).books, AfterBegin(c, s, a, o).agents[a];
      && d.outcomes == b.outcomes && d.retry == b.retry && d.minted == b.minted && d.stream == b.stream
      && (forall e :: !Removing(pc, e)) && (forall m :: !Unparking(pc, m))
  {
  }

  lemma ReadingKeeps(c: Settings, s: State, a: nat, job: Job, stage: Stage, drawn: seq<UserId>, id: nat)
    requires a in s.agents && OnlyReads(stage) && Kept(s.books, s.agents, id)
    ensures var t := AfterWork(c, s, a, job, stage, drawn); Kept(t.books, t.agents, id)
  {
    ReadingMoves(c, s, job.copy.op, stage, drawn);
    KeptCarries(s.books, s.agents, s.books, a, Working(job, StageAfter(c, s, job.copy.op, stage, drawn)), id);
  }

  lemma ParkingKeeps(c: Settings, s: State, a: nat, job: Job, stage: Stage, drawn: seq<UserId>, id: nat)
    requires Sound(c, s) && a in s.agents && s.agents[a] == Working(job, stage) && stage.Parking?
    requires Kept(s.books, s.agents, id)
    ensures var t := AfterWork(c, s, a, job, stage, drawn); Kept(t.books, t.agents, id)
  {
    var k, due := ParkedCopy(c, job.copy, stage.at), stage.at + c.retryInterval;
    var d, pc := ParkedIn(s.books, k, due), Working(job, Deleting);
    assert SoundPc(c, s.books, s.agents[a]);
    ParkedIsLive(c, s.books, s.agents, k, due, a, pc);
    assert LiveMember(d, s.agents[a := pc], job.copy.id, s.books.nextMember);
    KeptCarries(s.books, s.agents, d, a, pc, id);
  }

  lemma PlacingKeeps(c: Settings, s: State, a: nat, job: Job, todo: seq<UserId>, landed: Option<UserId>, id: nat)
    requires a in s.agents && Kept(s.books, s.agents, id)
    ensures var t := AfterPlacing(c, s, a, job, todo, landed); Kept(t.books, t.agents, id)
  {
    var t := AfterPlacing(c, s, a, job, todo, landed);
    KeptCarries(s.books, s.agents, s.books, a, t.agents[a], id);
  }

  lemma RetiringKeeps(c: Settings, s: State, a: nat, job: Job, stage: Stage, drawn: seq<UserId>, id: nat)
    requires Sound(c, s) && a in s.agents && s.agents[a] == Working(job, stage) && stage.Retiring?
    requires Kept(s.books, s.agents, id)
    ensures var t := AfterWork(c, s, a, job, stage, drawn); Kept(t.books, t.agents, id)
  {
    assert SoundPc(c, s.books, s.agents[a]);
    var d := EndedIn(s.books, job.copy.id, stage.outcome);
    KeptCarries(s.books, s.agents, d, a, Working(job, Deleting), id);
  }

  lemma RemovingKeeps(c: Settings, s: State, a: nat, job: Job, stage: Stage, drawn: seq<UserId>, id: nat)
    requires a in s.agents && s.agents[a] == Working(job, stage)
    requires stage.Deleting? || stage.Acking?
    requires Kept(s.books, s.agents, id)
    ensures var t := AfterWork(c, s, a, job, stage, drawn); Kept(t.books, t.agents, id)
  {
    var t := AfterWork(c, s, a, job, stage, drawn);
    KeptCarries(s.books, s.agents, t.books, a, t.agents[a], id);
  }

  lemma WalkKeeps(c: Settings, s: State, a: nat, walk: Walk, leg: Leg, id: nat)
    requires Sound(c, s) && a in s.agents && s.agents[a] == Walking(walk, leg)
    requires Kept(s.books, s.agents, id)
    ensures var t := AfterWalk(c, s, a, walk, leg); Kept(t.books, t.agents, id)
  {
    var b, t := s.books, AfterWalk(c, s, a, walk, leg);
    assert SoundPc(c, b, s.agents[a]);
    if leg.AddingBack? {
      AddedIsLive(c, b, s.agents, walk.copy.(hops := walk.copy.hops + 1), a, t.agents[a]);
      assert LiveEntry(t.books, t.agents, walk.copy.id, b.nextEntry);
    }
    KeptCarries(b, s.agents, t.books, a, t.agents[a], id);
  }

  /** A new operation is live on the stream, and the older ones are where they were. */
  lemma MintingKeeps(c: Settings, s: State, a: nat, op: Op, id: nat)
    requires Sound(c, s) && a in s.agents
    requires id == s.books.nextEntry || Kept(s.books, s.agents, id)
    ensures Kept(MintedIn(s.books, op), s.agents[a := Counting(op.route, s.books.nextEntry)], id)
  {
    var b, d, pc := s.books, MintedIn(s.books, op), Counting(op.route, s.books.nextEntry);
    if id == b.nextEntry {
      AddedIsLive(c, b, s.agents, Copy(b.nextEntry, op, 0), a, pc);
      assert LiveEntry(d, s.agents[a := pc], id, b.nextEntry);
    } else {
      assert forall e :: e in b.stream ==> e < b.nextEntry;
      KeptCarries(b, s.agents, d, a, pc, id);
    }
  }

  lemma ProceedKeeps(c: Settings, s: State, a: nat, drawn: seq<UserId>, id: nat)
    requires Sound(c, s) && CanProceed(c, s, a, drawn)
    requires id in AfterProceed(c, s, a, drawn).books.minted && (id in s.books.minted ==> Kept(s.books, s.agents, id))
    ensures var t := AfterProceed(c, s, a, drawn); Kept(t.books, t.agents, id)
  {
    var pc := s.agents[a];
    if pc.Working? {
      if OnlyReads(pc.stage) {
        ReadingKeeps(c, s, a, pc.job, pc.stage, drawn, id);
      } else if pc.stage.Parking? {
        ParkingKeeps(c, s, a, pc.job, pc.stage, drawn, id);
      } else if pc.stage.Deleting? || pc.stage.Acking? {
        RemovingKeeps(c, s, a, pc.job, pc.stage, drawn, id);
      } else if pc.stage.Retiring? {
        RetiringKeeps(c, s, a, pc.job, pc.stage, drawn, id);
      } else {
        PlacingKeeps(c, s, a, pc.job, pc.stage.todo, pc.stage.landed, id);
      }
    } else if pc.Walking? {
      WalkKeeps(c, s, a, pc.walk, pc.leg, id);
    } else if pc.Sending? {
      MintingKeeps(c, s, a, pc.op, id);
    } else {
      KeptCarries(s.books, s.agents, s.books, a, Idle, id);
    }
  }

  lemma EventMintsNothing(c: Settings, s: State, e: Event)
    requires CanHappen(c, s, e)
    ensures AfterEvent(c, s, e).books.minted == s.books.minted
  {
  }

  lemma StepKeeps(c: Settings, s: State, step: Step)
    requires Sound(c, s) && NoneLost(s) && Enabled(c, s, step)
    ensures NoneLost(After(c, s, step))
  {
    var t := After(c, s, step);
    match step
    case Begin(a, o) => BeginKeeps(c, s, a, o);
    case Proceed(a, drawn) =>
      forall id | id in t.books.minted ensures Kept(t.books, t.agents, id) {
        ProceedKeeps(c, s, a, drawn, id);
      }
    case Happen(e) =>
      EventMintsNothing(c, s, e);
      forall id | id in t.books.minted ensures Kept(t.books, t.agents, id) {
        EventKeeps(c, s, e, id);
      }
  }

  lemma EventKeeps(c: Settings, s: State, e: Event, id: nat)
    requires CanHappen(c, s, e) && Kept(s.books, s.agents, id)
    ensures var t := AfterEvent(c, s, e); Kept(t.books, t.agents, id)
  {
    if e.Crash? {
      KeptCarries(s.books, s.agents, s.books, e.agent, Idle, id);
    }
  }

  // ----- over whole runs -----

  lemma {:induction false} RunKeeps(c: Settings, s: State, steps: seq<Step>, t: State)
    requires Sound(c, s) && NoneLost(s) && Leads(c, s, steps, t)
    ensures Sound(c, t) && NoneLost(t)
    decreases |steps|
  {
    if steps != [] {
      StepSound(c, s, steps[0]);
      StepKeeps(c, s, steps[0]);
      RunKeeps(c, After(c, s, steps[0]), steps[1..], t);
    }
  }

  /** In every reachable state each minted operation has its outcome recorded, or an entry
      with its post, route, author and fan-out that is still to be read or claimable, or such
      a member of the retry set, which no agent is about to remove. */
  lemma NoOperationIsLost(c: Settings, t: State, id: nat)
    requires Reachable(c, t) && id in t.books.minted
    ensures
      || id in t.books.outcomes
      || (exists e :: LiveEntry(t.books, t.agents, id, e)
                 && SameWork(c, t.books.minted[id], t.books.stream[e].op)
                 && (t.books.cursor <= e || e in t.books.pending))
      || (exists m :: LiveMember(t.books, t.agents, id, m)
                 && SameWork(c, t.books.minted[id], t.books.retry[m].copy.op))
  {
    var s, steps :| Init(s) && Leads(c, s, steps, t);
    RunKeeps(c, s, steps, t);
    assert Kept(t.books, t.agents, id);
    if e :| LiveEntry(t.books, t.agents, id, e) {
      assert TrueCopy(c, t.books, t.books.stream[e]);
    } else if m :| LiveMember(t.books, t.agents, id, m) {
      assert TrueCopy(c, t.books, t.books.retry[m].copy);
    }
  }

  /** Every copy an agent holds: in hand, in the rest of its batch, or in a walk over due
      members. */
  predicate Holds(pc: Pc, k: Copy) {
    match pc
    case Working(job, _) => k == job.copy || exists i :: 0 <= i < |job.rest| && job.rest[i].1 == k
    case Walking(walk, _) => k == walk.copy || exists i :: 0 <= i < |walk.rest| && walk.rest[i].1 == k
    case _ => false
  }

  lemma HeldIsTrue(c: Settings, b: Books, pc: Pc, k: Copy)
    requires SoundPc(c, b, pc) && Holds(pc, k)
    ensures TrueCopy(c, b, k)
  {
    match pc
    case Working(job, _) =>
      if k != job.copy {
        var i :| 0 <= i < |job.rest| && job.rest[i].1 == k;
        assert KnowsEntry(c, b, job.rest[i].0, job.rest[i].1);
      }
    case Walking(walk, _) =>
      if k != walk.copy {
        var i :| 0 <= i < |walk.rest| && walk.rest[i].1 == k;
        assert KnowsMember(c, b, walk.rest[i].0, walk.rest[i].1);
      }
    case _ =>
  }

  /** A claim takes exactly those of the claimed ids off the pending list whose entry is gone, and
      hands out the others that were asked for. */
  lemma ClaimForgetsTheGone(c: Settings, s: State, a: nat, ids: seq<nat>, e: nat)
    requires CanBegin(c, s, a, Reclaim(ids))
    ensures
      var t := AfterBegin(c, s, a, Reclaim(ids));
      && (e in t.books.pending <==> e in s.books.pending && (e in ids ==> e in s.books.stream))
      && t.books.stream == s.books.stream && t.books.retry == s.books.retry
  {
  }

  /** Whatever happened on the way, a copy found anywhere is true to what was minted. */
  lemma CopiesStayTrue(c: Settings, t: State)
    requires Reachable(c, t)
    ensures forall e :: e in t.books.stream ==> TrueCopy(c, t.books, t.books.stream[e])
    ensures forall m :: m in t.books.retry ==> TrueCopy(c, t.books, t.books.retry[m].copy)
    ensures forall a, k :: a in t.agents && Holds(t.agents[a], k) ==> TrueCopy(c, t.books, k)
  {
    var s, steps :| Init(s) && Leads(c, s, steps, t);
    RunKeeps(c, s, steps, t);
    forall a, k | a in t.agents && Holds(t.agents[a], k) ensures TrueCopy(c, t.books, k) {
      assert SoundPc(c, t.books, t.agents[a]);
      HeldIsTrue(c, t.books, t.agents[a], k);
    }
  }
}
