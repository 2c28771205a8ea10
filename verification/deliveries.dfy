/** Deliveries: a post reaches a reader at most once per life of its delivered-to set, no
    queue holds a post twice, and the free set is exactly the reachable readers with room. */
module Deliveries {
  import opened FeedTypes
  import opened FeedScripts
  import opened FeedMachine

  // ----- what the scripts keep -----

  predicate CountedOnce(f: Feed, g: Log, u: UserId, p: PostId) {
    PushCount(g, u, p) <= LossCount(g, p) + (if u in SeenOf(f, p) then 1 else 0)
  }

  /** A push is covered by membership in the delivered-to set, or by a loss of that set. */
  ghost predicate OncePerLife(f: Feed, g: Log) {
    forall u: UserId, p: PostId :: CountedOnce(f, g, u, p)
  }

  predicate NoRepeats(f: Feed) {
    forall u :: u in f.queues ==> Distinct(f.queues[u])
  }

  /** A queue holds nothing that was not pushed. */
  ghost predicate QueuedWasPushed(f: Feed, g: Log) {
    forall u: UserId, p: PostId :: p in QueueOf(f, u) ==> (u, p) in g.pushes
  }

  ghost predicate FreeIsExact(c: Settings, f: Feed, g: Log) {
    forall u: UserId :: u in f.free <==> u in g.reached && HasRoom(f, u, c.maxSlots)
  }

  ghost predicate Tidy(c: Settings, f: Feed, g: Log) {
    && (c.excludeSeen ==> OncePerLife(f, g))
    && NoRepeats(f) && QueuedWasPushed(f, g) && FreeIsExact(c, f, g)
  }

  lemma PlaceCountsOnce(c: Settings, s: State, u: UserId, p: PostId)
    requires c.excludeSeen && OncePerLife(s.feed, s.log)
    ensures var t := PlaceIn(c, s, u, p); OncePerLife(t.feed, t.log)
  {
    var t := PlaceIn(c, s, u, p);
    forall v: UserId, q: PostId ensures CountedOnce(t.feed, t.log, v, q) {
      assert CountedOnce(s.feed, s.log, v, q);
    }
  }

  lemma PlaceKeepsQueues(c: Settings, s: State, u: UserId, p: PostId)
    requires NoRepeats(s.feed) && QueuedWasPushed(s.feed, s.log)
    ensures var t := PlaceIn(c, s, u, p); NoRepeats(t.feed) && QueuedWasPushed(t.feed, t.log)
  {
    var t := PlaceIn(c, s, u, p);
    assert forall q :: q in QueueOf(t.feed, u) ==> q == p || q in QueueOf(s.feed, u);
  }

  /** The history counts every push and every loss of a delivered-to set, one by one. */
  lemma HistoryCounts(c: Settings, s: State, u: UserId, p: PostId)
    ensures
      var pushed := |QueueOf(PlaceIn(c, s, u, p).feed, u)| > |QueueOf(s.feed, u)|;
      PushCount(PlaceIn(c, s, u, p).log, u, p) == PushCount(s.log, u, p) + if pushed then 1 else 0
    ensures LossCount(LoseSeen(s, p).log, p) == LossCount(s.log, p) + if p in s.feed.seen then 1 else 0
    ensures SeenOf(LoseSeen(s, p).feed, p) == {}
  {
  }

  /** After a placement the post is queued unless it was refused. */
  lemma PlaceQueues(c: Settings, s: State, u: UserId, p: PostId)
    ensures p in QueueOf(PlaceIn(c, s, u, p).feed, u) <==> !Refuses(s.feed, u, p, c.excludeSeen)
    ensures !Refuses(s.feed, u, p, c.excludeSeen) && c.excludeSeen && Pushes(s.feed, u, p, true) ==>
              u in SeenOf(PlaceIn(c, s, u, p).feed, p)
  {
    if Pushes(s.feed, u, p, c.excludeSeen) {
      assert QueueOf(PlaceIn(c, s, u, p).feed, u)[0] == p;
    }
  }

  lemma PlaceKeepsFree(c: Settings, s: State, u: UserId, p: PostId)
    requires FreeIsExact(c, s.feed, s.log)
    ensures var t := PlaceIn(c, s, u, p); FreeIsExact(c, t.feed, t.log)
  {
    var t := PlaceIn(c, s, u, p);
    forall v ensures v in t.feed.free <==> v in t.log.reached && HasRoom(t.feed, v, c.maxSlots) {
      assert v in s.feed.free <==> v in s.log.reached && HasRoom(s.feed, v, c.maxSlots);
    }
  }

  lemma PlaceTidy(c: Settings, s: State, u: UserId, p: PostId)
    requires Tidy(c, s.feed, s.log)
    ensures var t := PlaceIn(c, s, u, p); Tidy(c, t.feed, t.log)
  {
    if c.excludeSeen {
      PlaceCountsOnce(c, s, u, p);
    }
    PlaceKeepsQueues(c, s, u, p);
    PlaceKeepsFree(c, s, u, p);
  }

  lemma OnceUnchanged(f: Feed, f': Feed, g: Log, g': Log)
    requires OncePerLife(f, g)
    requires f'.seen == f.seen && g'.pushes == g.pushes && g'.losses == g.losses
    ensures OncePerLife(f', g')
  {
    forall u: UserId, p: PostId ensures CountedOnce(f', g', u, p) {
      assert CountedOnce(f, g, u, p);
    }
  }

  lemma OnlyHistoryChanged(c: Settings, f: Feed, g: Log, g': Log)
    requires Tidy(c, f, g)
    requires g'.pushes == g.pushes && g'.losses == g.losses && g'.reached == g.reached
    ensures Tidy(c, f, g')
  {
    if c.excludeSeen {
      OnceUnchanged(f, f, g, g');
    }
  }

  lemma ClaimTidy(c: Settings, s: State, u: UserId, p: PostId)
    requires Tidy(c, s.feed, s.log)
    ensures var t := ClaimedBy(c, s, u, p); Tidy(c, t.feed, t.log)
  {
    var t := ClaimedBy(c, s, u, p);
    if c.excludeSeen {
      OnceUnchanged(s.feed, t.feed, s.log, t.log);
    }
    if p in QueueOf(s.feed, u) {
      RemoveFirstTakesOne(QueueOf(s.feed, u), p);
      RemoveFirstKeepsDistinct(QueueOf(s.feed, u), p);
    }
    forall v: UserId ensures v in t.feed.free <==> v in t.log.reached && HasRoom(t.feed, v, c.maxSlots) {
      assert v in s.feed.free <==> v in s.log.reached && HasRoom(s.feed, v, c.maxSlots);
    }
  }

  lemma FreeOrPurgeTidy(c: Settings, s: State, u: UserId, e: Event)
    requires Tidy(c, s.feed, s.log) && (e == MakeFree(u) || e == PurgeUser(u))
    ensures var t := AfterEvent(c, s, e); Tidy(c, t.feed, t.log)
  {
    var t := AfterEvent(c, s, e);
    if c.excludeSeen {
      OnceUnchanged(s.feed, t.feed, s.log, t.log);
    }
  }

  lemma LossTidy(c: Settings, s: State, p: PostId)
    requires Tidy(c, s.feed, s.log)
    ensures var t := LoseSeen(s, p); Tidy(c, t.feed, t.log)
  {
    var t := LoseSeen(s, p);
    if c.excludeSeen {
      forall v: UserId, q: PostId ensures CountedOnce(t.feed, t.log, v, q) {
        assert CountedOnce(s.feed, s.log, v, q);
      }
    }
  }

  lemma ProceedTidy(c: Settings, s: State, a: nat, drawn: seq<UserId>)
    requires Tidy(c, s.feed, s.log) && CanProceed(c, s, a, drawn)
    ensures var t := AfterProceed(c, s, a, drawn); Tidy(c, t.feed, t.log)
  {
    var pc := s.agents[a];
    if pc.Probing? {
      PlaceTidy(c, s, pc.reader, pc.probe);
    } else if pc.Working? && pc.stage.Placing? {
      if pc.stage.todo != [] {
        PlaceTidy(c, s, pc.stage.todo[0], pc.job.copy.op.post);
      }
    }
  }

  lemma BeginTidy(c: Settings, s: State, a: nat, o: Opening)
    requires Tidy(c, s.feed, s.log) && CanBegin(c, s, a, o)
    ensures var t := AfterBegin(c, s, a, o); Tidy(c, t.feed, t.log)
  {
    if o.Review? {
      ClaimTidy(c, s, o.reader, o.post);
    } else {
      OnlyHistoryChanged(c, s.feed, s.log, AfterBegin(c, s, a, o).log);
    }
  }

  lemma StepTidy(c: Settings, s: State, step: Step)
    requires Tidy(c, s.feed, s.log) && Enabled(c, s, step)
    ensures var t := After(c, s, step); Tidy(c, t.feed, t.log)
  {
    var t := After(c, s, step);
    match step
    case Begin(a, o) => BeginTidy(c, s, a, o);
    case Proceed(a, drawn) => ProceedTidy(c, s, a, drawn);
    case Happen(e) => EventTidy(c, s, e);
  }

  lemma EventTidy(c: Settings, s: State, e: Event)
    requires Tidy(c, s.feed, s.log) && CanHappen(c, s, e)
    ensures var t := AfterEvent(c, s, e); Tidy(c, t.feed, t.log)
  {
    match e
    case ClaimPost(u, p) => ClaimTidy(c, s, u, p);
    case MakeFree(u) => FreeOrPurgeTidy(c, s, u, e);
    case PurgeUser(u) => FreeOrPurgeTidy(c, s, u, e);
    case ErasePost(p) =>
      LossTidy(c, s, p);
      OnlyHistoryChanged(c, LoseSeen(s, p).feed, LoseSeen(s, p).log, AfterEvent(c, s, e).log);
    case ExpireSeen(p) => LossTidy(c, s, p);
    case _ =>
  }

  lemma {:induction false} RunTidy(c: Settings, s: State, steps: seq<Step>, t: State)
    requires Tidy(c, s.feed, s.log) && Leads(c, s, steps, t)
    ensures Tidy(c, t.feed, t.log)
    decreases |steps|
  {
    if steps != [] {
      StepTidy(c, s, steps[0]);
      RunTidy(c, After(c, s, steps[0]), steps[1..], t);
    }
  }

  /** At most one delivery per reader and post for each life of the delivered-to set. */
  lemma AtMostOncePerLife(c: Settings, t: State, u: UserId, p: PostId)
    requires Reachable(c, t) && c.excludeSeen
    ensures PushCount(t.log, u, p) <= 1 + LossCount(t.log, p)
    ensures (u, p) in t.log.pushes ==> t.log.pushes[(u, p)] <= 1 + if p in t.log.losses then t.log.losses[p] else 0
  {
    var s, steps :| Init(s) && Leads(c, s, steps, t);
    RunTidy(c, s, steps, t);
    assert CountedOnce(t.feed, t.log, u, p);
  }

  /** No reader is ever handed a post twice at once, whatever was lost or switched off. */
  lemma QueuesHoldNoRepeats(c: Settings, t: State, u: UserId)
    requires Reachable(c, t)
    ensures Distinct(QueueOf(t.feed, u))
  {
    var s, steps :| Init(s) && Leads(c, s, steps, t);
    RunTidy(c, s, steps, t);
  }

  /** `free_queue` is exactly the readers made reachable, not purged since, who have room. */
  lemma FreeSetIsExact(c: Settings, t: State, u: UserId)
    requires Reachable(c, t)
    ensures u in t.feed.free <==> u in t.log.reached && |QueueOf(t.feed, u)| < c.maxSlots
  {
    var s, steps :| Init(s) && Leads(c, s, steps, t);
    RunTidy(c, s, steps, t);
  }
}
