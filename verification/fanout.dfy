/** Fanning one operation out: selection by sampling, the exhaustion test, and the outcome. */
module Fanout {
  import opened FeedTypes
  import R = Rounding
  import opened FeedScripts
  import opened Dispatch

  // ----- who may receive -----

  function AudienceIn(members: set<(AudienceKey, UserId)>, r: Route): set<UserId> {
    set p | p in members && p.0 == Audience(r) :: p.1
  }

  /** In the audience, free, not the author, and not delivered to before. */
  function Eligible(c: Settings, audience: set<UserId>, f: Feed, op: Op): set<UserId> {
    set u | u in audience && u in f.free && u !in AuthorSet(c, op) && !(c.excludeSeen && u in SeenOf(f, op.post))
  }

  /** An audience exists and every member of it is the author or has had the post. */
  predicate Exhausted(c: Settings, audience: set<UserId>, seen: set<UserId>, op: Op) {
    audience != {} && forall u :: u in audience ==> u in AuthorSet(c, op) || (c.excludeSeen && u in seen)
  }

  function Members(us: seq<UserId>): set<UserId> {
    set u | u in us
  }

  lemma {:induction false} DistinctSize(us: seq<UserId>)
    requires Distinct(us)
    ensures |Members(us)| == |us|
  {
    if us != [] {
      var rest := us[1..];
      assert forall i :: 0 <= i < |rest| ==> rest[i] == us[i + 1];
      DistinctSize(rest);
      assert us[0] !in rest;
      assert Members(us) == Members(rest) + {us[0]};
    }
  }

  lemma EqualBySize(x: set<UserId>, y: set<UserId>)
    requires x <= y && |x| == |y|
    ensures x == y
  {
    assert y == x + (y - x);
  }

  // ----- selection -----

  /** `SRANDMEMBER key count`: distinct members, as many as asked for or all there are. */
  method SRandMember(audience: set<UserId>, count: nat) returns (drawn: seq<UserId>)
    ensures Distinct(drawn) && (forall u :: u in drawn ==> u in audience)
    ensures |drawn| == R.Min(count, |audience|)
  {
    drawn := [];
    var left := audience;
    while |drawn| < count && left != {}
      invariant Distinct(drawn) && left <= audience
      invariant forall u :: u in drawn ==> u in audience && u !in left
      invariant |drawn| + |left| == |audience| && |drawn| <= count
      decreases |left|
    {
      var u :| u in left;
      drawn, left := drawn + [u], left - {u};
    }
  }

  lemma SelectionExact(c: Settings, audience: set<UserId>, f: Feed, op: Op, drawn: seq<UserId>, kept: seq<UserId>)
    requires Distinct(drawn) && Members(drawn) == audience
    requires Distinct(kept) && Members(kept) == Members(drawn) * Eligible(c, audience, f, op)
    ensures |kept| == |Eligible(c, audience, f, op)|
  {
    DistinctSize(kept);
    assert Members(kept) == Eligible(c, audience, f, op);
  }

  /** The three filters keep exactly the eligible among the drawn. */
  lemma FiltersKeepEligible(c: Settings, audience: set<UserId>, f: Feed, op: Op,
                            drawn: seq<UserId>, roomy: seq<UserId>, kept: seq<UserId>)
    requires Distinct(drawn) && Members(drawn) <= audience
    requires roomy == Filter(Filter(drawn, AuthorSet(c, op), false), f.free, true)
    requires kept == if c.excludeSeen then Filter(roomy, SeenOf(f, op.post), false) else roomy
    ensures Distinct(kept) && Members(kept) == Members(drawn) * Eligible(c, audience, f, op)
  {
  }

  /** Up to `k` recipients. When the sample covers the audience none is missed. */
  method SelectRecipients(c: Settings, redis: Redis, op: Op, k: nat) returns (recipients: seq<UserId>)
    ensures Distinct(recipients) && |recipients| <= k
    ensures Members(recipients) <= Eligible(c, AudienceIn(redis.members, op.route), redis.View(), op)
    ensures |AudienceIn(redis.members, op.route)| <= k * c.sampleMultiplier ==>
              |recipients| == R.Min(k, |Eligible(c, AudienceIn(redis.members, op.route), redis.View(), op)|)
  {
    ghost var f := redis.View();
    var audience := AudienceIn(redis.members, op.route);
    var drawn := SRandMember(audience, k * c.sampleMultiplier);
    DistinctSize(drawn);
    if |audience| <= k * c.sampleMultiplier {
      EqualBySize(Members(drawn), audience);
    }
    var others := Filter(drawn, AuthorSet(c, op), false);
    var roomy := Filter(others, redis.freeQueue, true);
    var kept := roomy;
    if c.excludeSeen {
      kept := Filter(roomy, if op.post in redis.seen then redis.seen[op.post] else {}, false);
    }
    FiltersKeepEligible(c, audience, f, op, drawn, roomy, kept);
    if Members(drawn) == audience {
      SelectionExact(c, audience, f, op, drawn, kept);
    }
    recipients := Take(kept, k);
    assert Members(recipients) <= Members(kept);
  }

  // ----- the exhaustion test -----

  lemma SomeoneLeft(audience: set<UserId>, covered: set<UserId>)
    requires |covered| < |audience|
    ensures exists u :: u in audience && u !in covered
  {
    assert audience == (audience - covered) + (audience * covered);
    assert covered == (audience * covered) + (covered - audience);
    var u :| u in audience - covered;
  }

  /** Two sizes that rule exhaustion out: the seen set and one author cannot cover the rest. */
  lemma GateSound(c: Settings, audience: set<UserId>, seen: set<UserId>, op: Op)
    requires (if c.excludeSeen then |seen| else 0) + 1 < |audience|
    ensures !Exhausted(c, audience, seen, op)
  {
    var had := if c.excludeSeen then seen else {};
    var covered := had + AuthorSet(c, op);
    assert |covered| <= |had| + 1;
    SomeoneLeft(audience, covered);
  }

  /** Reader by reader: not exhausted with nobody there, or while someone there is neither the
      author nor served. */
  lemma ExhaustedByReader(c: Settings, members: set<(AudienceKey, UserId)>, seen: set<UserId>, op: Op)
    ensures !Exhausted(c, AudienceIn(members, op.route), seen, op) <==>
              || (forall u :: (Audience(op.route), u) !in members)
              || exists u :: (Audience(op.route), u) in members && !(c.excludeOwn && op.author == Some(u)) && !(c.excludeSeen && u in seen)
  {
    var audience := AudienceIn(members, op.route);
    forall u ensures u in audience <==> (Audience(op.route), u) in members {
      assert (Audience(op.route), u).0 == Audience(op.route);
    }
  }

  /** Cheap gate first, the full difference only when the gate cannot decide. */
  method HasEligibleRecipient(c: Settings, redis: Redis, op: Op) returns (eligible: bool)
    ensures eligible <==> !Exhausted(c, AudienceIn(redis.members, op.route), SeenOf(redis.View(), op.post), op)
  {
    if !(c.excludeSeen || c.excludeOwn) {
      return true;
    }
    var audience := AudienceIn(redis.members, op.route);
    if |audience| == 0 {
      return true;
    }
    var seen := if op.post in redis.seen then redis.seen[op.post] else {};
    var seenCount := if c.excludeSeen then |seen| else 0;
    if seenCount + 1 < |audience| {
      GateSound(c, audience, seen, op);
      return true;
    }
    var remaining := if c.excludeSeen then audience - seen else audience;
    if op.author.Some? && c.excludeOwn {
      remaining := remaining - {op.author.value};
    }
    return remaining != {};
  }

  /** Once exhausted, a route stays so until it gains a reader, empties, or forgets. */
  lemma ExhaustionLasts(c: Settings, audience: set<UserId>, seen: set<UserId>, op: Op,
                        audience': set<UserId>, seen': set<UserId>)
    requires Exhausted(c, audience, seen, op)
    ensures audience' <= audience && audience' != {} && seen <= seen' ==> Exhausted(c, audience', seen', op)
    ensures !Exhausted(c, audience', seen', op) ==>
              audience' == {} || (exists u :: u in audience' && u !in audience) || (exists u :: u in seen && u !in seen')
  {
  }

  // ----- fanning out -----

  /** `f` became `g` by queueing `p` for `served`, first wherever it was not queued yet;
      those who are then full leave the free set. */
  ghost predicate QueuedFor(c: Settings, f: Feed, g: Feed, p: PostId, served: seq<UserId>) {
    && (forall u: UserId :: QueueOf(g, u) == if u in served && p !in QueueOf(f, u) then [p] + QueueOf(f, u) else QueueOf(f, u))
    && (forall u: UserId :: u in g.free <==>
          u in f.free && !(u in served && p !in QueueOf(f, u) && |QueueOf(g, u)| >= c.maxSlots))
  }

  /** `f` became `g` by recording `p` as delivered to those of `served` it was new to. */
  ghost predicate RecordedFor(c: Settings, f: Feed, g: Feed, p: PostId, served: seq<UserId>) {
    && (forall u: UserId :: u in SeenOf(g, p) <==>
          u in SeenOf(f, p) || (c.excludeSeen && u in served && p !in QueueOf(f, u)))
    && (forall q: PostId :: q != p ==> SeenOf(g, q) == SeenOf(f, q))
  }

  ghost predicate DeliveredTo(c: Settings, f: Feed, g: Feed, p: PostId, served: seq<UserId>) {
    QueuedFor(c, f, g, p, served) && RecordedFor(c, f, g, p, served)
  }

  /** The `place` script run for each of `us` in turn. */
  function PlacedAll(c: Settings, f: Feed, p: PostId, us: seq<UserId>, expiry: int): Feed {
    if us == [] then f
    else Placed(PlacedAll(c, f, p, us[..|us| - 1], expiry), us[|us| - 1], p, c.maxSlots, c.excludeSeen, expiry)
  }

  lemma QueueOne(c: Settings, f: Feed, g: Feed, p: PostId, served: seq<UserId>, u: UserId, expiry: int)
    requires QueuedFor(c, f, g, p, served) && u !in served && !Refuses(g, u, p, c.excludeSeen)
    ensures QueuedFor(c, f, Placed(g, u, p, c.maxSlots, c.excludeSeen, expiry), p, served + [u])
  {
    var h := Placed(g, u, p, c.maxSlots, c.excludeSeen, expiry);
    assert QueueOf(g, u) == QueueOf(f, u);
    forall v: UserId | v != u ensures QueueOf(h, v) == QueueOf(g, v) && (v in h.free <==> v in g.free) {
    }
  }

  lemma RecordOne(c: Settings, f: Feed, g: Feed, p: PostId, served: seq<UserId>, u: UserId, expiry: int)
    requires QueuedFor(c, f, g, p, served) && RecordedFor(c, f, g, p, served) && u !in served
    requires !(c.excludeSeen && u in SeenOf(f, p))
    ensures !Refuses(g, u, p, c.excludeSeen)
    ensures RecordedFor(c, f, Placed(g, u, p, c.maxSlots, c.excludeSeen, expiry), p, served + [u])
  {
    assert QueueOf(g, u) == QueueOf(f, u);
  }

  /** Nobody in `us` is refused for having had the post before. */
  predicate NewTo(c: Settings, f: Feed, p: PostId, us: seq<UserId>) {
    forall u :: u in us ==> !(c.excludeSeen && u in SeenOf(f, p))
  }

  lemma PrefixNew(c: Settings, f: Feed, p: PostId, us: seq<UserId>, i: nat)
    requires Distinct(us) && NewTo(c, f, p, us) && i < |us|
    ensures Distinct(us[..i]) && NewTo(c, f, p, us[..i])
    ensures us[i] !in us[..i] && !(c.excludeSeen && us[i] in SeenOf(f, p))
    ensures us[..i + 1] == us[..i] + [us[i]] && us[..i + 1][..i] == us[..i]
  {
    assert us[i] in us;
  }

  /** Placing for distinct readers who have not had the post delivers to each of them. */
  lemma {:induction false} PlacedAllDelivers(c: Settings, f: Feed, p: PostId, us: seq<UserId>, expiry: int)
    requires Distinct(us) && NewTo(c, f, p, us)
    ensures DeliveredTo(c, f, PlacedAll(c, f, p, us, expiry), p, us)
  {
    if us != [] {
      var n := |us| - 1;
      PrefixNew(c, f, p, us, n);
      assert us == us[..n + 1];
      var g := PlacedAll(c, f, p, us[..n], expiry);
      PlacedAllDelivers(c, f, p, us[..n], expiry);
      RecordOne(c, f, g, p, us[..n], us[n], expiry);
      QueueOne(c, f, g, p, us[..n], us[n], expiry);
    }
  }

  lemma PlacedNext(c: Settings, f: Feed, p: PostId, us: seq<UserId>, i: nat, expiry: int)
    requires Distinct(us) && NewTo(c, f, p, us) && i < |us|
    ensures
      var g := PlacedAll(c, f, p, us[..i], expiry);
      && !Refuses(g, us[i], p, c.excludeSeen)
      && PlacedAll(c, f, p, us[..i + 1], expiry) == Placed(g, us[i], p, c.maxSlots, c.excludeSeen, expiry)
  {
    PrefixNew(c, f, p, us, i);
    PlacedAllDelivers(c, f, p, us[..i], expiry);
    RecordOne(c, f, PlacedAll(c, f, p, us[..i], expiry), p, us[..i], us[i], expiry);
  }

  lemma EligibleNew(c: Settings, audience: set<UserId>, f: Feed, op: Op, us: seq<UserId>)
    requires Members(us) <= Eligible(c, audience, f, op)
    ensures NewTo(c, f, op.post, us)
  {
    forall u | u in us ensures !(c.excludeSeen && u in SeenOf(f, op.post)) {
      assert u in Members(us);
    }
  }

  /** Place for every recipient; selected in the same call, none of them is refused. */
  method PlaceAll(c: Settings, redis: Redis, op: Op, recipients: seq<UserId>, now: int) returns (delivered: nat)
    requires Distinct(recipients) && NewTo(c, redis.View(), op.post, recipients)
    modifies redis`queues, redis`freeQueue, redis`seen, redis`seenExpiry
    ensures delivered == |recipients|
    ensures redis.View() == PlacedAll(c, old(redis.View()), op.post, recipients, now + c.seenTtl)
  {
    ghost var f := redis.View();
    delivered := 0;
    var i := 0;
    while i < |recipients|
      invariant 0 <= i == delivered <= |recipients|
      invariant redis.View() == PlacedAll(c, f, op.post, recipients[..i], now + c.seenTtl)
    {
      PlacedNext(c, f, op.post, recipients, i, now + c.seenTtl);
      var reply := redis.Place(recipients[i], op.post, c.maxSlots, c.excludeSeen, now + c.seenTtl);
      assert redis.View() == PlacedAll(c, f, op.post, recipients[..i + 1], now + c.seenTtl);
      if reply != -1 {
        delivered := delivered + 1;
      }
      i := i + 1;
    }
    assert recipients[..i] == recipients;
  }

  /** What selection promises reader by reader: whoever is served is in the route's audience, free,
      not the author and new to the post; and if fewer are served than the operation is worth
      although the sample covered the audience, nobody else was all of that. */
  lemma ServedAreEligible(c: Settings, members: set<(AudienceKey, UserId)>, f: Feed, op: Op, served: seq<UserId>)
    requires Distinct(served) && Members(served) <= Eligible(c, AudienceIn(members, op.route), f, op)
    ensures forall u :: u in served ==>
              && (Audience(op.route), u) in members && u in f.free
              && !(c.excludeOwn && op.author == Some(u)) && !(c.excludeSeen && u in SeenOf(f, op.post))
    ensures |served| == |Eligible(c, AudienceIn(members, op.route), f, op)| ==>
              forall u ::
                && (Audience(op.route), u) in members && u in f.free
                && !(c.excludeOwn && op.author == Some(u)) && !(c.excludeSeen && u in SeenOf(f, op.post))
                ==> u in served
  {
    var eligible := Eligible(c, AudienceIn(members, op.route), f, op);
    forall u | u in served ensures u in eligible {
      assert u in Members(served);
    }
    DistinctSize(served);
    if |served| == |eligible| {
      EqualBySize(Members(served), eligible);
      forall u | (Audience(op.route), u) in members && u in f.free && !(c.excludeOwn && op.author == Some(u))
                 && !(c.excludeSeen && u in SeenOf(f, op.post))
        ensures u in served
      {
        assert (Audience(op.route), u).0 == Audience(op.route);
        assert u in eligible;
      }
    }
  }

  /** Select recipients and place for each: what the operation delivers if its post lives. */
  method Deliver(c: Settings, redis: Redis, op: Op, now: int) returns (delivered: nat, ghost served: seq<UserId>)
    modifies redis`queues, redis`freeQueue, redis`seen, redis`seenExpiry
    ensures delivered == |served| <= Reach(c, op) && Distinct(served)
    ensures op.fanout.Some? && op.fanout.value >= 1 ==> delivered <= op.fanout.value
    ensures forall u :: u in served ==>
              && (Audience(op.route), u) in redis.members && u in old(redis.freeQueue)
              && !(c.excludeOwn && op.author == Some(u)) && !(c.excludeSeen && u in SeenOf(old(redis.View()), op.post))
    ensures |AudienceIn(redis.members, op.route)| <= Reach(c, op) * c.sampleMultiplier ==>
              delivered == R.Min(Reach(c, op), |old(Eligible(c, AudienceIn(redis.members, op.route), redis.View(), op))|)
    ensures |AudienceIn(redis.members, op.route)| <= Reach(c, op) * c.sampleMultiplier && delivered < Reach(c, op) ==>
              forall u ::
                && (Audience(op.route), u) in redis.members && u in old(redis.freeQueue)
                && !(c.excludeOwn && op.author == Some(u)) && !(c.excludeSeen && u in SeenOf(old(redis.View()), op.post))
                ==> u in served
    ensures DeliveredTo(c, old(redis.View()), redis.View(), op.post, served)
    ensures delivered == 0 ==> redis.View() == old(redis.View())
  {
    var recipients := SelectRecipients(c, redis, op, Reach(c, op));
    EligibleNew(c, AudienceIn(redis.members, op.route), redis.View(), op, recipients);
    ServedAreEligible(c, redis.members, redis.View(), op, recipients);
    PlacedAllDelivers(c, redis.View(), op.post, recipients, now + c.seenTtl);
    delivered := PlaceAll(c, redis, op, recipients, now);
    served := recipients;
  }

  /** Delivering to nobody changes nothing. */
  lemma DeliveredToNobody(c: Settings, f: Feed, p: PostId)
    ensures DeliveredTo(c, f, f, p, [])
  {
  }

  function Retired(counts: map<Route, int>, r: Route): map<Route, int> {
    if CountIn(counts, r) <= 0 then counts else Changed(counts, r, -1)
  }

  /** Fan an operation out and settle it: delivered, erased and exhausted operations are
      retired; otherwise it is parked, still counted, with its deadline kept. */
  method ProcessOperation(c: Settings, redis: Redis, op: Op, now: int) returns (delivered: nat, ghost served: seq<UserId>)
    modifies redis`queues, redis`freeQueue, redis`seen, redis`seenExpiry
    modifies redis`outstanding, redis`retry, redis`nextMember
    ensures delivered == |served| <= Reach(c, op) && Distinct(served)
    ensures op.fanout.Some? && op.fanout.value >= 1 ==> delivered <= op.fanout.value
    ensures forall u :: u in served ==>
              && (Audience(op.route), u) in redis.members && u in old(redis.freeQueue)
              && !(c.excludeOwn && op.author == Some(u)) && !(c.excludeSeen && u in SeenOf(old(redis.View()), op.post))
    ensures op.post !in redis.deleted && |AudienceIn(redis.members, op.route)| <= Reach(c, op) * c.sampleMultiplier ==>
              && delivered == R.Min(Reach(c, op), |old(Eligible(c, AudienceIn(redis.members, op.route), redis.View(), op))|)
              && (delivered < Reach(c, op) ==>
                    forall u ::
                      && (Audience(op.route), u) in redis.members && u in old(redis.freeQueue)
                      && !(c.excludeOwn && op.author == Some(u)) && !(c.excludeSeen && u in SeenOf(old(redis.View()), op.post))
                      ==> u in served)
    ensures DeliveredTo(c, old(redis.View()), redis.View(), op.post, served)
    ensures op.post in redis.deleted ==> delivered == 0
    ensures redis.nextMember != old(redis.nextMember) <==>
              && op.post !in redis.deleted && delivered == 0
              && ((forall u :: (Audience(op.route), u) !in redis.members)
                  || exists u :: && (Audience(op.route), u) in redis.members && !(c.excludeOwn && op.author == Some(u))
                                 && !(c.excludeSeen && u in SeenOf(old(redis.View()), op.post)))
    ensures
      var parked := op.post !in redis.deleted && delivered == 0
                    && !Exhausted(c, AudienceIn(redis.members, op.route), SeenOf(old(redis.View()), op.post), op);
      && redis.outstanding == (if parked then old(redis.outstanding) else Retired(old(redis.outstanding), op.route))
      && redis.nextMember == old(redis.nextMember) + (if parked then 1 else 0)
      && redis.retry == (if parked
           then old(redis.retry)[old(redis.nextMember) := Waiting(ParkedOp(c, op, now), now + c.retryInterval)]
           else old(redis.retry))
  {
    if op.post in redis.deleted {
      DeliveredToNobody(c, redis.View(), op.post);
      var _ := redis.Retire(op.route);
      return 0, [];
    }
    delivered, served := Deliver(c, redis, op, now);
    if delivered > 0 {
      var _ := redis.Retire(op.route);
      return;
    }
    ExhaustedByReader(c, redis.members, SeenOf(redis.View(), op.post), op);
    var eligible := HasEligibleRecipient(c, redis, op);
    if eligible {
      ScheduleRetry(c, redis, op, now);
    } else {
      var _ := redis.Retire(op.route);
    }
  }

  /** Fan one stream entry out, then delete it. Every counter stays exact: it moves when the
      operation ends and not when it is parked. */
  method ProcessAndConfirm(c: Settings, redis: Redis, entry: nat, now: int) returns (delivered: nat)
    requires Accounted(redis) && entry in redis.stream
    modifies redis`queues, redis`freeQueue, redis`seen, redis`seenExpiry
    modifies redis`outstanding, redis`retry, redis`nextMember, redis`stream
    ensures Accounted(redis) && redis.stream == old(redis.stream) - {entry}
    ensures forall m :: m in old(redis.retry) ==> m in redis.retry && redis.retry[m] == old(redis.retry)[m]
    ensures
      var route := old(redis.stream)[entry].route;
      || (redis.retry == old(redis.retry) && redis.outstanding == Changed(old(redis.outstanding), route, -1))
      || (|redis.retry| == |old(redis.retry)| + 1 && redis.outstanding == old(redis.outstanding) && delivered == 0)
  {
    var op := redis.stream[entry];
    EndKeepsExact(redis.outstanding, redis.stream, redis.retry, entry);
    ParkKeepsExact(redis.outstanding, redis.stream, redis.retry, entry, redis.nextMember,
                   Waiting(ParkedOp(c, op, now), now + c.retryInterval));
    ghost var served;
    delivered, served := ProcessOperation(c, redis, op, now);
    redis.stream := redis.stream - {entry};
  }
}
