/** Rebuilding delivery from the tables: who has had what, and the posts a reader's free slots
    are filled with. */
module Backfill {
  import opened FeedTypes
  import opened FeedScripts
  import opened Ledger
  import opened Economy

  // ----- the delivered-to sets -----

  /** `g` knows what `f` knew, and these reviews besides. */
  ghost predicate Seeded(f: Feed, g: Feed, rows: set<Key>) {
    forall p: PostId, u: UserId :: u in SeenOf(g, p) <==> u in SeenOf(f, p) || (u, p) in rows
  }

  /** The delivered-to set of every post in these reviews expires at `expiry`. */
  ghost predicate Stamped(expiries: map<PostId, int>, rows: set<Key>, expiry: int) {
    forall k: Key :: k in rows ==> k.1 in expiries && expiries[k.1] == expiry
  }

  lemma SeededOneMore(f: Feed, g: Feed, h: Feed, rows: set<Key>, k: Key)
    requires Seeded(f, g, rows)
    requires forall p: PostId :: SeenOf(h, p) == if p == k.1 then SeenOf(g, p) + {k.0} else SeenOf(g, p)
    ensures Seeded(f, h, rows + {k})
  {
    forall p: PostId, u: UserId ensures u in SeenOf(h, p) <==> u in SeenOf(f, p) || (u, p) in rows + {k} {
      assert u in SeenOf(g, p) <==> u in SeenOf(f, p) || (u, p) in rows;
      assert k == (k.0, k.1);
    }
  }

  /** Re-create the delivered-to sets from the reviews. */
  method SeedSeen(c: Settings, store: Store, redis: Redis, now: int) returns (seeded: nat)
    modifies redis`seen, redis`seenExpiry
    ensures seeded == if c.excludeSeen then |store.reviews| else 0
    ensures Seeded(old(redis.View()), redis.View(), if c.excludeSeen then store.reviews.Keys else {})
    ensures c.excludeSeen ==> Stamped(redis.seenExpiry, store.reviews.Keys, now + c.seenTtl)
  {
    seeded := 0;
    if !c.excludeSeen {
      return;
    }
    ghost var before := redis.View();
    var left := store.reviews.Keys;
    while left != {}
      invariant left <= store.reviews.Keys && seeded == |store.reviews.Keys| - |left|
      invariant Seeded(before, redis.View(), store.reviews.Keys - left)
      invariant Stamped(redis.seenExpiry, store.reviews.Keys - left, now + c.seenTtl)
      decreases |left|
    {
      var k :| k in left;
      ghost var midway := redis.View();
      SeedOne(redis, k, now + c.seenTtl);
      SeededOneMore(before, midway, redis.View(), store.reviews.Keys - left, k);
      assert store.reviews.Keys - (left - {k}) == store.reviews.Keys - left + {k};
      seeded, left := seeded + 1, left - {k};
    }
    assert store.reviews.Keys - left == store.reviews.Keys;
  }

  /** Add one review's reader to its post's delivered-to set. */
  method SeedOne(redis: Redis, k: Key, expiry: int)
    modifies redis`seen, redis`seenExpiry
    ensures redis.seenExpiry == old(redis.seenExpiry)[k.1 := expiry]
    ensures forall p: PostId :: SeenOf(redis.View(), p) ==
              if p == k.1 then SeenOf(old(redis.View()), p) + {k.0} else SeenOf(old(redis.View()), p)
  {
    var had := if k.1 in redis.seen then redis.seen[k.1] else {};
    redis.seen := redis.seen[k.1 := had + {k.0}];
    redis.seenExpiry := redis.seenExpiry[k.1 := expiry];
  }

  /** Once they are re-created, no post a reader has reviewed can be pushed to them again. */
  lemma SeededGuards(f: Feed, g: Feed, reviews: map<Key, Review>, u: UserId, p: PostId)
    requires Seeded(f, g, reviews.Keys) && (u, p) in reviews
    ensures !Pushes(g, u, p, true)
  {
    assert u in SeenOf(g, p);
  }

  // ----- filling a queue -----

  predicate Descending(ps: seq<PostId>) {
    forall i, j :: 0 <= i < j < |ps| ==> ps[i] > ps[j]
  }

  lemma DescendingAppends(ps: seq<PostId>, p: PostId)
    requires Descending(ps) && forall q :: q in ps ==> q > p
    ensures Descending(ps + [p]) && forall q :: q in ps + [p] <==> q in ps || q == p
  {
    forall i | 0 <= i < |ps| ensures ps[i] > p {
      assert ps[i] in ps;
    }
  }

  /** The `limit` newest of some posts, newest first; ids follow the order of creation. */
  ghost predicate Newest(chosen: seq<PostId>, offered: set<PostId>, limit: nat) {
    && Descending(chosen) && |chosen| <= limit
    && (forall p :: p in chosen ==> p in offered)
    && (|chosen| < limit ==> forall p :: p in offered ==> p in chosen)
    && (forall p, q :: p in chosen && q in offered && q !in chosen ==> q < p)
  }

  lemma HasGreatest(s: set<PostId>)
    requires s != {}
    ensures exists p :: p in s && forall q :: q in s ==> q <= p
    decreases |s|
  {
    var p :| p in s;
    if s != {p} {
      HasGreatest(s - {p});
      var m :| m in s - {p} && forall q :: q in s - {p} ==> q <= m;
      var top := if p > m then p else m;
      forall q | q in s ensures q <= top {
        assert q == p || q in s - {p};
      }
      assert top in s;
    }
  }

  method NewestFirst(offered: set<PostId>, limit: nat) returns (chosen: seq<PostId>)
    ensures Newest(chosen, offered, limit)
  {
    chosen := [];
    var left := offered;
    while left != {} && |chosen| < limit
      invariant left <= offered && |chosen| <= limit && Descending(chosen)
      invariant forall p :: p in offered <==> p in left || p in chosen
      invariant forall p :: p in chosen ==> p !in left
      invariant forall p, q :: p in chosen && q in left ==> q < p
      decreases |left|
    {
      HasGreatest(left);
      var p :| p in left && forall q :: q in left ==> q <= p;
      DescendingAppends(chosen, p);
      chosen, left := chosen + [p], left - {p};
    }
  }

  /** The `place` script for one reader and each of `ps` in turn. */
  function PlacedEach(c: Settings, f: Feed, u: UserId, ps: seq<PostId>, expiry: int): Feed
    decreases |ps|
  {
    if ps == [] then f
    else PlacedEach(c, Placed(f, u, ps[0], c.maxSlots, c.excludeSeen, expiry), u, ps[1..], expiry)
  }

  /** Those of `ps` the reader has not had, in the order the queue shows them. */
  function Arriving(c: Settings, f: Feed, u: UserId, ps: seq<PostId>): (r: seq<PostId>)
    ensures |r| <= |ps| && forall p :: p in r <==> p in ps && !(c.excludeSeen && u in SeenOf(f, p))
  {
    if ps == [] then []
    else Arriving(c, f, u, ps[1..]) + if c.excludeSeen && u in SeenOf(f, ps[0]) then [] else [ps[0]]
  }

  lemma {:induction false} ArrivingCarries(c: Settings, f: Feed, g: Feed, u: UserId, ps: seq<PostId>)
    requires forall p :: p in ps ==> (u in SeenOf(f, p) <==> u in SeenOf(g, p))
    ensures Arriving(c, f, u, ps) == Arriving(c, g, u, ps)
  {
    if ps != [] {
      assert ps[0] in ps && forall p :: p in ps[1..] ==> p in ps;
      ArrivingCarries(c, f, g, u, ps[1..]);
    }
  }

  lemma DistinctTail(ps: seq<PostId>)
    requires Distinct(ps) && ps != []
    ensures Distinct(ps[1..]) && ps[0] !in ps[1..] && forall p :: p in ps <==> p == ps[0] || p in ps[1..]
  {
    assert ps == [ps[0]] + ps[1..];
  }

  /** What a backfill does to a queue: the new posts in front, each once. */
  lemma {:induction false} PlacedEachArrive(c: Settings, f: Feed, u: UserId, ps: seq<PostId>, expiry: int)
    requires Distinct(ps) && forall p :: p in ps ==> p !in QueueOf(f, u)
    ensures QueueOf(PlacedEach(c, f, u, ps, expiry), u) == Arriving(c, f, u, ps) + QueueOf(f, u)
    decreases |ps|
  {
    if ps != [] {
      var g := Placed(f, u, ps[0], c.maxSlots, c.excludeSeen, expiry);
      DistinctTail(ps);
      FirstArrives(c, f, u, ps[0], ps[1..], expiry);
      PlacedEachArrive(c, g, u, ps[1..], expiry);
      JoinedInOrder(Arriving(c, f, u, ps[1..]), if c.excludeSeen && u in SeenOf(f, ps[0]) then [] else [ps[0]], QueueOf(f, u));
    }
  }

  predicate Ascending(ps: seq<PostId>) {
    forall i, j :: 0 <= i < j < |ps| ==> ps[i] < ps[j]
  }

  /** Handed out newest first, they lie in the queue oldest first. */
  lemma {:induction false} ArrivingAscends(c: Settings, f: Feed, u: UserId, ps: seq<PostId>)
    requires Descending(ps)
    ensures Ascending(Arriving(c, f, u, ps))
  {
    if ps != [] {
      ArrivingAscends(c, f, u, ps[1..]);
      var rest := Arriving(c, f, u, ps[1..]);
      forall i | 0 <= i < |rest| ensures rest[i] < ps[0] {
        assert rest[i] in ps[1..];
      }
    }
  }

  lemma JoinedInOrder(x: seq<PostId>, y: seq<PostId>, z: seq<PostId>)
    ensures x + (y + z) == x + y + z
  {
  }

  lemma FirstArrives(c: Settings, f: Feed, u: UserId, p: PostId, rest: seq<PostId>, expiry: int)
    requires p !in rest && p !in QueueOf(f, u) && forall q :: q in rest ==> q !in QueueOf(f, u)
    ensures
      var g := Placed(f, u, p, c.maxSlots, c.excludeSeen, expiry);
      && Arriving(c, g, u, rest) == Arriving(c, f, u, rest)
      && QueueOf(g, u) == (if c.excludeSeen && u in SeenOf(f, p) then [] else [p]) + QueueOf(f, u)
      && forall q :: q in rest ==> q !in QueueOf(g, u)
  {
    ArrivingCarries(c, f, Placed(f, u, p, c.maxSlots, c.excludeSeen, expiry), u, rest);
  }

  /** And nobody else's queue is touched. */
  lemma {:induction false} PlacedEachSparesOthers(c: Settings, f: Feed, u: UserId, ps: seq<PostId>, expiry: int, v: UserId)
    requires v != u
    ensures QueueOf(PlacedEach(c, f, u, ps, expiry), v) == QueueOf(f, v)
    decreases |ps|
  {
    if ps != [] {
      PlacedEachSparesOthers(c, Placed(f, u, ps[0], c.maxSlots, c.excludeSeen, expiry), u, ps[1..], expiry, v);
    }
  }

  /** Fill a subscriber's free slots with the channel's newest posts they may have: in a language
      they read or in none, not reviewed, not queued, no test post, and not their own. Those they
      have had are passed over; the others go in front of the queue, oldest first. A full queue
      gets nothing, one within its slots stays within them, and nothing but this queue, the free
      set and the delivered-to sets moves. */
  method BackfillQueue(c: Settings, store: Store, redis: Redis, u: UserId, ch: ChannelId, languages: seq<Language>, now: int)
    returns (placed: nat, ghost chosen: seq<PostId>)
    modifies redis`queues, redis`freeQueue, redis`seen, redis`seenExpiry
    ensures |old(redis.Queue(u))| >= c.maxSlots ==> chosen == [] && redis.View() == old(redis.View())
    ensures |old(redis.Queue(u))| < c.maxSlots ==>
              var offered := set p | p in store.posts && store.posts[p].route.channel == ch
                                  && (store.posts[p].route.language in languages || store.posts[p].route.language == UNSPECIFIED)
                                  && (u, p) !in store.reviews && p !in old(redis.Queue(u)) && !store.posts[p].probe
                                  && !(c.excludeOwn && store.posts[p].author == Some(u));
              Newest(chosen, offered, c.maxSlots - |old(redis.Queue(u))|)
    ensures redis.View() == PlacedEach(c, old(redis.View()), u, chosen, now + c.seenTtl)
    ensures |redis.Queue(u)| == placed + |old(redis.Queue(u))|
    ensures redis.Queue(u)[placed..] == old(redis.Queue(u)) && Ascending(redis.Queue(u)[..placed])
    ensures forall p :: p in redis.Queue(u)[..placed] <==>
              p in chosen && !(c.excludeSeen && u in SeenOf(old(redis.View()), p))
    ensures |redis.Queue(u)| <= c.maxSlots || redis.Queue(u) == old(redis.Queue(u))
    ensures forall v :: v != u ==> QueueOf(redis.View(), v) == QueueOf(old(redis.View()), v)
  {
    placed, chosen := 0, [];
    var queue := redis.Queue(u);
    if |queue| >= c.maxSlots {
      return;
    }
    var offered := set p | p in store.posts && store.posts[p].route.channel == ch
                        && (store.posts[p].route.language in languages || store.posts[p].route.language == UNSPECIFIED)
                        && (u, p) !in store.reviews && p !in queue && !store.posts[p].probe
                        && !(c.excludeOwn && store.posts[p].author == Some(u));
    var posts := NewestFirst(offered, c.maxSlots - |queue|);
    chosen := posts;
    ghost var before := redis.View();
    PlacedEachArrive(c, before, u, posts, now + c.seenTtl);
    ArrivingAscends(c, before, u, posts);
    forall v | v != u ensures QueueOf(PlacedEach(c, before, u, posts, now + c.seenTtl), v) == QueueOf(before, v) {
      PlacedEachSparesOthers(c, before, u, posts, now + c.seenTtl, v);
    }
    placed := PlaceEach(c, redis, u, posts, now + c.seenTtl);
    assert redis.Queue(u) == Arriving(c, before, u, posts) + queue;
  }

  lemma PlacedEachNext(c: Settings, f: Feed, u: UserId, ps: seq<PostId>, i: nat, expiry: int)
    requires i < |ps|
    ensures PlacedEach(c, f, u, ps[i..], expiry)
            == PlacedEach(c, Placed(f, u, ps[i], c.maxSlots, c.excludeSeen, expiry), u, ps[i + 1..], expiry)
  {
    assert ps[i..][1..] == ps[i + 1..];
  }

  /** Place each post, counting a refusal as no delivery. */
  method PlaceEach(c: Settings, redis: Redis, u: UserId, ps: seq<PostId>, expiry: int) returns (placed: nat)
    requires Distinct(ps) && forall p :: p in ps ==> p !in redis.Queue(u)
    modifies redis`queues, redis`freeQueue, redis`seen, redis`seenExpiry
    ensures redis.View() == PlacedEach(c, old(redis.View()), u, ps, expiry)
    ensures placed == |Arriving(c, old(redis.View()), u, ps)|
  {
    ghost var f := redis.View();
    placed := 0;
    var i := 0;
    while i < |ps|
      invariant 0 <= i <= |ps|
      invariant PlacedEach(c, redis.View(), u, ps[i..], expiry) == PlacedEach(c, f, u, ps, expiry)
      invariant placed + |Arriving(c, redis.View(), u, ps[i..])| == |Arriving(c, f, u, ps)|
      invariant forall p :: p in ps[i..] ==> p !in redis.Queue(u)
    {
      PlaceStep(c, redis.View(), u, ps, i, expiry);
      var reply := redis.Place(u, ps[i], c.maxSlots, c.excludeSeen, expiry);
      if reply != -1 {
        placed := placed + 1;
      }
      i := i + 1;
    }
    assert ps[i..] == [];
  }

  /** One placement of a post that is not queued: refused, or one more arrival. */
  lemma PlaceStep(c: Settings, f: Feed, u: UserId, ps: seq<PostId>, i: nat, expiry: int)
    requires Distinct(ps) && i < |ps| && forall p :: p in ps[i..] ==> p !in QueueOf(f, u)
    ensures
      var g := Placed(f, u, ps[i], c.maxSlots, c.excludeSeen, expiry);
      && PlacedEach(c, f, u, ps[i..], expiry) == PlacedEach(c, g, u, ps[i + 1..], expiry)
      && |Arriving(c, f, u, ps[i..])| == |Arriving(c, g, u, ps[i + 1..])| + (if Refuses(f, u, ps[i], c.excludeSeen) then 0 else 1)
      && forall p :: p in ps[i + 1..] ==> p !in QueueOf(g, u)
  {
    var g := Placed(f, u, ps[i], c.maxSlots, c.excludeSeen, expiry);
    PlacedEachNext(c, f, u, ps, i, expiry);
    assert ps[i..][1..] == ps[i + 1..] && ps[i] in ps[i..];
    assert forall p :: p in ps[i + 1..] ==> p in ps[i..] && p != ps[i];
    ArrivingCarries(c, f, g, u, ps[i + 1..]);
  }
}
