/** The delivery state in Redis and the Lua scripts that change it.
    Every script is one atomic step; `Redis` holds the keys, and each script method is
    proved against a function of the delivery state, which the protocol model reuses. */
module FeedScripts {
  import opened FeedTypes

  /** Per-user queues, the free set, and the per-post delivered-to sets with their expiry. */
  datatype Feed = Feed(queues: map<UserId, seq<PostId>>, free: set<UserId>,
                       seen: map<PostId, set<UserId>>, seenExpiry: map<PostId, int>)

  function QueueOf(f: Feed, u: UserId): seq<PostId> {
    if u in f.queues then f.queues[u] else []
  }

  function SeenOf(f: Feed, p: PostId): set<UserId> {
    if p in f.seen then f.seen[p] else {}
  }

  predicate HasRoom(f: Feed, u: UserId, slots: nat) {
    |QueueOf(f, u)| < slots
  }

  /** Whether a placement of `p` for `u` really pushes: not queued, and not had before. */
  predicate Pushes(f: Feed, u: UserId, p: PostId, exclude: bool) {
    p !in QueueOf(f, u) && !(exclude && u in SeenOf(f, p))
  }

  /** Whether `place` answers with a refusal: not queued, but delivered before. */
  predicate Refuses(f: Feed, u: UserId, p: PostId, exclude: bool) {
    p !in QueueOf(f, u) && exclude && u in SeenOf(f, p)
  }

  function Placed(f: Feed, u: UserId, p: PostId, slots: nat, exclude: bool, expiry: int): Feed {
    if !Pushes(f, u, p, exclude) then f
    else
      var queue := [p] + QueueOf(f, u);
      Feed(f.queues[u := queue],
           if |queue| >= slots then f.free - {u} else f.free,
           if exclude then f.seen[p := SeenOf(f, p) + {u}] else f.seen,
           if exclude then f.seenExpiry[p := expiry] else f.seenExpiry)
  }

  function RemoveFirst(s: seq<PostId>, p: PostId): seq<PostId> {
    if s == [] then []
    else if s[0] == p then s[1..]
    else [s[0]] + RemoveFirst(s[1..], p)
  }

  function Claimed(f: Feed, u: UserId, p: PostId, slots: nat): Feed {
    if p !in QueueOf(f, u) then f
    else
      var queue := RemoveFirst(QueueOf(f, u), p);
      f.(queues := f.queues[u := queue],
         free := if |queue| < slots then f.free + {u} else f.free)
  }

  function FreeEnsured(f: Feed, u: UserId, slots: nat): Feed {
    if HasRoom(f, u, slots) then f.(free := f.free + {u}) else f
  }

  /** The part of an account purge that concerns delivery. */
  function Purged(f: Feed, u: UserId): Feed {
    f.(queues := f.queues - {u}, free := f.free - {u})
  }

  /** Dropping one post's delivered-to set: an expiry, or the erasure of the post. */
  function SeenLost(f: Feed, p: PostId): Feed {
    f.(seen := f.seen - {p}, seenExpiry := f.seenExpiry - {p})
  }

  /** Claiming takes out exactly one copy. */
  lemma {:induction false} RemoveFirstTakesOne(s: seq<PostId>, p: PostId)
    requires p in s
    ensures |RemoveFirst(s, p)| == |s| - 1
    ensures multiset(RemoveFirst(s, p)) == multiset(s) - multiset{p}
  {
    assert s == [s[0]] + s[1..];
    if s[0] != p {
      RemoveFirstTakesOne(s[1..], p);
      assert RemoveFirst(s, p) == [s[0]] + RemoveFirst(s[1..], p);
    }
  }

  /** A claim of a post queued once leaves the others, still each queued once. */
  lemma {:induction false} RemoveFirstKeepsDistinct(s: seq<PostId>, p: PostId)
    requires p in s && Distinct(s)
    ensures Distinct(RemoveFirst(s, p))
    ensures forall x :: x in RemoveFirst(s, p) <==> x in s && x != p
  {
    var rest := s[1..];
    assert s == [s[0]] + rest;
    assert s[0] !in rest by {
      assert forall i :: 0 <= i < |rest| ==> rest[i] == s[i + 1];
    }
    assert Distinct(rest) by {
      assert forall i :: 0 <= i < |rest| ==> rest[i] == s[i + 1];
    }
    if s[0] != p {
      RemoveFirstKeepsDistinct(rest, p);
      assert RemoveFirst(s, p) == [s[0]] + RemoveFirst(rest, p);
    }
  }

  /** The keys of the feed in Redis. */
  class Redis {
    var queues: map<UserId, seq<PostId>>
    var freeQueue: set<UserId>
    var seen: map<PostId, set<UserId>>
    var seenExpiry: map<PostId, int>
    var tokens: map<UserId, int>
    var outstanding: map<Route, int>
    var stream: map<nat, Op>
    var nextEntry: nat
    var retry: map<nat, Waiting>
    var nextMember: nat
    var deleted: set<PostId>
    /** Every audience set, as pairs of its name and a member. */
    var members: set<(AudienceKey, UserId)>
    var subsTotal: int

    constructor ()
      ensures View() == Feed(map[], {}, map[], map[])
      ensures tokens == map[] && outstanding == map[] && deleted == {}
      ensures stream == map[] && nextEntry == 0 && retry == map[] && nextMember == 0
      ensures members == {} && subsTotal == 0
    {
      queues, freeQueue, seen, seenExpiry := map[], {}, map[], map[];
      tokens, outstanding, deleted := map[], map[], {};
      stream, nextEntry, retry, nextMember := map[], 0, map[], 0;
      members, subsTotal := {}, 0;
    }

    function View(): Feed
      reads this`queues, this`freeQueue, this`seen, this`seenExpiry
    {
      Feed(queues, freeQueue, seen, seenExpiry)
    }

    function Queue(u: UserId): seq<PostId>
      reads this`queues
    {
      if u in queues then queues[u] else []
    }

    function Balance(u: UserId): int
      reads this`tokens
    {
      if u in tokens then tokens[u] else 0
    }

    function Outstanding(r: Route): int
      reads this`outstanding
    {
      if r in outstanding then outstanding[r] else 0
    }

    /** Spend `price` when the balance covers it; -1 and no change otherwise. */
    method Spend(u: UserId, price: int) returns (reply: int)
      modifies this`tokens
      ensures old(Balance(u)) < price ==> reply == -1 && tokens == old(tokens)
      ensures old(Balance(u)) >= price ==>
                tokens == old(tokens)[u := old(Balance(u)) - price] && reply == Balance(u) == old(Balance(u)) - price
    {
      var bal := Balance(u);
      if bal < price {
        return -1;
      }
      tokens := tokens[u := bal - price];
      return tokens[u];
    }

    method Earn(u: UserId, amount: int) returns (balance: int)
      modifies this`tokens
      ensures tokens == old(tokens)[u := old(Balance(u)) + amount]
      ensures balance == Balance(u)
    {
      tokens := tokens[u := Balance(u) + amount];
      return tokens[u];
    }

    /** Push a post for a reader once: -1 is a refusal, otherwise the queue length. */
    method Place(u: UserId, p: PostId, slots: nat, exclude: bool, expiry: int) returns (reply: int)
      modifies this`queues, this`freeQueue, this`seen, this`seenExpiry
      ensures View() == Placed(old(View()), u, p, slots, exclude, expiry)
      ensures reply == if Refuses(old(View()), u, p, exclude) then -1 else |Queue(u)|
    {
      if p in Queue(u) {
        return |Queue(u)|;
      }
      if exclude {
        var had := if p in seen then seen[p] else {};
        if u in had {
          return -1;
        }
        seen := seen[p := had + {u}];
        seenExpiry := seenExpiry[p := expiry];
      }
      queues := queues[u := [p] + Queue(u)];
      var len := |Queue(u)|;
      if len >= slots {
        freeQueue := freeQueue - {u};
      }
      return len;
    }

    /** Take one copy of a post out of a queue; how many were removed. */
    method Claim(u: UserId, p: PostId, slots: nat) returns (removed: nat)
      modifies this`queues, this`freeQueue
      ensures View() == Claimed(old(View()), u, p, slots)
      ensures removed == if p in old(Queue(u)) then 1 else 0
    {
      removed := LRem(u, p);
      if removed > 0 {
        var len := |Queue(u)|;
        if len < slots {
          freeQueue := freeQueue + {u};
        }
      }
    }

    /** `LREM key 1 value`: scan from the head and cut out the first match. */
    method LRem(u: UserId, p: PostId) returns (removed: nat)
      modifies this`queues
      ensures p !in old(Queue(u)) ==> removed == 0 && queues == old(queues)
      ensures p in old(Queue(u)) ==> removed == 1 && queues == old(queues)[u := RemoveFirst(old(Queue(u)), p)]
    {
      var q := Queue(u);
      var i := 0;
      while i < |q| && q[i] != p
        invariant 0 <= i <= |q|
        invariant p !in q[..i]
        invariant RemoveFirst(q, p) == q[..i] + RemoveFirst(q[i..], p)
      {
        assert q[i..][1..] == q[i + 1..];
        assert q[..i] + [q[i]] == q[..i + 1];
        i := i + 1;
      }
      if i == |q| {
        assert q == q[..i];
        return 0;
      }
      queues := queues[u := q[..i] + q[i + 1..]];
      assert q[i..][1..] == q[i + 1..];
      return 1;
    }

    method EnsureFree(u: UserId, slots: nat) returns (reply: nat)
      modifies this`freeQueue
      ensures View() == FreeEnsured(old(View()), u, slots)
      ensures reply == if HasRoom(old(View()), u, slots) then 1 else 0
    {
      if |Queue(u)| < slots {
        freeQueue := freeQueue + {u};
        return 1;
      }
      return 0;
    }

    /** Decrement a route's outstanding count, with a floor at zero. */
    method Retire(r: Route) returns (reply: int)
      modifies this`outstanding
      ensures old(Outstanding(r)) <= 0 ==> reply == 0 && outstanding == old(outstanding)
      ensures old(Outstanding(r)) > 0 ==> outstanding == old(outstanding)[r := old(Outstanding(r)) - 1] && reply == Outstanding(r)
    {
      var n := Outstanding(r);
      if n <= 0 {
        return 0;
      }
      outstanding := outstanding[r := n - 1];
      return n - 1;
    }
  }
}
