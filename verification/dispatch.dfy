/** Dispatch with every call atomic: who is selected, when an operation is parked or given
    up, and the exact accounting of outstanding operations per route. */
module Dispatch {
  import opened FeedTypes
  import opened FeedScripts

  // ----- outstanding operations, counted -----

  function EntriesOn(stream: map<nat, Op>, r: Route): set<nat> {
    set e | e in stream && stream[e].route == r
  }

  function MembersOn(retry: map<nat, Waiting>, r: Route): set<nat> {
    set m | m in retry && retry[m].op.route == r
  }

  function InFlight(stream: map<nat, Op>, retry: map<nat, Waiting>, r: Route): nat {
    |EntriesOn(stream, r)| + |MembersOn(retry, r)|
  }

  function CountIn(outstanding: map<Route, int>, r: Route): int {
    if r in outstanding then outstanding[r] else 0
  }

  /** Every route's counter is the number of its operations on the stream and in retry. */
  ghost predicate Exact(outstanding: map<Route, int>, stream: map<nat, Op>, retry: map<nat, Waiting>) {
    forall r: Route :: CountIn(outstanding, r) == InFlight(stream, retry, r)
  }

  /** Ids in use lie below the counters that hand out new ones. */
  predicate Numbered(redis: Redis)
    reads redis`stream, redis`retry, redis`nextEntry, redis`nextMember
  {
    (forall e :: e in redis.stream ==> e < redis.nextEntry) && (forall m :: m in redis.retry ==> m < redis.nextMember)
  }

  ghost predicate Accounted(redis: Redis)
    reads redis`stream, redis`retry, redis`nextEntry, redis`nextMember, redis`outstanding
  {
    Numbered(redis) && Exact(redis.outstanding, redis.stream, redis.retry)
  }

  function Changed(counts: map<Route, int>, r: Route, delta: int): map<Route, int> {
    counts[r := CountIn(counts, r) + delta]
  }

  lemma EntriesAdd(stream: map<nat, Op>, e: nat, op: Op, r: Route)
    requires e !in stream
    ensures |EntriesOn(stream[e := op], r)| == |EntriesOn(stream, r)| + (if op.route == r then 1 else 0)
  {
    var before := EntriesOn(stream, r);
    assert EntriesOn(stream[e := op], r) == if op.route == r then before + {e} else before;
  }

  lemma EntriesRemove(stream: map<nat, Op>, e: nat, r: Route)
    requires e in stream
    ensures |EntriesOn(stream - {e}, r)| == |EntriesOn(stream, r)| - (if stream[e].route == r then 1 else 0)
  {
    var after := EntriesOn(stream - {e}, r);
    assert EntriesOn(stream, r) == if stream[e].route == r then after + {e} else after;
  }

  lemma MembersAdd(retry: map<nat, Waiting>, m: nat, w: Waiting, r: Route)
    requires m !in retry
    ensures |MembersOn(retry[m := w], r)| == |MembersOn(retry, r)| + (if w.op.route == r then 1 else 0)
  {
    var before := MembersOn(retry, r);
    assert MembersOn(retry[m := w], r) == if w.op.route == r then before + {m} else before;
  }

  lemma MembersRemove(retry: map<nat, Waiting>, m: nat, r: Route)
    requires m in retry
    ensures |MembersOn(retry - {m}, r)| == |MembersOn(retry, r)| - (if retry[m].op.route == r then 1 else 0)
  {
    var after := MembersOn(retry - {m}, r);
    assert MembersOn(retry, r) == if retry[m].op.route == r then after + {m} else after;
  }

  lemma MintKeepsExact(counts: map<Route, int>, stream: map<nat, Op>, retry: map<nat, Waiting>, e: nat, op: Op)
    requires Exact(counts, stream, retry) && e !in stream
    ensures Exact(Changed(counts, op.route, 1), stream[e := op], retry)
  {
    forall r: Route ensures CountIn(Changed(counts, op.route, 1), r) == InFlight(stream[e := op], retry, r) {
      assert CountIn(counts, r) == InFlight(stream, retry, r);
      EntriesAdd(stream, e, op, r);
    }
  }

  /** Going from the stream to retry, or back, moves no counter. */
  lemma ParkKeepsExact(counts: map<Route, int>, stream: map<nat, Op>, retry: map<nat, Waiting>, e: nat, m: nat, w: Waiting)
    requires Exact(counts, stream, retry) && e in stream && m !in retry && w.op.route == stream[e].route
    ensures Exact(counts, stream - {e}, retry[m := w])
  {
    forall r: Route ensures CountIn(counts, r) == InFlight(stream - {e}, retry[m := w], r) {
      EntriesRemove(stream, e, r);
      MembersAdd(retry, m, w, r);
    }
  }

  lemma ReaddKeepsExact(counts: map<Route, int>, stream: map<nat, Op>, retry: map<nat, Waiting>, e: nat, m: nat, op: Op)
    requires Exact(counts, stream, retry) && e !in stream && m in retry && op.route == retry[m].op.route
    ensures Exact(counts, stream[e := op], retry - {m})
  {
    forall r: Route ensures CountIn(counts, r) == InFlight(stream[e := op], retry - {m}, r) {
      EntriesAdd(stream, e, op, r);
      MembersRemove(retry, m, r);
    }
  }

  /** A terminal outcome lowers its route's counter by one, and the counter was positive. */
  lemma EndKeepsExact(counts: map<Route, int>, stream: map<nat, Op>, retry: map<nat, Waiting>, e: nat)
    requires Exact(counts, stream, retry) && e in stream
    ensures CountIn(counts, stream[e].route) >= 1
    ensures Exact(Changed(counts, stream[e].route, -1), stream - {e}, retry)
  {
    var route := stream[e].route;
    assert CountIn(counts, route) == InFlight(stream, retry, route);
    assert e in EntriesOn(stream, route);
    forall r: Route ensures CountIn(Changed(counts, route, -1), r) == InFlight(stream - {e}, retry, r) {
      assert CountIn(counts, r) == InFlight(stream, retry, r);
      EntriesRemove(stream, e, r);
    }
  }

  lemma DropKeepsExact(counts: map<Route, int>, stream: map<nat, Op>, retry: map<nat, Waiting>, m: nat)
    requires Exact(counts, stream, retry) && m in retry
    ensures CountIn(counts, retry[m].op.route) >= 1
    ensures Exact(Changed(counts, retry[m].op.route, -1), stream, retry - {m})
  {
    var route := retry[m].op.route;
    assert CountIn(counts, route) == InFlight(stream, retry, route);
    assert m in MembersOn(retry, route);
    forall r: Route ensures CountIn(Changed(counts, route, -1), r) == InFlight(stream, retry - {m}, r) {
      assert CountIn(counts, r) == InFlight(stream, retry, r);
      MembersRemove(retry, m, r);
    }
  }

  // ----- enqueue, retire, park -----

  method AddToStream(redis: Redis, op: Op)
    modifies redis`stream, redis`nextEntry
    ensures redis.stream == old(redis.stream)[old(redis.nextEntry) := op]
    ensures redis.nextEntry == old(redis.nextEntry) + 1
  {
    redis.stream := redis.stream[redis.nextEntry := op];
    redis.nextEntry := redis.nextEntry + 1;
  }

  /** Mint a new operation for a publish or a forward; exact counts stay exact. */
  method EnqueueOperation(redis: Redis, post: PostId, route: Route, author: Option<UserId>, fanout: Option<int>)
    modifies redis`stream, redis`nextEntry, redis`outstanding
    ensures redis.stream == old(redis.stream)[old(redis.nextEntry) := Op(post, route, author, fanout, None)]
    ensures redis.nextEntry == old(redis.nextEntry) + 1
    ensures redis.outstanding == Changed(old(redis.outstanding), route, 1)
    ensures old(Accounted(redis)) ==> Accounted(redis)
  {
    var op := Op(post, route, author, fanout, None);
    if Accounted(redis) {
      MintKeepsExact(redis.outstanding, redis.stream, redis.retry, redis.nextEntry, op);
    }
    AddToStream(redis, op);
    redis.outstanding := redis.outstanding[route := redis.Outstanding(route) + 1];
  }

  /** What is parked: the deadline is set on the first park and kept on every later one, and the
      fan-out is written out: the one given if it is worth anything, the default if none was. */
  function ParkedOp(c: Settings, op: Op, now: int): (r: Op)
    ensures r.post == op.post && r.route == op.route && r.author == op.author
    ensures op.expires.Some? ==> r.expires == op.expires
    ensures op.expires.None? ==> r.expires == Some(now + c.retryMaxAge)
    ensures op.fanout.Some? && op.fanout.value >= 1 ==> r.fanout == op.fanout
    ensures op.fanout.None? && c.fanout >= 1 ==> r.fanout == Some(c.fanout)
    ensures r.fanout.Some? && Reach(c, r) == Reach(c, op)
  {
    op.(expires := Some(op.expires.GetOr(now + c.retryMaxAge)), fanout := Some(Reach(c, op)))
  }

  method ScheduleRetry(c: Settings, redis: Redis, op: Op, now: int)
    modifies redis`retry, redis`nextMember
    ensures redis.retry == old(redis.retry)[old(redis.nextMember) := Waiting(ParkedOp(c, op, now), now + c.retryInterval)]
    ensures redis.nextMember == old(redis.nextMember) + 1
  {
    redis.retry := redis.retry[redis.nextMember := Waiting(ParkedOp(c, op, now), now + c.retryInterval)];
    redis.nextMember := redis.nextMember + 1;
  }

  // ----- due retries -----

  /** `ZRANGEBYSCORE ops:retry -inf now`, in some order. */
  method DueMembers(redis: Redis, now: int) returns (due: seq<nat>)
    ensures Distinct(due)
    ensures forall m :: m in due <==> m in redis.retry && redis.retry[m].due <= now
  {
    var left := set m | m in redis.retry && redis.retry[m].due <= now;
    due := [];
    while left != {}
      invariant Distinct(due)
      invariant forall m :: m in due || m in left <==> m in redis.retry && redis.retry[m].due <= now
      invariant forall m :: m in due ==> m !in left
      decreases |left|
    {
      var m :| m in left;
      due, left := due + [m], left - {m};
    }
  }

  /** A deadline has passed: out of the retry set, and off the route's count. */
  method AbandonOverdue(redis: Redis, m: nat)
    requires Accounted(redis) && m in redis.retry
    modifies redis`retry, redis`outstanding
    ensures Accounted(redis) && redis.retry == old(redis.retry) - {m}
    ensures CountIn(redis.outstanding, old(redis.retry)[m].op.route) == CountIn(old(redis.outstanding), old(redis.retry)[m].op.route) - 1
  {
    DropKeepsExact(redis.outstanding, redis.stream, redis.retry, m);
    var route := redis.retry[m].op.route;
    redis.retry := redis.retry - {m};
    var _ := redis.Retire(route);
  }

  /** Back onto the stream first, then out of the retry set. */
  method AddBack(redis: Redis, m: nat, expires: int)
    requires Accounted(redis) && m in redis.retry
    modifies redis`stream, redis`nextEntry, redis`retry
    ensures Accounted(redis) && redis.retry == old(redis.retry) - {m}
    ensures redis.stream == old(redis.stream)[old(redis.nextEntry) := old(redis.retry)[m].op.(expires := Some(expires))]
    ensures redis.nextEntry == old(redis.nextEntry) + 1
  {
    var op := redis.retry[m].op.(expires := Some(expires));
    ReaddKeepsExact(redis.outstanding, redis.stream, redis.retry, redis.nextEntry, m, op);
    AddToStream(redis, op);
    redis.retry := redis.retry - {m};
  }

  /** One due member: dropped when its deadline has come, back on the stream otherwise. */
  method Reschedule(c: Settings, redis: Redis, m: nat, now: int) returns (added: bool)
    requires Accounted(redis) && m in redis.retry
    modifies redis`stream, redis`nextEntry, redis`retry, redis`outstanding
    ensures Accounted(redis) && redis.retry == old(redis.retry) - {m}
    ensures added <==> InTime(old(redis.retry)[m], now)
    ensures redis.nextEntry == old(redis.nextEntry) + if added then 1 else 0
    ensures redis.stream == if added then old(redis.stream)[old(redis.nextEntry) := AddedBack(c, old(redis.retry)[m].op, now)]
                            else old(redis.stream)
  {
    var expires := redis.retry[m].op.expires;
    if expires.Some? && expires.value <= now {
      AbandonOverdue(redis, m);
      return false;
    }
    AddBack(redis, m, expires.GetOr(now + c.retryMaxAge));
    return true;
  }

  /** What goes back on the stream: one parked before there were deadlines is given one. */
  function AddedBack(c: Settings, op: Op, now: int): (r: Op)
    ensures r.post == op.post && r.route == op.route && r.author == op.author && r.fanout == op.fanout
    ensures op.expires.Some? ==> r.expires == op.expires
    ensures op.expires.None? ==> r.expires == Some(now + c.retryMaxAge)
  {
    op.(expires := Some(op.expires.GetOr(now + c.retryMaxAge)))
  }

  predicate InTime(w: Waiting, now: int) {
    w.op.expires.Some? ==> now < w.op.expires.value
  }

  /** Walk over some members, one after the other. */
  method RescheduleEach(c: Settings, redis: Redis, todo: seq<nat>, now: int) returns (rescheduled: nat, ghost back: seq<nat>)
    requires Accounted(redis) && Distinct(todo) && forall m :: m in todo ==> m in redis.retry
    modifies redis`stream, redis`nextEntry, redis`retry, redis`outstanding
    ensures Accounted(redis)
    ensures forall m :: m in redis.retry <==> m in old(redis.retry) && m !in todo
    ensures forall m :: m in redis.retry ==> redis.retry[m] == old(redis.retry)[m]
    ensures Distinct(back) && |back| == rescheduled
    ensures forall m :: m in back <==> m in todo && m in old(redis.retry) && InTime(old(redis.retry)[m], now)
    ensures redis.nextEntry == old(redis.nextEntry) + rescheduled
    ensures forall e :: e in redis.stream <==> e in old(redis.stream) || old(redis.nextEntry) <= e < redis.nextEntry
    ensures forall e :: e in old(redis.stream) ==> redis.stream[e] == old(redis.stream)[e]
    ensures forall j :: 0 <= j < rescheduled ==>
              && old(redis.nextEntry) + j in redis.stream
              && redis.stream[old(redis.nextEntry) + j] == AddedBack(c, old(redis.retry)[back[j]].op, now)
  {
    rescheduled, back := 0, [];
    var i := 0;
    ghost var retry0 := redis.retry;
    while i < |todo|
      invariant 0 <= i <= |todo|
      invariant Accounted(redis)
      invariant forall m :: m in redis.retry <==> m in retry0 && m !in todo[..i]
      invariant forall m :: m in redis.retry ==> redis.retry[m] == retry0[m]
      invariant Distinct(back) && |back| == rescheduled
      invariant forall m :: m in back <==> m in todo[..i] && m in retry0 && InTime(retry0[m], now)
      invariant redis.nextEntry == old(redis.nextEntry) + rescheduled
      invariant forall e :: e in redis.stream <==> e in old(redis.stream) || old(redis.nextEntry) <= e < redis.nextEntry
      invariant forall e :: e in old(redis.stream) ==> redis.stream[e] == old(redis.stream)[e]
      invariant forall j :: 0 <= j < rescheduled ==> redis.stream[old(redis.nextEntry) + j] == AddedBack(c, retry0[back[j]].op, now)
    {
      var m := todo[i];
      assert todo[..i + 1] == todo[..i] + [m];
      assert m !in todo[..i] && m !in back;
      var added := Reschedule(c, redis, m, now);
      if added {
        rescheduled, back := rescheduled + 1, back + [m];
      }
      i := i + 1;
    }
    assert todo[..i] == todo;
  }

  /** Due members leave the retry set. One whose deadline has come is dropped; every other one is
      on a new entry of the stream, with its post, route, author and fan-out, and with its deadline
      or, if it had none yet, one set now. `back` names the members of the new entries, in order. */
  method RescheduleDueRetries(c: Settings, redis: Redis, now: int) returns (rescheduled: nat, ghost back: seq<nat>)
    requires Accounted(redis)
    modifies redis`stream, redis`nextEntry, redis`retry, redis`outstanding
    ensures Accounted(redis)
    ensures forall m :: m in redis.retry <==> m in old(redis.retry) && old(redis.retry)[m].due > now
    ensures forall m :: m in redis.retry ==> redis.retry[m] == old(redis.retry)[m]
    ensures Distinct(back) && |back| == rescheduled
    ensures forall m :: m in back <==>
              && m in old(redis.retry) && old(redis.retry)[m].due <= now
              && (old(redis.retry)[m].op.expires.Some? ==> now < old(redis.retry)[m].op.expires.value)
    ensures redis.nextEntry == old(redis.nextEntry) + rescheduled
    ensures forall e :: e in redis.stream <==> e in old(redis.stream) || old(redis.nextEntry) <= e < redis.nextEntry
    ensures forall e :: e in old(redis.stream) ==> redis.stream[e] == old(redis.stream)[e]
    ensures forall i :: 0 <= i < rescheduled ==>
              var was := old(redis.retry)[back[i]].op;
              && old(redis.nextEntry) + i in redis.stream
              && redis.stream[old(redis.nextEntry) + i]
                 == Op(was.post, was.route, was.author, was.fanout, Some(was.expires.GetOr(now + c.retryMaxAge)))
  {
    var todo := DueMembers(redis, now);
    rescheduled, back := RescheduleEach(c, redis, todo, now);
  }

  // ----- recounting -----

  lemma CountNext(counts: map<Route, int>, stream: map<nat, Op>, retry: map<nat, Waiting>, r0: Route,
                  stream': map<nat, Op>, retry': map<nat, Waiting>)
    requires Exact(counts, stream, retry)
    requires forall r: Route :: InFlight(stream', retry', r) == InFlight(stream, retry, r) + (if r == r0 then 1 else 0)
    ensures Exact(Changed(counts, r0, 1), stream', retry')
  {
    forall r: Route ensures CountIn(Changed(counts, r0, 1), r) == InFlight(stream', retry', r) {
      assert CountIn(counts, r) == InFlight(stream, retry, r);
    }
  }

  /** Count the entries of the stream, starting from nothing. */
  method CountStream(stream: map<nat, Op>) returns (counts: map<Route, int>, total: nat)
    ensures Exact(counts, stream, map[]) && total == |stream|
  {
    counts, total := map[], 0;
    var left := stream.Keys;
    ghost var done: map<nat, Op> := map[];
    while left != {}
      invariant done == map e | e in stream && e !in left :: stream[e]
      invariant left <= stream.Keys
      invariant Exact(counts, done, map[]) && total == |done|
      decreases |left|
    {
      var e :| e in left;
      var r := stream[e].route;
      assert done[e := stream[e]] == map x | x in stream && x !in left - {e} :: stream[x];
      MintKeepsExact(counts, done, map[], e, stream[e]);
      done := done[e := stream[e]];
      counts := counts[r := (if r in counts then counts[r] else 0) + 1];
      left, total := left - {e}, total + 1;
    }
    assert done == stream;
  }

  /** Recount every route from the stream and the retry set, whatever the counters said. */
  method ReseedOutstandingOps(redis: Redis) returns (total: nat)
    modifies redis`outstanding
    ensures Exact(redis.outstanding, redis.stream, redis.retry)
    ensures total == |redis.stream| + |redis.retry|
  {
    var counts;
    counts, total := CountStream(redis.stream);
    var left := redis.retry.Keys;
    ghost var done: map<nat, Waiting> := map[];
    while left != {}
      invariant done == map m | m in redis.retry && m !in left :: redis.retry[m]
      invariant left <= redis.retry.Keys
      invariant Exact(counts, redis.stream, done) && total == |redis.stream| + |done|
      decreases |left|
    {
      var m :| m in left;
      var r := redis.retry[m].op.route;
      assert done[m := redis.retry[m]] == map x | x in redis.retry && x !in left - {m} :: redis.retry[x];
      forall x: Route ensures InFlight(redis.stream, done[m := redis.retry[m]], x) == InFlight(redis.stream, done, x) + (if x == r then 1 else 0) {
        MembersAdd(done, m, redis.retry[m], x);
      }
      CountNext(counts, redis.stream, done, r, redis.stream, done[m := redis.retry[m]]);
      done := done[m := redis.retry[m]];
      counts := counts[r := (if r in counts then counts[r] else 0) + 1];
      left, total := left - {m}, total + 1;
    }
    assert done == redis.retry;
    redis.outstanding := counts;
  }
}
