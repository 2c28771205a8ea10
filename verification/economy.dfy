/** The requests that move tokens, run one at a time against the tables and Redis. Each is
    proved to make exactly one transition of the books, or none when it is refused. */
module Economy {
  import opened FeedTypes
  import opened FeedScripts
  import opened Languages
  import opened Ledger
  import opened Dispatch

  /** The tables, and beside them what the tables alone do not remember. */
  class Store {
    var users: map<UserId, Account>
    var posts: map<PostId, Post>
    var reviews: map<Key, Review>
    var answers: map<Key, bool>
    var nextPost: PostId
    var channels: set<ChannelId>
    ghost var history: map<Key, Entry>
    ghost var answered: map<UserId, nat>
    ghost var spent: map<UserId, nat>
    ghost var known: set<UserId>
    /** The account test posts are written by. */
    const system: UserId

    constructor (system: UserId)
      ensures this.system == system && channels == {}
      ensures Opening() == Books(users, posts, reviews, answers, map[], nextPost, history, answered, spent, known)
    {
      this.system := system;
      users, posts, reviews, answers, nextPost, channels := map[], map[], map[], map[], 0, {};
      history, answered, spent, known := map[], map[], map[], {};
    }
  }

  ghost function BooksOf(store: Store, redis: Redis): Books
    reads store, redis`tokens
  {
    Books(store.users, store.posts, store.reviews, store.answers, redis.tokens, store.nextPost,
          store.history, store.answered, store.spent, store.known)
  }

  /** A new account and its starting grant. */
  method RegisterAccount(store: Store, redis: Redis, u: UserId, superuser: bool, grant: nat)
    requires u !in store.known
    modifies store`users, store`known, redis`tokens
    ensures BooksOf(store, redis) == Registered(old(BooksOf(store, redis)), u, superuser, grant)
    ensures store.users == old(store.users)[u := Account(0, 0, 0, superuser)] && redis.Balance(u) == old(redis.Balance(u)) + grant
  {
    store.users := store.users[u := Account(0, 0, 0, superuser)];
    store.known := store.known + {u};
    var _ := redis.Earn(u, grant);
  }

  // ----- publishing -----

  /** A post goes to a channel there is, in a configured language or in none, and in none only
      without text. */
  predicate Publishable(channels: set<ChannelId>, content: seq<Language>, route: Route, hasText: bool) {
    && route.channel in channels
    && (if route.language == UNSPECIFIED then !hasText else route.language in content)
  }

  /** Charge the admission price; superusers are not charged. The reply is the balance left,
      or nothing when it does not cover the price. */
  method Charge(store: Store, redis: Redis, u: UserId, price: nat) returns (left: Option<int>)
    requires u in store.users
    modifies store`spent, redis`tokens
    ensures left.Some? <==> store.users[u].superuser || price <= old(redis.Balance(u))
    ensures left.Some? <==> Affords(old(BooksOf(store, redis)), u, price)
    ensures left.Some? ==> left.value == redis.Balance(u)
    ensures redis.Balance(u) == old(redis.Balance(u)) - if left.None? || store.users[u].superuser then 0 else price
    ensures BooksOf(store, redis) == if left.Some? && !store.users[u].superuser
                                     then Charged(old(BooksOf(store, redis)), u, price)
                                     else old(BooksOf(store, redis))
  {
    if store.users[u].superuser {
      return Some(redis.Balance(u));
    }
    ghost var before := SpentBy(BooksOf(store, redis), u);
    var reply := redis.Spend(u, price);
    if reply == -1 {
      return None;
    }
    store.spent := store.spent[u := before + price];
    return Some(reply);
  }

  method AddPost(store: Store, x: Post) returns (p: PostId)
    modifies store`posts, store`nextPost
    ensures p == old(store.nextPost) && store.nextPost == p + 1
    ensures store.posts == old(store.posts)[p := x]
  {
    p := store.nextPost;
    store.posts := store.posts[p := x];
    store.nextPost := p + 1;
  }

  /** Charge, add the post and mint its operation; nothing happens when the balance is short. */
  method PublishPaid(store: Store, redis: Redis, u: UserId, route: Route, price: nat) returns (p: Option<PostId>)
    requires u in store.users
    modifies store`posts, store`nextPost, store`spent, redis`tokens, redis`stream, redis`nextEntry, redis`outstanding
    ensures p == if store.users[u].superuser || price <= old(redis.Balance(u)) then Some(old(store.nextPost)) else None
    ensures p.Some? ==> store.posts == old(store.posts)[p.value := Post(route, Some(u), false, 0, 0, 0)]
    ensures BooksOf(store, redis) == if p.Some? then Published(old(BooksOf(store, redis)), u, route, price)
                                     else old(BooksOf(store, redis))
    ensures redis.stream == if p.Some? then old(redis.stream)[old(redis.nextEntry) := Op(p.value, route, Some(u), None, None)]
                            else old(redis.stream)
    ensures redis.outstanding == if p.Some? then Changed(old(redis.outstanding), route, 1) else old(redis.outstanding)
    ensures redis.nextEntry == old(redis.nextEntry) + if p.Some? then 1 else 0
  {
    var left := Charge(store, redis, u, price);
    if left.None? {
      return None;
    }
    var added := AddPost(store, Original(u, route));
    EnqueueOperation(redis, added, route, Some(u), None);
    return Some(added);
  }

  // ----- reviewing -----

  datatype Outcome =
    | PostNotFound
    | GiftNotAllowed
    | NotInQueue
    | AnswerCounted
    | AnswerRejected
    | AlreadyReviewed
    | Committed

  /** What becomes of a review, decided in this order. */
  function OutcomeOf(b: Books, queue: seq<PostId>, u: UserId, p: PostId, gift: bool, expected: Option<Kind>): Outcome {
    if p !in b.posts then PostNotFound
    else if gift && !GiftAllowed(b, u, p) then GiftNotAllowed
    else if p !in queue then NotInQueue
    else if b.posts[p].probe then (if expected.Some? && (u, p) in b.answers then AnswerRejected else AnswerCounted)
    else if (u, p) in b.reviews then AlreadyReviewed
    else Committed
  }

  /** Each outcome, by the first obstacle met; with none left the review is committed. */
  lemma OutcomeIsFirstObstacle(b: Books, queue: seq<PostId>, u: UserId, p: PostId, gift: bool, expected: Option<Kind>)
    ensures
      var o := OutcomeOf(b, queue, u, p, gift, expected);
      && (o.PostNotFound? <==> p !in b.posts)
      && (p in b.posts ==>
            var x := b.posts[p];
            && (o.GiftNotAllowed? <==> gift && (x.probe || x.author.None? || x.author == Some(u)))
            && (!o.GiftNotAllowed? ==> (o.NotInQueue? <==> p !in queue))
            && (!o.GiftNotAllowed? && p in queue ==>
                  && (o.AnswerRejected? <==> x.probe && expected.Some? && (u, p) in b.answers)
                  && (o.AnswerCounted? <==> x.probe && (expected.None? || (u, p) !in b.answers))
                  && (o.AlreadyReviewed? <==> !x.probe && (u, p) in b.reviews)
                  && (o.Committed? <==> !x.probe && (u, p) !in b.reviews)))
    ensures Takes(OutcomeOf(b, queue, u, p, gift, expected)) ==> p in queue
  {
  }

  /** Whether the outcome took the post out of the queue. */
  predicate Takes(o: Outcome) {
    !o.PostNotFound? && !o.GiftNotAllowed? && !o.NotInQueue?
  }

  /** The queues after a review with this outcome. */
  function QueueAfter(c: Settings, f: Feed, o: Outcome, u: UserId, p: PostId): Feed {
    if Takes(o) then Claimed(f, u, p, c.maxSlots) else f
  }

  /** The books after a review with this outcome. */
  function Outcomes(b: Books, o: Outcome, u: UserId, p: PostId, kind: Kind, gift: bool, expected: Option<Kind>): Books
    requires u in b.users
  {
    if p !in b.posts then b
    else if o.Committed? then Reviewed(b, u, p, kind, gift)
    else if o.AnswerCounted? then Answered(b, u, p, kind, expected)
    else b
  }

  /** What is entered: an answer as correct exactly when it is the one expected, a review as it was
      given, and in either case nothing else. */
  lemma EnteredAsGiven(b: Books, o: Outcome, u: UserId, p: PostId, kind: Kind, gift: bool, expected: Option<Kind>)
    requires u in b.users && p in b.posts
    ensures
      var after := Outcomes(b, o, u, p, kind, gift, expected);
      && (o.AnswerCounted? && expected.Some? ==> after.answers.Keys == b.answers.Keys + {(u, p)} && (after.answers[(u, p)] <==> kind == expected.value))
      && (o.Committed? ==> after.reviews.Keys == b.reviews.Keys + {(u, p)} && after.reviews[(u, p)] == Review(kind, gift))
      && (!(o.AnswerCounted? && expected.Some?) ==> after.answers == b.answers)
      && (!o.Committed? ==> after.reviews == b.reviews)
  {
  }

  /** The review commit: the row and both sides' counters, or nothing when the unique
      constraint finds an earlier row. */
  method CommitReview(store: Store, redis: Redis, u: UserId, p: PostId, kind: Kind, gift: bool) returns (committed: bool)
    requires u in store.users && p in store.posts
    requires gift ==> kind == Forward
    modifies store`users, store`posts, store`reviews, store`history
    ensures committed <==> (u, p) !in old(store.reviews)
    ensures BooksOf(store, redis) == if committed then Reviewed(old(BooksOf(store, redis)), u, p, kind, gift).(tokens := redis.tokens)
                                     else old(BooksOf(store, redis))
  {
    if (u, p) in store.reviews {
      return false;
    }
    var to := if gift then store.posts[p].author else None;
    store.reviews := store.reviews[(u, p) := Review(kind, gift)];
    CountReview(store, u, p, kind, gift);
    store.history := store.history[(u, p) := Entry(kind, to)];
    return true;
  }

  /** Both sides' counters: the reviewer's three and the post's. */
  method CountReview(store: Store, u: UserId, p: PostId, kind: Kind, gift: bool)
    requires u in store.users && p in store.posts && (gift ==> kind == Forward)
    modifies store`users, store`posts
    ensures store.users == old(store.users)[u := Tallied(old(store.users)[u], kind)]
    ensures store.posts == old(store.posts)[p := Judged(old(store.posts)[p], kind, gift)]
  {
    var a, x := store.users[u], store.posts[p];
    a := a.(reviewed := a.reviewed + 1);
    if kind == Forward {
      x := x.(forwarded := x.forwarded + 1);
      a := a.(forwarded := a.forwarded + 1);
      if gift {
        x := x.(gifted := x.gifted + 1);
      }
    } else {
      x := x.(dropped := x.dropped + 1);
      a := a.(dropped := a.dropped + 1);
    }
    store.users := store.users[u := a];
    store.posts := store.posts[p := x];
  }

  /** Record the answer to a test post and earn its token; a second recorded answer is refused. */
  method AnswerProbe(store: Store, redis: Redis, u: UserId, p: PostId, given: Kind, expected: Option<Kind>)
    returns (accepted: bool)
    requires u in store.users
    modifies store`answers, store`answered, redis`tokens
    ensures accepted <==> expected.None? || (u, p) !in old(store.answers)
    ensures BooksOf(store, redis) == if accepted then Answered(old(BooksOf(store, redis)), u, p, given, expected)
                                     else old(BooksOf(store, redis))
    ensures accepted && expected.Some? ==>
              (u, p) in store.answers && (store.answers[(u, p)] <==> given == expected.value)
    ensures forall k :: k in store.answers && !(accepted && expected.Some? && k == (u, p)) ==>
              k in old(store.answers) && store.answers[k] == old(store.answers)[k]
    ensures redis.Balance(u) == old(redis.Balance(u)) + if accepted then 1 else 0
  {
    if expected.Some? {
      if (u, p) in store.answers {
        return false;
      }
      store.answers := store.answers[(u, p) := given == expected.value];
    }
    ghost var before := AnsweredBy(BooksOf(store, redis), u);
    store.answered := store.answered[u := before + 1];
    var _ := redis.Earn(u, 1);
    return true;
  }

  /** Credit the one token of a committed review, to the author when it is a gift. */
  method CreditReview(store: Store, redis: Redis, u: UserId, p: PostId, gift: bool) returns (balance: int)
    requires p in store.posts && (gift ==> store.posts[p].author.Some?)
    modifies redis`tokens
    ensures redis.tokens == Credited(old(redis.tokens), (if gift then store.posts[p].author else None).GetOr(u), 1)
    ensures balance == redis.Balance(u)
  {
    if gift {
      var _ := redis.Earn(store.posts[p].author.value, 1);
      return redis.Balance(u);
    }
    balance := redis.Earn(u, 1);
  }

  /** An ordinary review once claimed: commit, credit, and mint the forward's operation. */
  method ReviewClaimed(store: Store, redis: Redis, u: UserId, p: PostId, kind: Kind, gift: bool, fanout: Option<int>)
    returns (committed: bool)
    requires u in store.users
    requires p in store.posts && !store.posts[p].probe
    requires gift ==> kind == Forward && GiftAllowed(BooksOf(store, redis), u, p)
    modifies store`users, store`posts, store`reviews, store`history, redis`tokens, redis`stream, redis`nextEntry, redis`outstanding
    ensures committed <==> (u, p) !in old(store.reviews)
    ensures BooksOf(store, redis) == if committed then Reviewed(old(BooksOf(store, redis)), u, p, kind, gift)
                                     else old(BooksOf(store, redis))
    ensures committed && kind == Forward ==>
              && redis.stream == old(redis.stream)[old(redis.nextEntry) :=
                                   Op(p, old(store.posts)[p].route, old(store.posts)[p].author, fanout, None)]
              && redis.nextEntry == old(redis.nextEntry) + 1
              && redis.outstanding == Changed(old(redis.outstanding), old(store.posts)[p].route, 1)
    ensures !(committed && kind == Forward) ==>
              redis.stream == old(redis.stream) && redis.nextEntry == old(redis.nextEntry) && redis.outstanding == old(redis.outstanding)
  {
    ghost var before := BooksOf(store, redis);
    var route, author := store.posts[p].route, store.posts[p].author;
    committed := CommitReview(store, redis, u, p, kind, gift);
    if !committed {
      return;
    }
    var _ := CreditReview(store, redis, u, p, gift);
    assert BooksOf(store, redis) == Reviewed(before, u, p, kind, gift);
    if kind == Forward {
      EnqueueOperation(redis, p, route, author, fanout);
    }
  }

  /** A review once the post is taken from the queue. */
  method ReviewTaken(store: Store, redis: Redis, u: UserId, p: PostId, kind: Kind, gift: bool,
                     expected: Option<Kind>, fanout: Option<int>) returns (outcome: Outcome)
    requires u in store.users && p in store.posts
    requires gift ==> kind == Forward && GiftAllowed(BooksOf(store, redis), u, p)
    modifies store`users, store`posts, store`reviews, store`history, store`answers, store`answered
    modifies redis`tokens, redis`stream, redis`nextEntry, redis`outstanding
    ensures outcome == OutcomeOf(old(BooksOf(store, redis)), [p], u, p, gift, expected)
    ensures BooksOf(store, redis) == Outcomes(old(BooksOf(store, redis)), outcome, u, p, kind, gift, expected)
    ensures outcome.Committed? && kind == Forward ==>
              && redis.stream == old(redis.stream)[old(redis.nextEntry) :=
                                   Op(p, old(store.posts)[p].route, old(store.posts)[p].author, fanout, None)]
              && redis.nextEntry == old(redis.nextEntry) + 1
              && redis.outstanding == Changed(old(redis.outstanding), old(store.posts)[p].route, 1)
    ensures !(outcome.Committed? && kind == Forward) ==>
              redis.stream == old(redis.stream) && redis.nextEntry == old(redis.nextEntry) && redis.outstanding == old(redis.outstanding)
  {
    if store.posts[p].probe {
      var accepted := AnswerProbe(store, redis, u, p, kind, expected);
      return if accepted then AnswerCounted else AnswerRejected;
    }
    var committed := ReviewClaimed(store, redis, u, p, kind, gift, fanout);
    return if committed then Committed else AlreadyReviewed;
  }

  /** The refusals before anything is touched, then the claim that only one review can win. */
  method ClaimForReview(c: Settings, store: Store, redis: Redis, u: UserId, p: PostId, gift: bool) returns (refused: Option<Outcome>)
    modifies redis`queues, redis`freeQueue
    ensures refused == if p !in store.posts then Some(PostNotFound)
                       else if gift && !GiftAllowed(BooksOf(store, redis), u, p) then Some(GiftNotAllowed)
                       else if p !in old(redis.Queue(u)) then Some(NotInQueue)
                       else None
    ensures redis.View() == if refused.None? then Claimed(old(redis.View()), u, p, c.maxSlots) else old(redis.View())
  {
    if p !in store.posts {
      return Some(PostNotFound);
    }
    var x := store.posts[p];
    if gift && (x.probe || x.author.None? || x.author == Some(u)) {
      return Some(GiftNotAllowed);
    }
    var removed := redis.Claim(u, p, c.maxSlots);
    return if removed == 0 then Some(NotInQueue) else None;
  }

  /** Forward or drop a queued post. The order of refusals, what the claim takes, the row and
      counters, the one token, and the one operation of a forward are all as decided by
      `OutcomeOf`; a refusal before the claim leaves everything as it was. */
  method ReviewPost(c: Settings, store: Store, redis: Redis, u: UserId, p: PostId, kind: Kind, gift: bool,
                    expected: Option<Kind>, fanout: Option<int>) returns (outcome: Outcome)
    requires u in store.users
    requires gift ==> kind == Forward
    modifies store`users, store`posts, store`reviews, store`history, store`answers, store`answered
    modifies redis`tokens, redis`queues, redis`freeQueue, redis`stream, redis`nextEntry, redis`outstanding
    ensures outcome == OutcomeOf(old(BooksOf(store, redis)), old(redis.Queue(u)), u, p, gift, expected)
    ensures BooksOf(store, redis) == Outcomes(old(BooksOf(store, redis)), outcome, u, p, kind, gift, expected)
    ensures redis.View() == QueueAfter(c, old(redis.View()), outcome, u, p)
    ensures outcome.Committed? && kind == Forward ==>
              && redis.stream == old(redis.stream)[old(redis.nextEntry) :=
                                   Op(p, old(store.posts)[p].route, old(store.posts)[p].author, fanout, None)]
              && redis.outstanding == Changed(old(redis.outstanding), old(store.posts)[p].route, 1)
    ensures !(outcome.Committed? && kind == Forward) ==>
              redis.stream == old(redis.stream) && redis.outstanding == old(redis.outstanding)
  {
    ghost var before, queue := BooksOf(store, redis), redis.Queue(u);
    var refused := ClaimForReview(c, store, redis, u, p, gift);
    assert BooksOf(store, redis) == before;
    if refused.Some? {
      assert refused.value == OutcomeOf(before, queue, u, p, gift, expected) && !Takes(refused.value);
      return refused.value;
    }
    QueuedIsEnough(before, queue, u, p, gift, expected);
    ghost var f := redis.View();
    outcome := ReviewTaken(store, redis, u, p, kind, gift, expected, fanout);
    assert redis.View() == f && Takes(outcome);
  }

  /** What becomes of a claimed post does not depend on the rest of the queue. */
  lemma QueuedIsEnough(b: Books, queue: seq<PostId>, u: UserId, p: PostId, gift: bool, expected: Option<Kind>)
    requires p in queue
    ensures OutcomeOf(b, queue, u, p, gift, expected) == OutcomeOf(b, [p], u, p, gift, expected)
  {
  }

  /** However it is decided, a review keeps the books sound. */
  lemma ReviewKeepsBooks(b: Books, queue: seq<PostId>, u: UserId, p: PostId, kind: Kind, gift: bool,
                         expected: Option<Kind>, grant: nat)
    requires Sound(b, grant) && u in b.users && (gift ==> kind == Forward)
    ensures Sound(Outcomes(b, OutcomeOf(b, queue, u, p, gift, expected), u, p, kind, gift, expected), grant)
  {
    var outcome := OutcomeOf(b, queue, u, p, gift, expected);
    if outcome.Committed? {
      JudgeKeeps(b, grant, u, p, kind, gift);
    } else if outcome.AnswerCounted? {
      AnswerKeeps(b, grant, u, p, kind, expected);
    }
  }

  datatype DismissReply = PostAvailable | NothingQueued | Dismissed

  /** Clear a queue slot whose post is gone; never a way around judging one that is not. */
  method DismissMissingPost(c: Settings, store: Store, redis: Redis, u: UserId, p: PostId) returns (reply: DismissReply)
    modifies redis`queues, redis`freeQueue
    ensures reply.PostAvailable? <==> p in store.posts
    ensures reply.Dismissed? <==> p !in store.posts && p in old(redis.Queue(u))
    ensures redis.View() == if reply.Dismissed? then Claimed(old(redis.View()), u, p, c.maxSlots) else old(redis.View())
  {
    if p in store.posts {
      return PostAvailable;
    }
    var removed := redis.Claim(u, p, c.maxSlots);
    return if removed == 0 then NothingQueued else Dismissed;
  }

  // ----- test posts -----

  /** Write a test post and place it in one reader's queue, if that has room and there is a
      channel, language and wording for it. No operation is minted and no counter or balance
      moves; a refused placement is no test, though its row stays. */
  method MintProbe(c: Settings, store: Store, redis: Redis, u: UserId, target: Option<Route>, expiry: int)
    returns (minted: Option<PostId>)
    modifies store`posts, store`nextPost, redis`queues, redis`freeQueue, redis`seen, redis`seenExpiry
    ensures
      var writes := target.Some? && |old(redis.Queue(u))| < c.maxSlots;
      var p := old(store.nextPost);
      && BooksOf(store, redis) == (if writes then ProbeMinted(old(BooksOf(store, redis)), target.value, store.system)
                                   else old(BooksOf(store, redis)))
      && redis.View() == (if writes then Placed(old(redis.View()), u, p, c.maxSlots, c.excludeSeen, expiry) else old(redis.View()))
      && minted == (if writes && !Refuses(old(redis.View()), u, p, c.excludeSeen) then Some(p) else None)
      && (writes ==> store.posts == old(store.posts)[p := Post(target.value, Some(store.system), true, 0, 0, 0)])
  {
    if target.None? || |redis.Queue(u)| >= c.maxSlots {
      return None;
    }
    var p := AddPost(store, Post(target.value, Some(store.system), true, 0, 0, 0));
    var placed := redis.Place(u, p, c.maxSlots, c.excludeSeen, expiry);
    if placed == -1 {
      return None;
    }
    return Some(p);
  }

  /** Ids being handed out once, a fresh test post is never refused: it lands in front of the
      queue, which stays within its slots. */
  lemma FreshProbeLands(c: Settings, f: Feed, u: UserId, p: PostId, expiry: int)
    requires |QueueOf(f, u)| < c.maxSlots
    requires forall q :: q in f.seen || q in QueueOf(f, u) ==> q < p
    ensures !Refuses(f, u, p, c.excludeSeen)
    ensures QueueOf(Placed(f, u, p, c.maxSlots, c.excludeSeen, expiry), u) == [p] + QueueOf(f, u)
    ensures |QueueOf(Placed(f, u, p, c.maxSlots, c.excludeSeen, expiry), u)| <= c.maxSlots
  {
    assert p !in f.seen && p !in QueueOf(f, u);
  }

  // ----- erasure and rebuild -----

  /** The rows an account deletion removes, in one commit. */
  method EraseRows(store: Store, redis: Redis, u: UserId, withPosts: bool)
    modifies store`users, store`posts, store`reviews, store`answers
    ensures BooksOf(store, redis) == Erased(old(BooksOf(store, redis)), u, withPosts).(tokens := redis.tokens)
    ensures u !in store.users && forall v :: v in old(store.users) && v != u ==> v in store.users && store.users[v] == old(store.users)[v]
    ensures forall p :: p in store.posts <==>
              p in old(store.posts) && !(withPosts && old(store.posts)[p].author == Some(u)) && (u, p) !in old(store.answers)
    ensures forall p :: p in store.posts ==>
              var was := old(store.posts)[p];
              store.posts[p] == if was.author == Some(u) then was.(author := None) else was
    ensures forall k :: k in store.reviews <==>
              k in old(store.reviews) && k.0 != u && (k.1 in old(store.posts) ==> k.1 in store.posts)
    ensures forall k :: k in store.reviews ==> store.reviews[k] == old(store.reviews)[k]
  {
    var gone := set p | p in store.posts && ((withPosts && store.posts[p].author == Some(u)) || (u, p) in store.answers);
    assert gone == ErasedPosts(BooksOf(store, redis), u, withPosts);
    store.reviews := RowsWithout(store.reviews, u, gone);
    store.answers := RowsWithout(store.answers, u, gone);
    store.posts := map p | p in store.posts && p !in gone :: Anonymised(store.posts[p], u);
    store.users := store.users - {u};
  }

  /** Tombstones for erased posts, whose delivered-to sets go at once. */
  method MarkDeleted(redis: Redis, posts: set<PostId>)
    modifies redis`deleted, redis`seen, redis`seenExpiry
    ensures redis.deleted == old(redis.deleted) + posts
    ensures redis.seen == old(redis.seen) - posts && redis.seenExpiry == old(redis.seenExpiry) - posts
  {
    redis.deleted := redis.deleted + posts;
    redis.seen := redis.seen - posts;
    redis.seenExpiry := redis.seenExpiry - posts;
  }

  /** Whether a rebuild has set every user's balance but those left, and no others. */
  ghost predicate Reset(b: Books, grant: nat, left: set<UserId>, tokens: map<UserId, int>) {
    && tokens.Keys == b.tokens.Keys + (b.users.Keys - left)
    && forall u :: u in tokens ==>
         tokens[u] == if u in b.users && u !in left then RebuiltBalance(b, grant, u) else b.tokens[u]
  }

  lemma ResetNone(b: Books, grant: nat)
    ensures Reset(b, grant, b.users.Keys, b.tokens)
  {
  }

  lemma ResetOneMore(b: Books, grant: nat, left: set<UserId>, tokens: map<UserId, int>, u: UserId)
    requires u in left && u in b.users && Reset(b, grant, left, tokens)
    ensures Reset(b, grant, left - {u}, tokens[u := RebuiltBalance(b, grant, u)])
  {
  }

  /** Reset every balance from the tables. */
  method RebuildTokens(store: Store, redis: Redis, grant: nat)
    modifies redis`tokens
    ensures Reset(old(BooksOf(store, redis)), grant, {}, redis.tokens)
  {
    ghost var before := BooksOf(store, redis);
    var left := store.users.Keys;
    ResetNone(before, grant);
    while left != {}
      invariant left <= store.users.Keys
      invariant Reset(before, grant, left, redis.tokens)
      decreases |left|
    {
      var u :| u in left;
      var balance := RebuiltTokens(store, u, grant);
      ResetOneMore(before, grant, left, redis.tokens, u);
      redis.tokens := redis.tokens[u := balance];
      left := left - {u};
    }
  }

  /** One balance from the tables: the grant and the reviews, less gifts given, plus received. */
  method RebuiltTokens(store: Store, u: UserId, grant: nat) returns (balance: int)
    requires u in store.users
    ensures balance == RebuiltFrom(store.users[u], store.posts, store.reviews, grant, u)
  {
    var given := GiftsFrom(store.reviews, u);
    var received := GiftsTo(store.posts, store.reviews, u);
    return grant + store.users[u].reviewed - |given| + |received|;
  }
}
