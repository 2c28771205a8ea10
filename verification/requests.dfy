/** Whole requests, across the modules they touch: a publication charged at the quoted price, a
    review that may be followed by a test post, and the deletion of an account. */
module Requests {
  import opened FeedTypes
  import opened FeedScripts
  import opened Ledger
  import opened Dispatch
  import opened Economy
  import opened PostBlocks
  import Fanout
  import Audience = AudienceIndex
  import Prices = PriceService
  import Window = PriceWindow
  import Race = PriceRace
  import Pricing
  import Probes

  // ----- publishing -----

  datatype PublishReply =
    | ChannelNotFound
    | LanguageInvalid
    | BlocksRefused(why: BlocksReply)
    | LanguageRequiresNoText
    | InsufficientTokens(balance: int, price: int)
    | Created(post: PostId, balance: int)

  predicate BlocksFine(blocks: seq<Block>, files: nat, limits: Limits) {
    1 <= |blocks| <= limits.maxBlocks && MediaCount(blocks) <= limits.maxFiles && WellMade(blocks, files)
  }

  /** Whether a publication gets as far as its price. */
  predicate Accepted(channels: set<ChannelId>, content: seq<Language>, route: Route, blocks: seq<Block>, files: nat, limits: Limits) {
    Publishable(channels, content, route, HasText(blocks)) && BlocksFine(blocks, files, limits)
  }

  /** Why one that does not is refused: its channel, then its language, then its blocks, then
      text in a post that claims no language. */
  predicate RefusedFor(reply: PublishReply, channels: set<ChannelId>, content: seq<Language>, route: Route,
                       blocks: seq<Block>, files: nat, limits: Limits) {
    && (reply.ChannelNotFound? <==> route.channel !in channels)
    && (reply.LanguageInvalid? <==> route.channel in channels && route.language != UNSPECIFIED && route.language !in content)
    && (reply.BlocksRefused? <==>
          && route.channel in channels && (route.language == UNSPECIFIED || route.language in content)
          && !BlocksFine(blocks, files, limits))
    && (reply.LanguageRequiresNoText? <==>
          route.channel in channels && route.language == UNSPECIFIED && HasText(blocks) && BlocksFine(blocks, files, limits))
  }

  /** The checks before the price, in the order their refusals come. */
  method CheckPublication(store: Store, content: seq<Language>, route: Route, blocks: seq<Block>, files: nat, limits: Limits)
    returns (refused: Option<PublishReply>)
    ensures refused.None? <==> Accepted(store.channels, content, route, blocks, files, limits)
    ensures refused.Some? ==> !refused.value.Created? && !refused.value.InsufficientTokens?
    ensures refused.Some? ==> RefusedFor(refused.value, store.channels, content, route, blocks, files, limits)
  {
    if route.channel !in store.channels {
      return Some(ChannelNotFound);
    }
    if route.language != UNSPECIFIED && route.language !in content {
      return Some(LanguageInvalid);
    }
    var why := CheckBlocks(blocks, files, limits);
    if !why.Fine? {
      return Some(BlocksRefused(why));
    }
    if route.language == UNSPECIFIED && exists b :: b in blocks && b.Text? {
      return Some(LanguageRequiresNoText);
    }
    return None;
  }

  /** The price a publication on a route asks, frozen or computed. */
  function PriceAsked(pc: Pricing.PriceSettings, b: Window.Board, route: Route, now: real, load: Window.Load): (price: nat)
    requires Pricing.ValidPrices(pc) && Window.NonNegative(b)
  {
    Window.AskedNonNegative(pc, b, [route], now, load);
    Window.Answer(pc, b, [route], now, load, route)
  }

  /** Publish an original post. A refusal of its channel, language or blocks changes nothing; past
      those the route is priced, and the post is charged that price, added and sent out with its
      author's name, or nothing more happens because the balance does not cover it. */
  method CreatePost(pc: Pricing.PriceSettings, store: Store, redis: Redis, prices: Prices.PriceKeys, content: seq<Language>,
                    u: UserId, route: Route, blocks: seq<Block>, files: nat, limits: Limits, now: real, load: Window.Load)
    returns (reply: PublishReply)
    requires u in store.users && Pricing.ValidPrices(pc) && Window.NonNegative(prices.View())
    modifies store`posts, store`nextPost, store`spent, redis`tokens, redis`stream, redis`nextEntry, redis`outstanding, prices
    ensures Window.NonNegative(prices.View())
    ensures reply.Created? || reply.InsufficientTokens? <==> Accepted(store.channels, content, route, blocks, files, limits)
    ensures RefusedFor(reply, store.channels, content, route, blocks, files, limits)
    ensures !(reply.Created? || reply.InsufficientTokens?) ==> prices.View() == old(prices.View())
    ensures reply.Created? || reply.InsufficientTokens? ==>
              && prices.View() == Window.Asked(pc, old(prices.View()), [route], now, load)
              && (reply.Created? <==>
                    store.users[u].superuser || PriceAsked(pc, old(prices.View()), route, now, load) <= old(redis.Balance(u)))
              && reply.balance == redis.Balance(u)
    ensures reply.InsufficientTokens? ==> reply.price == PriceAsked(pc, old(prices.View()), route, now, load)
    ensures !reply.Created? ==> BooksOf(store, redis) == old(BooksOf(store, redis)) && redis.stream == old(redis.stream)
    ensures !reply.Created? ==> redis.outstanding == old(redis.outstanding)
    ensures reply.Created? ==> reply.post == old(store.nextPost)
    ensures reply.Created? ==>
              BooksOf(store, redis)
              == Published(old(BooksOf(store, redis)), u, route, PriceAsked(pc, old(prices.View()), route, now, load))
    ensures reply.Created? ==> store.posts == old(store.posts)[reply.post := Post(route, Some(u), false, 0, 0, 0)]
    ensures reply.Created? && !store.users[u].superuser ==>
              redis.Balance(u) == old(redis.Balance(u)) - PriceAsked(pc, old(prices.View()), route, now, load)
    ensures reply.Created? && store.users[u].superuser ==> redis.Balance(u) == old(redis.Balance(u))
    ensures reply.Created? ==> redis.stream == old(redis.stream)[old(redis.nextEntry) := Op(reply.post, route, Some(u), None, None)]
    ensures reply.Created? ==> redis.outstanding == Changed(old(redis.outstanding), route, 1)
  {
    var refused := CheckPublication(store, content, route, blocks, files, limits);
    if refused.Some? {
      return refused.value;
    }
    Window.AskedNonNegative(pc, prices.View(), [route], now, load);
    ghost var asked := PriceAsked(pc, prices.View(), route, now, load);
    var priced := prices.RoutePrices(pc, [route], now, load);
    assert route in [route] && priced[route] == asked;
    var p := PublishPaid(store, redis, u, route, priced[route]);
    return if p.Some? then Created(p.value, redis.Balance(u)) else InsufficientTokens(redis.Balance(u), priced[route]);
  }

  /** What a reader was quoted is what publishing costs, command by command: once a route stands
      at a price, a publication whose own price request looks before the expiry is charged just
      that, whatever other requests do in between, unless one that had already missed the route
      wrote it anew. Superusers pay nothing. */
  lemma QuotedIsCharged(pc: Pricing.PriceSettings, s: Race.State, steps: seq<Race.Step>, t: Race.State, id: nat, load: Window.Load,
                        r: Route, quoted: nat, expires: real, books: Books, u: UserId)
    requires Pricing.ValidPrices(pc) && Race.Reachable(pc, s) && Race.Leads(pc, s, steps, t)
    requires Race.Stands(s, r, quoted, expires) && t.now < expires
    requires Race.NeverRewritten(pc, s, steps, Race.Missers(s, r), r, quoted, expires)
    requires id in t.requests && t.requests[id].pc.Looking? && t.requests[id].pc.routes == [r] && u in books.users
    ensures
      var q := Race.AfterStep(pc, t, Race.Proceed(id, load)).requests[id];
      && r in q.prices && q.prices[r] == quoted
      && BalanceOf(Published(books, u, r, q.prices[r]), u) == BalanceOf(books, u) - if books.users[u].superuser then 0 else quoted
  {
    assert r in t.requests[id].pc.routes;
    Race.AnsweredAgain(pc, s, steps, t, id, load, r, quoted, expires);
    PriceIsTaken(books, u, r, quoted);
  }

  lemma PriceIsTaken(books: Books, u: UserId, r: Route, price: nat)
    requires u in books.users
    ensures BalanceOf(Published(books, u, r, price), u) == BalanceOf(books, u) - if books.users[u].superuser then 0 else price
  {
  }

  // ----- reviewing, and the test that may follow -----

  /** The wordings of test posts, by the languages there are any in. */
  type Wordings = w: map<Language, set<Probes.Code>> | forall l :: l in w ==> w[l] != {} witness map[]

  datatype Test = Test(route: Route, code: Probes.Code)

  /** A test for a reader: a channel they subscribe to, a language they read and a wording in it
      not shown lately, unless all were. */
  predicate TestFor(subs: set<Audience.Subscription>, languages: seq<Language>, wordings: Wordings, recent: seq<Probes.Code>,
                    u: UserId, t: Test) {
    && (u, t.route.channel) in subs && t.route.language in languages && t.route.language in wordings
    && Probes.Pickable(t.code, wordings[t.route.language], recent)
  }

  predicate Testable(subs: set<Audience.Subscription>, languages: seq<Language>, wordings: Wordings, u: UserId) {
    (exists s :: s in subs && s.0 == u) && exists l :: l in languages && l in wordings
  }

  method ChooseTest(pg: Audience.Postgres, keys: Probes.ProbeKeys, wordings: Wordings, u: UserId) returns (t: Option<Test>)
    ensures t.Some? <==> Testable(pg.subs, Audience.LanguagesOf(pg.languages, u), wordings, u)
    ensures t.Some? ==> TestFor(pg.subs, Audience.LanguagesOf(pg.languages, u), wordings, keys.recent, u, t.value)
  {
    var languages := Audience.LanguagesOf(pg.languages, u);
    var offered := set l | l in languages && l in wordings;
    var channels := set s | s in pg.subs && s.0 == u;
    if offered == {} {
      assert forall l :: l in languages && l in wordings ==> l in offered;
      return None;
    }
    if channels == {} {
      assert forall s :: s in pg.subs && s.0 == u ==> s in channels;
      return None;
    }
    var l :| l in offered;
    var s :| s in channels;
    var code := keys.PickVariant(wordings[l]);
    return Some(Test(Route(s.1, l), code.value));
  }

  /** What the roll after a review does to the reader's queue, probe keys and rows: nothing but
      the count when it loses or no test can be made, otherwise one test post, placed and
      remembered. */
  method RollForTest(c: Settings, ps: Probes.ProbeSettings, store: Store, redis: Redis, keys: Probes.ProbeKeys,
                     pg: Audience.Postgres, wordings: Wordings, u: UserId, now: int, lucky: bool, expiry: int)
    returns (minted: Option<PostId>, ghost test: Option<Test>)
    modifies store`posts, store`nextPost, redis`queues, redis`freeQueue, redis`seen, redis`seenExpiry, keys
    ensures
      var k, f, b := old(keys.View()), old(redis.View()), old(BooksOf(store, redis));
      var p := old(store.nextPost);
      && (test.Some? <==>
            && Probes.Wins(ps, k, now, lucky) && |QueueOf(f, u)| < c.maxSlots
            && Testable(pg.subs, Audience.LanguagesOf(pg.languages, u), wordings, u))
      && (test.Some? ==> TestFor(pg.subs, Audience.LanguagesOf(pg.languages, u), wordings, k.recent, u, test.value))
      && BooksOf(store, redis) == (if test.Some? then ProbeMinted(b, test.value.route, store.system) else b)
      && redis.View() == (if test.Some? then Placed(f, u, p, c.maxSlots, c.excludeSeen, expiry) else f)
      && minted == (if test.Some? && !Refuses(f, u, p, c.excludeSeen) then Some(p) else None)
      && keys.View() == if minted.Some? then Probes.Minted(ps, Probes.Rolled(ps, k, now), now, test.value.code)
                        else Probes.Rolled(ps, k, now)
  {
    test := None;
    var wins := keys.ShouldMint(ps, now, lucky);
    if !wins {
      return None, None;
    }
    var chosen := ChooseTest(pg, keys, wordings, u);
    if chosen.None? || |redis.Queue(u)| >= c.maxSlots {
      return None, None;
    }
    test := chosen;
    minted := MintProbe(c, store, redis, u, Some(chosen.value.route), expiry);
    if minted.Some? {
      keys.RecordMint(ps, now, chosen.value.code);
    }
  }

  /** What follows a review with this outcome, from queues `f`, probe keys `k`, books `b`: one test
      exactly when the review was committed, the roll wins, one can be made and the queue has room;
      it is written and placed, and remembered if it lands. An answer ends the outstanding test. */
  predicate Followed(c: Settings, ps: Probes.ProbeSettings, subs: set<Audience.Subscription>, languages: seq<Language>,
                     wordings: Wordings, system: UserId, u: UserId, outcome: Outcome, now: int, lucky: bool, expiry: int,
                     b: Books, f: Feed, k: Probes.Keys, b': Books, f': Feed, k': Probes.Keys,
                     minted: Option<PostId>, test: Option<Test>) {
    && (test.Some? <==>
          outcome.Committed? && |QueueOf(f, u)| < c.maxSlots && Probes.Wins(ps, k, now, lucky) && Testable(subs, languages, wordings, u))
    && (test.Some? ==> TestFor(subs, languages, wordings, k.recent, u, test.value))
    && b' == (if test.Some? then ProbeMinted(b, test.value.route, system) else b)
    && f' == (if test.Some? then Placed(f, u, b.nextPost, c.maxSlots, c.excludeSeen, expiry) else f)
    && minted == (if test.Some? && !Refuses(f, u, b.nextPost, c.excludeSeen) then Some(b.nextPost) else None)
    && k' == (if minted.Some? then Probes.Minted(ps, Probes.Rolled(ps, k, now), now, test.value.code)
              else if outcome.Committed? then Probes.Rolled(ps, k, now)
              else if outcome.AnswerCounted? || outcome.AnswerRejected? then k.(pendingUntil := None)
              else k)
  }

  method FollowUp(c: Settings, ps: Probes.ProbeSettings, store: Store, redis: Redis, keys: Probes.ProbeKeys,
                  pg: Audience.Postgres, wordings: Wordings, u: UserId, outcome: Outcome, now: int, lucky: bool, expiry: int)
    returns (minted: Option<PostId>, ghost test: Option<Test>)
    modifies store`posts, store`nextPost, redis`queues, redis`freeQueue, redis`seen, redis`seenExpiry, keys
    ensures Followed(c, ps, pg.subs, Audience.LanguagesOf(pg.languages, u), wordings, store.system, u, outcome, now, lucky, expiry,
                     old(BooksOf(store, redis)), old(redis.View()), old(keys.View()),
                     BooksOf(store, redis), redis.View(), keys.View(), minted, test)
  {
    minted, test := None, None;
    if outcome.Committed? {
      minted, test := RollForTest(c, ps, store, redis, keys, pg, wordings, u, now, lucky, expiry);
    } else if outcome.AnswerCounted? || outcome.AnswerRejected? {
      keys.RecordAnswer();
    }
  }

  /** A whole review request. Only a committed review is followed by a roll, which sends nothing
      out. */
  method Review(c: Settings, ps: Probes.ProbeSettings, store: Store, redis: Redis, keys: Probes.ProbeKeys,
                pg: Audience.Postgres, wordings: Wordings, u: UserId, p: PostId, kind: Kind, gift: bool,
                expected: Option<Kind>, fanout: Option<int>, now: int, lucky: bool, expiry: int)
    returns (outcome: Outcome, minted: Option<PostId>, ghost test: Option<Test>)
    requires u in store.users && (gift ==> kind == Forward)
    modifies store`users, store`posts, store`reviews, store`history, store`answers, store`answered, store`nextPost, keys
    modifies redis`tokens, redis`queues, redis`freeQueue, redis`stream, redis`nextEntry, redis`outstanding, redis`seen, redis`seenExpiry
    ensures outcome == OutcomeOf(old(BooksOf(store, redis)), old(redis.Queue(u)), u, p, gift, expected)
    ensures outcome.Committed? && kind == Forward ==>
              && redis.stream == old(redis.stream)[old(redis.nextEntry) :=
                                   Op(p, old(store.posts)[p].route, old(store.posts)[p].author, fanout, None)]
              && redis.outstanding == Changed(old(redis.outstanding), old(store.posts)[p].route, 1)
    ensures !(outcome.Committed? && kind == Forward) ==>
              redis.stream == old(redis.stream) && redis.outstanding == old(redis.outstanding)
    ensures Followed(c, ps, pg.subs, Audience.LanguagesOf(pg.languages, u), wordings, store.system, u, outcome, now, lucky, expiry,
                     Outcomes(old(BooksOf(store, redis)), outcome, u, p, kind, gift, expected),
                     QueueAfter(c, old(redis.View()), outcome, u, p), old(keys.View()),
                     BooksOf(store, redis), redis.View(), keys.View(), minted, test)
  {
    outcome := ReviewPost(c, store, redis, u, p, kind, gift, expected, fanout);
    ghost var b, f := BooksOf(store, redis), redis.View();
    assert b == Outcomes(old(BooksOf(store, redis)), outcome, u, p, kind, gift, expected);
    assert f == QueueAfter(c, old(redis.View()), outcome, u, p);
    minted, test := FollowUp(c, ps, store, redis, keys, pg, wordings, u, outcome, now, lucky, expiry);
  }

  /** A review, and a worker taking up what it minted: only a committed forward goes out, to no
      more readers than it was given, each in the audience of the post's own route, and never to
      its author. It goes to all that many if enough other readers are free, not the author and
      new to the post, and the sample covers the audience. */
  method ReviewAndFanOut(c: Settings, store: Store, redis: Redis, u: UserId, p: PostId, kind: Kind, gift: bool,
                         expected: Option<Kind>, fanout: Option<int>, now: int)
    returns (outcome: Outcome, delivered: nat, ghost served: seq<UserId>)
    requires u in store.users && (gift ==> kind == Forward)
    modifies store`users, store`posts, store`reviews, store`history, store`answers, store`answered
    modifies redis`tokens, redis`queues, redis`freeQueue, redis`seen, redis`seenExpiry
    modifies redis`stream, redis`nextEntry, redis`outstanding, redis`retry, redis`nextMember
    ensures delivered == |served| && Distinct(served)
    ensures outcome == OutcomeOf(old(BooksOf(store, redis)), old(redis.Queue(u)), u, p, gift, expected)
    ensures served != [] ==> outcome.Committed? && kind == Forward
    ensures fanout.Some? && fanout.value >= 1 ==> delivered <= fanout.value
    ensures forall v :: v in served ==>
              && p in old(store.posts) && (FeedTypes.Audience(old(store.posts)[p].route), v) in redis.members
              && !(c.excludeOwn && old(store.posts)[p].author == Some(v)) && p in redis.Queue(v)
    ensures outcome.Committed? && kind == Forward && p !in redis.deleted && fanout.Some? && 1 <= fanout.value && delivered < fanout.value
            && |Fanout.AudienceIn(redis.members, old(store.posts)[p].route)| <= fanout.value * c.sampleMultiplier ==>
              forall v ::
                && (FeedTypes.Audience(old(store.posts)[p].route), v) in redis.members && v in old(redis.freeQueue)
                && !(c.excludeOwn && old(store.posts)[p].author == Some(v)) && !(c.excludeSeen && v in SeenOf(old(redis.View()), p))
                ==> v in served
  {
    var e := redis.nextEntry;
    outcome := ReviewPost(c, store, redis, u, p, kind, gift, expected, fanout);
    delivered, served := 0, [];
    assert old(redis.freeQueue) <= redis.freeQueue && redis.seen == old(redis.seen);
    if outcome.Committed? && kind == Forward {
      assert redis.stream[e] == Op(p, old(store.posts)[p].route, old(store.posts)[p].author, fanout, None);
      delivered, served := Fanout.ProcessOperation(c, redis, redis.stream[e], now);
    }
  }

  /** However a review ends and whether or not a test follows, the reader's queue never ends
      longer than it was: the claim makes room for the test. */
  lemma QueueDoesNotGrow(c: Settings, b: Books, f: Feed, u: UserId, p: PostId, gift: bool, expected: Option<Kind>,
                         q: PostId, expiry: int)
    ensures
      var o := OutcomeOf(b, QueueOf(f, u), u, p, gift, expected);
      var g := QueueAfter(c, f, o, u, p);
      && |QueueOf(g, u)| <= |QueueOf(f, u)|
      && (o.Committed? ==> |QueueOf(Placed(g, u, q, c.maxSlots, c.excludeSeen, expiry), u)| <= |QueueOf(f, u)|)
  {
    if p in QueueOf(f, u) {
      RemoveFirstTakesOne(QueueOf(f, u), p);
    }
  }

  // ----- deleting an account -----

  /** Delete an account: its rows in one commit, then its balance, queue, reachability and every
      audience set, then its probe keys, then tombstones for its posts if they went with it. The
      other accounts keep their rows and the index mirrors the tables. */
  method DeleteAccount(store: Store, pg: Audience.Postgres, redis: Redis, keys: Probes.ProbeKeys, content: seq<Language>,
                       u: UserId, withPosts: bool)
    requires Audience.ValidTables(pg, content) && Audience.Mirrored(pg, redis)
    modifies store`users, store`posts, store`reviews, store`answers, pg, keys
    modifies redis`tokens, redis`queues, redis`freeQueue, redis`members, redis`subsTotal, redis`deleted, redis`seen, redis`seenExpiry
    ensures BooksOf(store, redis) == Erased(old(BooksOf(store, redis)), u, withPosts)
    ensures Audience.ValidTables(pg, content) && Audience.Mirrored(pg, redis)
    ensures u !in pg.languages && forall m :: m in redis.members ==> m.1 != u
    ensures keys.View() == Probes.Keys(None, 0, [])
    ensures redis.queues == old(redis.queues) - {u} && redis.freeQueue == old(redis.freeQueue) - {u}
    ensures forall p :: p in redis.deleted <==>
              p in old(redis.deleted) || (withPosts && p in old(store.posts) && old(store.posts)[p].author == Some(u))
    ensures forall p :: p in redis.deleted && p !in old(redis.deleted) ==> p !in redis.seen && p !in redis.seenExpiry
    ensures !withPosts ==> redis.seen == old(redis.seen) && redis.seenExpiry == old(redis.seenExpiry)
  {
    var own := set p | p in store.posts && store.posts[p].author == Some(u);
    EraseRows(store, redis, u, withPosts);
    Audience.DeleteAccount(pg, redis, content, u);
    keys.Forget();
    ForgetPosts(redis, own, withPosts);
  }

  /** Tombstones for erased posts, if they are erased. */
  method ForgetPosts(redis: Redis, own: set<PostId>, withPosts: bool)
    modifies redis`deleted, redis`seen, redis`seenExpiry
    ensures redis.deleted == if withPosts then old(redis.deleted) + own else old(redis.deleted)
    ensures redis.seen == if withPosts then old(redis.seen) - own else old(redis.seen)
    ensures redis.seenExpiry == if withPosts then old(redis.seenExpiry) - own else old(redis.seenExpiry)
  {
    if withPosts {
      MarkDeleted(redis, own);
    }
  }
}
