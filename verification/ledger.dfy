/** The books of the economy: accounts, posts, reviews and balances, as values. Every request
    is one transition; the entries ever made are remembered, so that what an erasure removes
    from the tables can still be accounted for. */
module Ledger {
  import opened FeedTypes

  datatype Kind = Forward | Drop

  datatype Account = Account(reviewed: nat, forwarded: nat, dropped: nat, superuser: bool)

  datatype Post = Post(route: Route, author: Option<UserId>, probe: bool, forwarded: nat, dropped: nat, gifted: nat)

  datatype Review = Review(kind: Kind, gifted: bool)

  type Key = (UserId, PostId)

  /** A review as it was made, with the author a gift went to. */
  datatype Entry = Entry(kind: Kind, gift: Option<UserId>)

  /** The tables and balances, and beside them what was ever entered, answered and spent. */
  datatype Books = Books(
    users: map<UserId, Account>, posts: map<PostId, Post>, reviews: map<Key, Review>, answers: map<Key, bool>,
    tokens: map<UserId, int>, nextPost: PostId,
    history: map<Key, Entry>, answered: map<UserId, nat>, spent: map<UserId, nat>, known: set<UserId>)

  function Opening(): Books {
    Books(map[], map[], map[], map[], map[], 0, map[], map[], map[], {})
  }

  // ----- counting entries -----

  datatype Tally =
    | Kept(user: UserId)
    | Given(user: UserId)
    | Received(user: UserId)
    | ForwardedBy(user: UserId)
    | DroppedBy(user: UserId)
    | ForwardsOf(post: PostId)
    | DropsOf(post: PostId)
    | GiftsOf(post: PostId)

  predicate Matches(t: Tally, k: Key, e: Entry) {
    match t
    case Kept(u) => k.0 == u && e.gift.None?
    case Given(u) => k.0 == u && e.gift.Some?
    case Received(u) => e.gift == Some(u)
    case ForwardedBy(u) => k.0 == u && e.kind == Forward
    case DroppedBy(u) => k.0 == u && e.kind == Drop
    case ForwardsOf(p) => k.1 == p && e.kind == Forward
    case DropsOf(p) => k.1 == p && e.kind == Drop
    case GiftsOf(p) => k.1 == p && e.gift.Some?
  }

  function Entries(history: map<Key, Entry>, t: Tally): set<Key> {
    set k | k in history && Matches(t, k, history[k])
  }

  function Count(history: map<Key, Entry>, t: Tally): nat {
    |Entries(history, t)|
  }

  lemma CountGrows(history: map<Key, Entry>, k: Key, e: Entry, t: Tally)
    requires k !in history
    ensures Count(history[k := e], t) == Count(history, t) + (if Matches(t, k, e) then 1 else 0)
  {
    var before := Entries(history, t);
    assert Entries(history[k := e], t) == if Matches(t, k, e) then before + {k} else before;
  }

  lemma CountIsZero(history: map<Key, Entry>, t: Tally)
    requires forall k :: k in history ==> !Matches(t, k, history[k])
    ensures Count(history, t) == 0
  {
    assert Entries(history, t) == {};
  }

  /** Every entry is kept or given away, and is a forward or a drop. */
  lemma EntriesSplit(history: map<Key, Entry>, u: UserId)
    ensures Count(history, Kept(u)) + Count(history, Given(u)) == Count(history, ForwardedBy(u)) + Count(history, DroppedBy(u))
  {
    var kept, given := Entries(history, Kept(u)), Entries(history, Given(u));
    var forwarded, dropped := Entries(history, ForwardedBy(u)), Entries(history, DroppedBy(u));
    assert kept !! given && forwarded !! dropped && kept + given == forwarded + dropped;
  }

  // ----- soundness -----

  function BalanceOf(b: Books, u: UserId): int {
    if u in b.tokens then b.tokens[u] else 0
  }

  function AnsweredBy(b: Books, u: UserId): nat {
    if u in b.answered then b.answered[u] else 0
  }

  function SpentBy(b: Books, u: UserId): nat {
    if u in b.spent then b.spent[u] else 0
  }

  /** One account: its counters are its entries, and its balance is the starting grant, the
      reviews kept, the gifts received and the probes answered, less the prices charged. */
  predicate AccountOk(b: Books, grant: nat, u: UserId)
    requires u in b.users
  {
    && b.users[u].forwarded == Count(b.history, ForwardedBy(u))
    && b.users[u].dropped == Count(b.history, DroppedBy(u))
    && b.users[u].reviewed == b.users[u].forwarded + b.users[u].dropped
    && BalanceOf(b, u) == grant + Count(b.history, Kept(u)) + Count(b.history, Received(u)) + AnsweredBy(b, u) - SpentBy(b, u)
    && BalanceOf(b, u) >= 0
    && u in b.known
  }

  ghost predicate AccountsOk(b: Books, grant: nat) {
    forall u :: u in b.users ==> AccountOk(b, grant, u)
  }

  /** One post: its counters are its entries, its author has an account, and a probe has none
      of either. */
  predicate PostOk(b: Books, p: PostId)
    requires p in b.posts
  {
    && b.posts[p].forwarded == Count(b.history, ForwardsOf(p))
    && b.posts[p].dropped == Count(b.history, DropsOf(p))
    && b.posts[p].gifted == Count(b.history, GiftsOf(p))
    && (b.posts[p].author.Some? && !b.posts[p].probe ==> b.posts[p].author.value in b.users)
    && p < b.nextPost
  }

  ghost predicate PostsOk(b: Books) {
    forall p :: p in b.posts ==> PostOk(b, p)
  }

  /** One review row stands for its entry, between an account and an ordinary post. */
  predicate RowOk(b: Books, k: Key)
    requires k in b.reviews
  {
    && k in b.history && k.0 in b.users && k.1 in b.posts
    && !b.posts[k.1].probe
    && b.reviews[k].kind == b.history[k].kind
    && (b.reviews[k].gifted <==> b.history[k].gift.Some?)
    && (b.history[k].gift.Some? && b.history[k].gift.value in b.users ==> b.posts[k.1].author == b.history[k].gift)
    && (b.history[k].gift.Some? && b.posts[k.1].author.Some? ==> b.posts[k.1].author == b.history[k].gift)
  }

  ghost predicate RowsOk(b: Books) {
    forall k :: k in b.reviews ==> RowOk(b, k)
  }

  /** An entry names only ids handed out, and its row is gone only with its user or its post. */
  predicate EntryOk(b: Books, k: Key)
    requires k in b.history
  {
    && k.0 in b.known && k.1 < b.nextPost
    && (b.history[k].gift.Some? ==> b.history[k].gift.value in b.known)
    && (k.0 in b.users && k.1 in b.posts ==> k in b.reviews)
  }

  ghost predicate EntriesOk(b: Books) {
    && (forall k :: k in b.history ==> EntryOk(b, k))
    && b.spent.Keys <= b.known && b.answered.Keys <= b.known && b.tokens.Keys <= b.users.Keys
  }

  ghost predicate Sound(b: Books, grant: nat) {
    AccountsOk(b, grant) && PostsOk(b) && RowsOk(b) && EntriesOk(b)
  }

  // ----- the requests -----

  function Credited(tokens: map<UserId, int>, u: UserId, amount: int): map<UserId, int> {
    tokens[u := (if u in tokens then tokens[u] else 0) + amount]
  }

  function Registered(b: Books, u: UserId, superuser: bool, grant: nat): Books {
    b.(users := b.users[u := Account(0, 0, 0, superuser)],
       tokens := Credited(b.tokens, u, grant), known := b.known + {u})
  }

  function Posted(b: Books, x: Post): Books {
    b.(posts := b.posts[b.nextPost := x], nextPost := b.nextPost + 1)
  }

  function Charged(b: Books, u: UserId, price: nat): Books {
    b.(tokens := Credited(b.tokens, u, 0 - price), spent := b.spent[u := SpentBy(b, u) + price])
  }

  function Original(u: UserId, route: Route): Post {
    Post(route, Some(u), false, 0, 0, 0)
  }

  /** Publishing: superusers are not charged. */
  function Published(b: Books, u: UserId, route: Route, price: nat): Books
    requires u in b.users
  {
    if b.users[u].superuser then Posted(b, Original(u, route))
    else Charged(Posted(b, Original(u, route)), u, price)
  }

  function ProbeMinted(b: Books, route: Route, system: UserId): Books {
    Posted(b, Post(route, Some(system), true, 0, 0, 0))
  }

  /** Answering a test post earns its token and moves no counter; only a recognised one is recorded. */
  function Answered(b: Books, u: UserId, p: PostId, given: Kind, expected: Option<Kind>): Books {
    b.(tokens := Credited(b.tokens, u, 1), answered := b.answered[u := AnsweredBy(b, u) + 1],
       answers := if expected.Some? then b.answers[(u, p) := given == expected.value] else b.answers)
  }

  function Tallied(a: Account, kind: Kind): Account {
    match kind
    case Forward => a.(reviewed := a.reviewed + 1, forwarded := a.forwarded + 1)
    case Drop => a.(reviewed := a.reviewed + 1, dropped := a.dropped + 1)
  }

  function Judged(x: Post, kind: Kind, gift: bool): Post {
    match kind
    case Forward => x.(forwarded := x.forwarded + 1, gifted := if gift then x.gifted + 1 else x.gifted)
    case Drop => x.(dropped := x.dropped + 1)
  }

  /** Who a gift on `p` would go to. */
  function Beneficiary(b: Books, p: PostId, gift: bool): Option<UserId>
    requires p in b.posts
  {
    if gift then b.posts[p].author else None
  }

  /** A committed review: the row, both sides' counters, and one token to the reviewer or,
      as a gift, to the author. */
  function Reviewed(b: Books, u: UserId, p: PostId, kind: Kind, gift: bool): Books
    requires u in b.users && p in b.posts
  {
    var to := Beneficiary(b, p, gift);
    b.(users := b.users[u := Tallied(b.users[u], kind)],
       posts := b.posts[p := Judged(b.posts[p], kind, gift)],
       reviews := b.reviews[(u, p) := Review(kind, gift)],
       tokens := Credited(b.tokens, to.GetOr(u), 1),
       history := b.history[(u, p) := Entry(kind, to)])
  }

  predicate GiftAllowed(b: Books, u: UserId, p: PostId)
    requires p in b.posts
  {
    !b.posts[p].probe && b.posts[p].author.Some? && b.posts[p].author != Some(u)
  }

  /** What publishing allows: the balance covers the price, or nothing is charged. */
  predicate Affords(b: Books, u: UserId, price: nat)
    requires u in b.users
  {
    b.users[u].superuser || BalanceOf(b, u) >= price
  }

  /** The posts an erasure takes: the account's own if asked, and the tests it answered. */
  function ErasedPosts(b: Books, u: UserId, withPosts: bool): set<PostId> {
    set p | p in b.posts && ((withPosts && b.posts[p].author == Some(u)) || (u, p) in b.answers)
  }

  function Anonymised(x: Post, u: UserId): Post {
    if x.author == Some(u) then x.(author := None) else x
  }

  /** The rows left when a user's own and those on erased posts go. */
  function RowsWithout<T>(rows: map<Key, T>, u: UserId, gone: set<PostId>): map<Key, T> {
    map k | k in rows && k.0 != u && k.1 !in gone :: rows[k]
  }

  function Erased(b: Books, u: UserId, withPosts: bool): Books {
    var gone := ErasedPosts(b, u, withPosts);
    b.(users := b.users - {u}, tokens := b.tokens - {u},
       posts := map p | p in b.posts && p !in gone :: Anonymised(b.posts[p], u),
       reviews := RowsWithout(b.reviews, u, gone), answers := RowsWithout(b.answers, u, gone))
  }

  datatype Event =
    | Register(user: UserId, superuser: bool)
    | Publish(user: UserId, route: Route, price: nat)
    | Mint(route: Route, system: UserId)
    | Answer(user: UserId, post: PostId, given: Kind, expected: Option<Kind>)
    | Judge(user: UserId, post: PostId, kind: Kind, gift: bool)
    | Erase(user: UserId, withPosts: bool)

  /** When a request goes through: ids of accounts are never reused, the price is affordable,
      and a review is the first of this post by this user. */
  predicate Goes(b: Books, e: Event) {
    match e
    case Register(u, _) => u !in b.known
    case Publish(u, _, price) => u in b.users && Affords(b, u, price)
    case Mint(_, _) => true
    case Answer(u, p, _, _) => u in b.users && p in b.posts && b.posts[p].probe && (u, p) !in b.answers
    case Judge(u, p, kind, gift) =>
      && u in b.users && p in b.posts && !b.posts[p].probe && (u, p) !in b.reviews
      && (gift ==> kind == Forward && GiftAllowed(b, u, p))
    case Erase(u, _) => u in b.users
  }

  function After(b: Books, e: Event, grant: nat): Books
    requires Goes(b, e)
  {
    match e
    case Register(u, superuser) => Registered(b, u, superuser, grant)
    case Publish(u, route, price) => Published(b, u, route, price)
    case Mint(route, system) => ProbeMinted(b, route, system)
    case Answer(u, p, given, expected) => Answered(b, u, p, given, expected)
    case Judge(u, p, kind, gift) => Reviewed(b, u, p, kind, gift)
    case Erase(u, withPosts) => Erased(b, u, withPosts)
  }

  // ----- every request keeps the books sound -----

  /** A fresh account has no entries: ids are handed out once. */
  lemma FreshAccountOk(b: Books, u: UserId, superuser: bool, grant: nat)
    requires EntriesOk(b) && u !in b.known
    requires b.users.Keys <= b.known
    ensures AccountOk(Registered(b, u, superuser, grant), grant, u)
  {
    forall k | k in b.history ensures k.0 != u && b.history[k].gift != Some(u) {
      assert EntryOk(b, k);
    }
    CountIsZero(b.history, ForwardedBy(u));
    CountIsZero(b.history, DroppedBy(u));
    CountIsZero(b.history, Kept(u));
    CountIsZero(b.history, Received(u));
  }

  lemma UsersAreKnown(b: Books, grant: nat)
    requires AccountsOk(b, grant)
    ensures b.users.Keys <= b.known
  {
    forall u | u in b.users ensures u in b.known {
      assert AccountOk(b, grant, u);
    }
  }

  /** An account whose own numbers and entries are as before is as good as before. */
  lemma AccountCarries(b: Books, after: Books, grant: nat, v: UserId)
    requires v in b.users && AccountOk(b, grant, v) && v in after.users && after.users[v] == b.users[v]
    requires after.history == b.history && BalanceOf(after, v) == BalanceOf(b, v) && v in after.known
    requires AnsweredBy(after, v) == AnsweredBy(b, v) && SpentBy(after, v) == SpentBy(b, v)
    ensures AccountOk(after, grant, v)
  {
  }

  lemma PostCarries(b: Books, after: Books, p: PostId)
    requires p in b.posts && PostOk(b, p) && p in after.posts && after.posts[p] == b.posts[p]
    requires after.history == b.history && b.users.Keys <= after.users.Keys && b.nextPost <= after.nextPost
    ensures PostOk(after, p)
  {
  }

  /** Rows and entries are as good as before when users, posts and rows are only added to. */
  lemma RowCarries(b: Books, after: Books, k: Key)
    requires k in b.reviews && RowOk(b, k)
    requires after.reviews == b.reviews && after.history == b.history && b.users.Keys <= after.users.Keys
    requires k.1 in after.posts && (k.1 in b.posts ==> after.posts[k.1] == b.posts[k.1])
    requires b.history[k].gift.Some? ==> (b.history[k].gift.value in after.users <==> b.history[k].gift.value in b.users)
    ensures RowOk(after, k)
  {
  }

  lemma EntryCarries(b: Books, after: Books, k: Key)
    requires k in b.history && EntryOk(b, k)
    requires after.reviews == b.reviews && after.history == b.history
    requires b.known <= after.known && b.nextPost <= after.nextPost
    requires k.0 in after.users ==> k.0 in b.users
    requires k.1 in after.posts ==> k.1 in b.posts
    ensures EntryOk(after, k)
  {
  }

  lemma RegisterKeepsAccounts(b: Books, u: UserId, superuser: bool, grant: nat)
    requires AccountsOk(b, grant) && EntriesOk(b) && u !in b.known
    ensures AccountsOk(Registered(b, u, superuser, grant), grant)
  {
    var after := Registered(b, u, superuser, grant);
    UsersAreKnown(b, grant);
    forall v | v in after.users ensures AccountOk(after, grant, v) {
      if v == u {
        FreshAccountOk(b, u, superuser, grant);
      } else {
        AccountCarries(b, after, grant, v);
      }
    }
  }

  lemma RegisterKeeps(b: Books, u: UserId, superuser: bool, grant: nat)
    requires Sound(b, grant) && u !in b.known
    ensures Sound(Registered(b, u, superuser, grant), grant)
  {
    var after := Registered(b, u, superuser, grant);
    UsersAreKnown(b, grant);
    RegisterKeepsAccounts(b, u, superuser, grant);
    forall p | p in after.posts ensures PostOk(after, p) {
      PostCarries(b, after, p);
    }
    forall k | k in after.reviews ensures RowOk(after, k) {
      assert RowOk(b, k) && EntryOk(b, k);
      RowCarries(b, after, k);
    }
    forall k | k in after.history ensures EntryOk(after, k) {
      assert EntryOk(b, k);
      EntryCarries(b, after, k);
    }
  }

  predicate Unjudged(x: Post) {
    x.forwarded == 0 && x.dropped == 0 && x.gifted == 0
  }

  /** A new post has no entries: ids are handed out once. */
  lemma FreshPostOk(b: Books, x: Post)
    requires EntriesOk(b) && Unjudged(x)
    requires x.author.Some? && !x.probe ==> x.author.value in b.users
    ensures PostOk(Posted(b, x), b.nextPost)
  {
    forall k | k in b.history ensures k.1 != b.nextPost {
      assert EntryOk(b, k);
    }
    CountIsZero(b.history, ForwardsOf(b.nextPost));
    CountIsZero(b.history, DropsOf(b.nextPost));
    CountIsZero(b.history, GiftsOf(b.nextPost));
  }

  lemma NewPostKeeps(b: Books, grant: nat, x: Post)
    requires Sound(b, grant) && Unjudged(x)
    requires x.author.Some? && !x.probe ==> x.author.value in b.users
    ensures Sound(Posted(b, x), grant)
  {
    var after := Posted(b, x);
    forall v | v in after.users ensures AccountOk(after, grant, v) {
      AccountCarries(b, after, grant, v);
    }
    forall p | p in after.posts ensures PostOk(after, p) {
      if p == b.nextPost {
        FreshPostOk(b, x);
      } else {
        PostCarries(b, after, p);
      }
    }
    forall k | k in after.reviews ensures RowOk(after, k) {
      assert RowOk(b, k) && EntryOk(b, k);
      RowCarries(b, after, k);
    }
    forall k | k in after.history ensures EntryOk(after, k) {
      assert EntryOk(b, k);
      EntryCarries(b, after, k);
    }
  }

  /** Moving only balances leaves posts, rows and entries as they were. */
  lemma OthersKeep(b: Books, after: Books)
    requires PostsOk(b) && RowsOk(b) && EntriesOk(b)
    requires after.users == b.users && after.posts == b.posts && after.reviews == b.reviews
    requires after.history == b.history && after.known == b.known && after.nextPost == b.nextPost
    requires after.spent.Keys <= b.known && after.answered.Keys <= b.known && after.tokens.Keys <= b.users.Keys
    ensures PostsOk(after) && RowsOk(after) && EntriesOk(after)
  {
    forall p | p in after.posts ensures PostOk(after, p) {
      PostCarries(b, after, p);
    }
    forall k | k in after.reviews ensures RowOk(after, k) {
      RowCarries(b, after, k);
    }
    forall k | k in after.history ensures EntryOk(after, k) {
      EntryCarries(b, after, k);
    }
  }

  lemma ChargeKeepsAccounts(b: Books, grant: nat, u: UserId, price: nat)
    requires AccountsOk(b, grant) && u in b.users && BalanceOf(b, u) >= price
    ensures AccountsOk(Charged(b, u, price), grant)
  {
    forall v | v in b.users ensures AccountOk(Charged(b, u, price), grant, v) {
      assert AccountOk(b, grant, v);
    }
  }

  lemma ChargeKeeps(b: Books, grant: nat, u: UserId, price: nat)
    requires Sound(b, grant) && u in b.users && BalanceOf(b, u) >= price
    ensures Sound(Charged(b, u, price), grant)
  {
    ChargeKeepsAccounts(b, grant, u, price);
    UsersAreKnown(b, grant);
    OthersKeep(b, Charged(b, u, price));
  }

  lemma AnswerKeepsAccounts(b: Books, grant: nat, u: UserId, p: PostId, given: Kind, expected: Option<Kind>)
    requires AccountsOk(b, grant) && u in b.users
    ensures AccountsOk(Answered(b, u, p, given, expected), grant)
  {
    forall v | v in b.users ensures AccountOk(Answered(b, u, p, given, expected), grant, v) {
      assert AccountOk(b, grant, v);
    }
  }

  lemma AnswerKeeps(b: Books, grant: nat, u: UserId, p: PostId, given: Kind, expected: Option<Kind>)
    requires Sound(b, grant) && u in b.users
    ensures Sound(Answered(b, u, p, given, expected), grant)
  {
    AnswerKeepsAccounts(b, grant, u, p, given, expected);
    UsersAreKnown(b, grant);
    OthersKeep(b, Answered(b, u, p, given, expected));
  }

  /** The unique constraint is enough: no row means no entry was ever made. */
  lemma JudgeIsNew(b: Books, u: UserId, p: PostId)
    requires RowsOk(b) && EntriesOk(b) && u in b.users && p in b.posts
    ensures (u, p) in b.reviews <==> (u, p) in b.history
  {
    if (u, p) in b.history {
      assert EntryOk(b, (u, p));
    }
    if (u, p) in b.reviews {
      assert RowOk(b, (u, p));
    }
  }

  lemma JudgeKeepsAccount(b: Books, grant: nat, u: UserId, p: PostId, kind: Kind, gift: bool, v: UserId)
    requires u in b.users && p in b.posts && (u, p) !in b.history && v in b.users && AccountOk(b, grant, v)
    requires gift ==> GiftAllowed(b, u, p)
    ensures AccountOk(Reviewed(b, u, p, kind, gift), grant, v)
  {
    var entry := Entry(kind, Beneficiary(b, p, gift));
    CountGrows(b.history, (u, p), entry, ForwardedBy(v));
    CountGrows(b.history, (u, p), entry, DroppedBy(v));
    CountGrows(b.history, (u, p), entry, Kept(v));
    CountGrows(b.history, (u, p), entry, Received(v));
  }

  lemma JudgeKeepsPost(b: Books, u: UserId, p: PostId, kind: Kind, gift: bool, q: PostId)
    requires u in b.users && p in b.posts && (u, p) !in b.history && q in b.posts && PostOk(b, q)
    requires gift ==> kind == Forward && GiftAllowed(b, u, p)
    ensures PostOk(Reviewed(b, u, p, kind, gift), q)
  {
    var entry := Entry(kind, Beneficiary(b, p, gift));
    CountGrows(b.history, (u, p), entry, ForwardsOf(q));
    CountGrows(b.history, (u, p), entry, DropsOf(q));
    CountGrows(b.history, (u, p), entry, GiftsOf(q));
  }

  lemma JudgeKeepsRow(b: Books, u: UserId, p: PostId, kind: Kind, gift: bool, k: Key)
    requires u in b.users && p in b.posts && !b.posts[p].probe && (gift ==> GiftAllowed(b, u, p))
    requires k == (u, p) || (k in b.reviews && RowOk(b, k))
    ensures RowOk(Reviewed(b, u, p, kind, gift), k)
  {
  }

  lemma JudgeKeepsEntry(b: Books, grant: nat, u: UserId, p: PostId, kind: Kind, gift: bool, k: Key)
    requires u in b.users && p in b.posts && !b.posts[p].probe && (gift ==> GiftAllowed(b, u, p))
    requires b.users.Keys <= b.known && PostOk(b, p)
    requires k == (u, p) || (k in b.history && EntryOk(b, k))
    ensures EntryOk(Reviewed(b, u, p, kind, gift), k)
  {
  }

  lemma JudgeKeepsCounters(b: Books, grant: nat, u: UserId, p: PostId, kind: Kind, gift: bool)
    requires AccountsOk(b, grant) && PostsOk(b) && u in b.users && p in b.posts && (u, p) !in b.history
    requires gift ==> kind == Forward && GiftAllowed(b, u, p)
    ensures AccountsOk(Reviewed(b, u, p, kind, gift), grant) && PostsOk(Reviewed(b, u, p, kind, gift))
  {
    var after := Reviewed(b, u, p, kind, gift);
    forall v | v in after.users ensures AccountOk(after, grant, v) {
      JudgeKeepsAccount(b, grant, u, p, kind, gift, v);
    }
    forall q | q in after.posts ensures PostOk(after, q) {
      JudgeKeepsPost(b, u, p, kind, gift, q);
    }
  }

  lemma JudgeKeepsRows(b: Books, grant: nat, u: UserId, p: PostId, kind: Kind, gift: bool)
    requires PostsOk(b) && RowsOk(b) && EntriesOk(b) && b.users.Keys <= b.known
    requires u in b.users && p in b.posts && !b.posts[p].probe && (gift ==> GiftAllowed(b, u, p))
    ensures RowsOk(Reviewed(b, u, p, kind, gift)) && EntriesOk(Reviewed(b, u, p, kind, gift))
  {
    var after := Reviewed(b, u, p, kind, gift);
    assert PostOk(b, p);
    forall k | k in after.reviews ensures RowOk(after, k) {
      JudgeKeepsRow(b, u, p, kind, gift, k);
    }
    forall k | k in after.history ensures EntryOk(after, k) {
      JudgeKeepsEntry(b, grant, u, p, kind, gift, k);
    }
  }

  lemma ErasePostOk(b: Books, u: UserId, withPosts: bool, p: PostId)
    requires p in b.posts && PostOk(b, p) && p !in ErasedPosts(b, u, withPosts)
    ensures PostOk(Erased(b, u, withPosts), p)
  {
  }

  lemma EraseRowOk(b: Books, u: UserId, withPosts: bool, k: Key)
    requires k in b.reviews && RowOk(b, k) && k.0 != u && k.1 !in ErasedPosts(b, u, withPosts)
    ensures RowOk(Erased(b, u, withPosts), k)
  {
  }

  lemma EraseEntryOk(b: Books, u: UserId, withPosts: bool, k: Key)
    requires k in b.history && EntryOk(b, k)
    ensures EntryOk(Erased(b, u, withPosts), k)
  {
  }

  lemma EraseKeepsCounters(b: Books, grant: nat, u: UserId, withPosts: bool)
    requires AccountsOk(b, grant) && PostsOk(b)
    ensures AccountsOk(Erased(b, u, withPosts), grant) && PostsOk(Erased(b, u, withPosts))
  {
    var after := Erased(b, u, withPosts);
    forall v | v in after.users ensures AccountOk(after, grant, v) {
      assert AccountOk(b, grant, v);
      AccountCarries(b, after, grant, v);
    }
    forall p | p in after.posts ensures PostOk(after, p) {
      ErasePostOk(b, u, withPosts, p);
    }
  }

  lemma EraseKeepsRows(b: Books, u: UserId, withPosts: bool)
    requires RowsOk(b) && EntriesOk(b)
    ensures RowsOk(Erased(b, u, withPosts)) && EntriesOk(Erased(b, u, withPosts))
  {
    var after := Erased(b, u, withPosts);
    forall k | k in after.reviews ensures RowOk(after, k) {
      EraseRowOk(b, u, withPosts, k);
    }
    forall k | k in after.history ensures EntryOk(after, k) {
      EraseEntryOk(b, u, withPosts, k);
    }
  }

  lemma EraseKeeps(b: Books, grant: nat, u: UserId, withPosts: bool)
    requires Sound(b, grant)
    ensures Sound(Erased(b, u, withPosts), grant)
  {
    EraseKeepsCounters(b, grant, u, withPosts);
    EraseKeepsRows(b, u, withPosts);
  }

  lemma PublishKeeps(b: Books, grant: nat, u: UserId, route: Route, price: nat)
    requires Sound(b, grant) && u in b.users && Affords(b, u, price)
    ensures Sound(Published(b, u, route, price), grant)
  {
    NewPostKeeps(b, grant, Original(u, route));
    if !b.users[u].superuser {
      ChargeKeeps(Posted(b, Original(u, route)), grant, u, price);
    }
  }

  lemma JudgeKeeps(b: Books, grant: nat, u: UserId, p: PostId, kind: Kind, gift: bool)
    requires Sound(b, grant) && Goes(b, Judge(u, p, kind, gift))
    ensures Sound(Reviewed(b, u, p, kind, gift), grant)
  {
    JudgeIsNew(b, u, p);
    UsersAreKnown(b, grant);
    JudgeKeepsCounters(b, grant, u, p, kind, gift);
    JudgeKeepsRows(b, grant, u, p, kind, gift);
  }

  lemma StepKeeps(b: Books, e: Event, grant: nat)
    requires Sound(b, grant) && Goes(b, e)
    ensures Sound(After(b, e, grant), grant)
  {
    match e
    case Register(u, superuser) => RegisterKeeps(b, u, superuser, grant);
    case Publish(u, route, price) => PublishKeeps(b, grant, u, route, price);
    case Mint(route, system) => NewPostKeeps(b, grant, Post(route, Some(system), true, 0, 0, 0));
    case Answer(u, p, given, expected) => AnswerKeeps(b, grant, u, p, given, expected);
    case Judge(u, p, kind, gift) => JudgeKeeps(b, grant, u, p, kind, gift);
    case Erase(u, withPosts) => EraseKeeps(b, grant, u, withPosts);
  }

  predicate Runs(b: Books, events: seq<Event>, grant: nat)
    decreases |events|
  {
    events != [] ==> Goes(b, events[0]) && Runs(After(b, events[0], grant), events[1..], grant)
  }

  function End(b: Books, events: seq<Event>, grant: nat): Books
    requires Runs(b, events, grant)
    decreases |events|
  {
    if events == [] then b else End(After(b, events[0], grant), events[1..], grant)
  }

  /** The books balance after every run of requests: every account's balance is exactly the
      grant plus what it kept, received and answered less what it spent, and never negative,
      and every counter is the number of entries it stands for. */
  lemma {:induction false} BooksBalance(b: Books, events: seq<Event>, grant: nat)
    requires Sound(b, grant) && Runs(b, events, grant)
    ensures Sound(End(b, events, grant), grant)
    decreases |events|
  {
    if events != [] {
      StepKeeps(b, events[0], grant);
      BooksBalance(After(b, events[0], grant), events[1..], grant);
    }
  }

  lemma OpeningIsSound(grant: nat)
    ensures Sound(Opening(), grant)
  {
  }

  /** The same, read off for one account after a run from nothing. */
  lemma BalanceIsEarned(events: seq<Event>, grant: nat, u: UserId)
    requires Runs(Opening(), events, grant) && u in End(Opening(), events, grant).users
    ensures
      var b := End(Opening(), events, grant);
      && BalanceOf(b, u) == grant + Count(b.history, Kept(u)) + Count(b.history, Received(u)) + AnsweredBy(b, u) - SpentBy(b, u)
      && BalanceOf(b, u) >= 0
      && b.users[u].reviewed == b.users[u].forwarded + b.users[u].dropped == Count(b.history, Kept(u)) + Count(b.history, Given(u))
  {
    OpeningIsSound(grant);
    BooksBalance(Opening(), events, grant);
    assert AccountOk(End(Opening(), events, grant), grant, u);
    EntriesSplit(End(Opening(), events, grant).history, u);
  }

  // ----- the supply of tokens -----

  ghost function Total(tokens: map<UserId, int>): int
    decreases |tokens|
  {
    if tokens == map[] then 0
    else
      var u :| u in tokens;
      tokens[u] + Total(tokens - {u})
  }

  lemma {:induction false} TotalWithout(tokens: map<UserId, int>, u: UserId)
    requires u in tokens
    ensures Total(tokens) == tokens[u] + Total(tokens - {u})
    decreases |tokens|
  {
    var v :| v in tokens && Total(tokens) == tokens[v] + Total(tokens - {v});
    if v != u {
      TotalWithout(tokens - {v}, u);
      TotalWithout(tokens - {u}, v);
      assert tokens - {v} - {u} == tokens - {u} - {v};
    }
  }

  lemma TotalCredited(tokens: map<UserId, int>, u: UserId, amount: int)
    ensures Total(Credited(tokens, u, amount)) == Total(tokens) + amount
  {
    var after := Credited(tokens, u, amount);
    TotalWithout(after, u);
    if u in tokens {
      TotalWithout(tokens, u);
      assert after - {u} == tokens - {u};
    } else {
      assert after - {u} == tokens;
    }
  }

  /** The tokens one request brings into the world, or takes out of it. A review brings one,
      gifted or not. */
  function Issue(b: Books, e: Event, grant: nat): int
    requires Goes(b, e)
  {
    match e
    case Register(_, _) => grant
    case Publish(u, _, price) => if b.users[u].superuser then 0 else 0 - price
    case Mint(_, _) => 0
    case Answer(_, _, _, _) => 1
    case Judge(_, _, _, _) => 1
    case Erase(u, _) => 0 - BalanceOf(b, u)
  }

  function Issued(b: Books, events: seq<Event>, grant: nat): int
    requires Runs(b, events, grant)
    decreases |events|
  {
    if events == [] then 0 else Issue(b, events[0], grant) + Issued(After(b, events[0], grant), events[1..], grant)
  }

  lemma StepIssues(b: Books, e: Event, grant: nat)
    requires Goes(b, e)
    ensures Total(After(b, e, grant).tokens) == Total(b.tokens) + Issue(b, e, grant)
  {
    match e
    case Register(u, _) => TotalCredited(b.tokens, u, grant);
    case Publish(u, _, price) => TotalCredited(b.tokens, u, 0 - price);
    case Mint(_, _) =>
    case Answer(u, _, _, _) => TotalCredited(b.tokens, u, 1);
    case Judge(u, p, _, gift) => TotalCredited(b.tokens, Beneficiary(b, p, gift).GetOr(u), 1);
    case Erase(u, _) =>
      if u in b.tokens {
        TotalWithout(b.tokens, u);
      } else {
        assert b.tokens - {u} == b.tokens;
      }
  }

  /** Over any run the supply is what was issued: a gift moves a token and mints none. */
  lemma {:induction false} SupplyIsIssued(b: Books, events: seq<Event>, grant: nat)
    requires Runs(b, events, grant)
    ensures Total(End(b, events, grant).tokens) == Total(b.tokens) + Issued(b, events, grant)
    decreases |events|
  {
    if events != [] {
      StepIssues(b, events[0], grant);
      SupplyIsIssued(After(b, events[0], grant), events[1..], grant);
    }
  }

  // ----- what follows from sound books -----

  function RowsBy(b: Books, u: UserId): set<Key> {
    set k | k in b.reviews && k.0 == u
  }

  function RowsOn(b: Books, p: PostId): set<Key> {
    set k | k in b.reviews && k.1 == p
  }

  /** Entries of a user whose row was erased with its post. */
  function LostRowsBy(b: Books, u: UserId): set<Key> {
    set k | k in b.history && k.0 == u && k !in b.reviews
  }

  function LostRowsOn(b: Books, p: PostId): set<Key> {
    set k | k in b.history && k.1 == p && k !in b.reviews
  }

  function EntriesBy(b: Books, u: UserId): set<Key> {
    set k | k in b.history && k.0 == u
  }

  function EntriesOn(b: Books, p: PostId): set<Key> {
    set k | k in b.history && k.1 == p
  }

  lemma EntriesByHalves(b: Books, u: UserId)
    ensures |EntriesBy(b, u)| == Count(b.history, ForwardedBy(u)) + Count(b.history, DroppedBy(u))
  {
    var forwarded, dropped := Entries(b.history, ForwardedBy(u)), Entries(b.history, DroppedBy(u));
    assert forwarded !! dropped && EntriesBy(b, u) == forwarded + dropped;
  }

  lemma EntriesOnHalves(b: Books, p: PostId)
    ensures |EntriesOn(b, p)| == Count(b.history, ForwardsOf(p)) + Count(b.history, DropsOf(p))
  {
    var forwarded, dropped := Entries(b.history, ForwardsOf(p)), Entries(b.history, DropsOf(p));
    assert forwarded !! dropped && EntriesOn(b, p) == forwarded + dropped;
  }

  lemma RowsAreEntered(b: Books, grant: nat)
    requires Sound(b, grant)
    ensures b.reviews.Keys <= b.history.Keys
  {
    forall k | k in b.reviews ensures k in b.history {
      assert RowOk(b, k);
    }
  }

  lemma EntriesByRows(b: Books, u: UserId)
    requires b.reviews.Keys <= b.history.Keys
    ensures |EntriesBy(b, u)| == |RowsBy(b, u)| + |LostRowsBy(b, u)|
  {
    var rows, lost := RowsBy(b, u), LostRowsBy(b, u);
    assert rows !! lost && EntriesBy(b, u) == rows + lost;
  }

  lemma EntriesOnRows(b: Books, p: PostId)
    requires b.reviews.Keys <= b.history.Keys
    ensures |EntriesOn(b, p)| == |RowsOn(b, p)| + |LostRowsOn(b, p)|
  {
    var rows, lost := RowsOn(b, p), LostRowsOn(b, p);
    assert rows !! lost && EntriesOn(b, p) == rows + lost;
  }

  /** A user loses a row exactly with the post it was about. */
  lemma NoRowsLostBy(b: Books, grant: nat, u: UserId)
    requires Sound(b, grant) && u in b.users
    ensures LostRowsBy(b, u) == {} <==> forall k :: k in EntriesBy(b, u) ==> k.1 in b.posts
  {
    forall k | k in EntriesBy(b, u) ensures k in LostRowsBy(b, u) <==> k.1 !in b.posts {
      assert EntryOk(b, k);
      assert k in b.reviews ==> RowOk(b, k);
    }
    assert forall k :: k in LostRowsBy(b, u) ==> k in EntriesBy(b, u);
  }

  lemma NoRowsLostOn(b: Books, grant: nat, p: PostId)
    requires Sound(b, grant) && p in b.posts
    ensures LostRowsOn(b, p) == {} <==> forall k :: k in EntriesOn(b, p) ==> k.0 in b.users
  {
    forall k | k in EntriesOn(b, p) ensures k in LostRowsOn(b, p) <==> k.0 !in b.users {
      assert EntryOk(b, k);
      assert k in b.reviews ==> RowOk(b, k);
    }
    assert forall k :: k in LostRowsOn(b, p) ==> k in EntriesOn(b, p);
  }

  /** A user's reviewed count is their rows plus the rows erased from under them, so it is the
      number of rows exactly when no post they reviewed was erased by its author. */
  lemma ReviewedCoversRows(b: Books, grant: nat, u: UserId)
    requires Sound(b, grant) && u in b.users
    ensures b.users[u].reviewed == |RowsBy(b, u)| + |LostRowsBy(b, u)|
    ensures b.users[u].reviewed == |RowsBy(b, u)| <==> forall k :: k in EntriesBy(b, u) ==> k.1 in b.posts
  {
    assert AccountOk(b, grant, u);
    EntriesByHalves(b, u);
    RowsAreEntered(b, grant);
    EntriesByRows(b, u);
    NoRowsLostBy(b, grant, u);
    assert |LostRowsBy(b, u)| == 0 <==> LostRowsBy(b, u) == {};
  }

  /** A post's counters cover its rows, and are exactly them while its reviewers remain. */
  lemma PostCountersCoverRows(b: Books, grant: nat, p: PostId)
    requires Sound(b, grant) && p in b.posts
    ensures b.posts[p].forwarded + b.posts[p].dropped == |RowsOn(b, p)| + |LostRowsOn(b, p)|
    ensures b.posts[p].forwarded + b.posts[p].dropped == |RowsOn(b, p)| <==>
              forall k :: k in EntriesOn(b, p) ==> k.0 in b.users
  {
    assert PostOk(b, p);
    EntriesOnHalves(b, p);
    RowsAreEntered(b, grant);
    EntriesOnRows(b, p);
    NoRowsLostOn(b, grant, p);
    assert |LostRowsOn(b, p)| == 0 <==> LostRowsOn(b, p) == {};
  }

  /** A reader drops the one post of an author, who then erases their account and posts. */
  function DroppedThenErased(route: Route): seq<Event> {
    [Register(1, true), Register(2, false), Publish(1, route, 0), Judge(2, 0, Drop, false), Erase(1, true)]
  }

  function BothRegistered(grant: nat): Books {
    Registered(Registered(Opening(), 1, true, grant), 2, false, grant)
  }

  function BeforeReview(route: Route, grant: nat): Books {
    Published(BothRegistered(grant), 1, route, 0)
  }

  function BeforeErasure(route: Route, grant: nat): Books {
    Reviewed(BeforeReview(route, grant), 2, 0, Drop, false)
  }

  lemma ReachesBeforeReview(route: Route, grant: nat, rest: seq<Event>)
    requires Runs(BeforeReview(route, grant), rest, grant)
    ensures
      var events := DroppedThenErased(route)[..3] + rest;
      Runs(Opening(), events, grant) && End(Opening(), events, grant) == End(BeforeReview(route, grant), rest, grant)
  {
    var b1 := Registered(Opening(), 1, true, grant);
    OneMore(BothRegistered(grant), rest, grant, Publish(1, route, 0));
    OneMore(b1, [Publish(1, route, 0)] + rest, grant, Register(2, false));
    var tail := [Register(2, false)] + ([Publish(1, route, 0)] + rest);
    OneMore(Opening(), tail, grant, Register(1, true));
    assert [Register(1, true)] + tail == DroppedThenErased(route)[..3] + rest;
  }

  lemma ReachesBeforeErasure(route: Route, grant: nat, rest: seq<Event>)
    requires Runs(BeforeErasure(route, grant), rest, grant)
    ensures
      var events := DroppedThenErased(route)[..4] + rest;
      Runs(Opening(), events, grant) && End(Opening(), events, grant) == End(BeforeErasure(route, grant), rest, grant)
  {
    OneMore(BeforeReview(route, grant), rest, grant, Judge(2, 0, Drop, false));
    ReachesBeforeReview(route, grant, [Judge(2, 0, Drop, false)] + rest);
    assert DroppedThenErased(route)[..3] + ([Judge(2, 0, Drop, false)] + rest) == DroppedThenErased(route)[..4] + rest;
  }

  /** The claim that the reviewed count is the number of rows fails once an author erases a
      post the user reviewed. */
  lemma ReviewedCanExceedRows(route: Route, grant: nat)
    ensures Runs(Opening(), DroppedThenErased(route), grant)
    ensures
      var b := End(Opening(), DroppedThenErased(route), grant);
      2 in b.users && b.users[2].reviewed == 1 && RowsBy(b, 2) == {}
  {
    var before := BeforeErasure(route, grant);
    var after := After(before, Erase(1, true), grant);
    assert [Erase(1, true)] == [Erase(1, true)] + [];
    OneMore(before, [], grant, Erase(1, true));
    ReachesBeforeErasure(route, grant, [Erase(1, true)]);
    assert DroppedThenErased(route) == DroppedThenErased(route)[..4] + [Erase(1, true)];
    assert RowsBy(after, 2) == {};
  }

  lemma OneMore(b: Books, rest: seq<Event>, grant: nat, e: Event)
    requires Goes(b, e) && Runs(After(b, e, grant), rest, grant)
    ensures Runs(b, [e] + rest, grant) && End(b, [e] + rest, grant) == End(After(b, e, grant), rest, grant)
  {
    assert ([e] + rest)[1..] == rest;
  }

  // ----- rebuilding the balances -----

  function GiftRowsBy(b: Books, u: UserId): set<Key> {
    GiftsFrom(b.reviews, u)
  }

  function GiftRowsTo(b: Books, u: UserId): set<Key> {
    GiftsTo(b.posts, b.reviews, u)
  }

  function GiftsFrom(reviews: map<Key, Review>, u: UserId): set<Key> {
    set k | k in reviews && k.0 == u && reviews[k].gifted
  }

  function GiftsTo(posts: map<PostId, Post>, reviews: map<Key, Review>, u: UserId): set<Key> {
    set k | k in reviews && k.1 in posts && posts[k.1].author == Some(u) && reviews[k].gifted
  }

  /** What a rebuild sets a balance to, from the tables alone. */
  function RebuiltBalance(b: Books, grant: nat, u: UserId): int
    requires u in b.users
  {
    RebuiltFrom(b.users[u], b.posts, b.reviews, grant, u)
  }

  function RebuiltFrom(a: Account, posts: map<PostId, Post>, reviews: map<Key, Review>, grant: nat, u: UserId): int {
    grant + a.reviewed - |GiftsFrom(reviews, u)| + |GiftsTo(posts, reviews, u)|
  }

  function LostGiftsBy(b: Books, u: UserId): set<Key> {
    set k | k in b.history && k.0 == u && b.history[k].gift.Some? && k !in b.reviews
  }

  function LostGiftsTo(b: Books, u: UserId): set<Key> {
    set k | k in b.history && b.history[k].gift == Some(u) && k !in b.reviews
  }

  lemma GiftsGivenSplit(b: Books, grant: nat, u: UserId)
    requires Sound(b, grant)
    ensures Count(b.history, Given(u)) == |GiftRowsBy(b, u)| + |LostGiftsBy(b, u)|
  {
    var rows, lost := GiftRowsBy(b, u), LostGiftsBy(b, u);
    forall k ensures k in Entries(b.history, Given(u)) <==> k in rows || k in lost {
      assert k in b.reviews ==> RowOk(b, k);
    }
    assert rows !! lost && Entries(b.history, Given(u)) == rows + lost;
  }

  lemma GiftRowTo(b: Books, u: UserId, k: Key)
    requires k in b.history && u in b.users && (k in b.reviews ==> RowOk(b, k))
    ensures Matches(Received(u), k, b.history[k]) <==> k in GiftRowsTo(b, u) || k in LostGiftsTo(b, u)
  {
  }

  lemma GiftsReceivedSplit(b: Books, grant: nat, u: UserId)
    requires RowsOk(b) && u in b.users && b.reviews.Keys <= b.history.Keys
    ensures Count(b.history, Received(u)) == |GiftRowsTo(b, u)| + |LostGiftsTo(b, u)|
  {
    forall k | k in b.history ensures Matches(Received(u), k, b.history[k]) <==> k in GiftRowsTo(b, u) || k in LostGiftsTo(b, u) {
      GiftRowTo(b, u, k);
    }
    SplitSize(Entries(b.history, Received(u)), GiftRowsTo(b, u), LostGiftsTo(b, u));
  }

  lemma SplitSize(whole: set<Key>, x: set<Key>, y: set<Key>)
    requires x !! y && forall k :: k in whole <==> k in x || k in y
    ensures |whole| == |x| + |y|
  {
    assert whole == x + y;
  }

  /** A rebuild forgives what was spent and forgets what probes earned; beyond that it is off
      by the erased gifts only, and so exact in both respects while nothing is erased. */
  lemma RebuildForgivesSpending(b: Books, grant: nat, u: UserId)
    requires Sound(b, grant) && u in b.users
    ensures RebuiltBalance(b, grant, u)
            == BalanceOf(b, u) + SpentBy(b, u) - AnsweredBy(b, u) + |LostGiftsBy(b, u)| - |LostGiftsTo(b, u)|
    ensures b.history.Keys <= b.reviews.Keys ==>
              RebuiltBalance(b, grant, u) == BalanceOf(b, u) + SpentBy(b, u) - AnsweredBy(b, u)
  {
    assert AccountOk(b, grant, u);
    EntriesSplit(b.history, u);
    RowsAreEntered(b, grant);
    GiftsGivenSplit(b, grant, u);
    GiftsReceivedSplit(b, grant, u);
    if b.history.Keys <= b.reviews.Keys {
      assert LostGiftsBy(b, u) == {} && LostGiftsTo(b, u) == {};
    }
  }
}
