/** The audience index: Redis memberships as the mirror of subscriptions and languages. */
module AudienceIndex {
  import opened FeedTypes
  import opened FeedScripts
  import opened Languages
  import opened Fanout

  type Subscription = (UserId, ChannelId)
  type Membership = (AudienceKey, UserId)

  // ----- the mirror -----

  function LanguagesOf(languages: map<UserId, seq<Language>>, u: UserId): seq<Language> {
    if u in languages then languages[u] else []
  }

  /** The memberships one subscription stands for: the channel, and one slice per language. */
  function Joined(u: UserId, ch: ChannelId, languages: seq<Language>): set<Membership> {
    {(Everyone(ch), u)} + set l | l in languages :: (Audience(Route(ch, l)), u)
  }

  /** Whether the subscriptions and languages call for this membership. */
  predicate Due(subs: set<Subscription>, languages: map<UserId, seq<Language>>, m: Membership) {
    && (m.1, m.0.channel) in subs
    && (m.0.Slice? ==> m.0.language in LanguagesOf(languages, m.1))
  }

  /** A membership belongs to one subscription's own when it names its reader, its channel
      and, for a slice, one of the languages. */
  lemma InJoined(u: UserId, ch: ChannelId, languages: seq<Language>, m: Membership)
    requires UNSPECIFIED !in languages
    ensures m in Joined(u, ch, languages) <==>
              m.1 == u && m.0.channel == ch && (m.0.Slice? ==> m.0.language in languages)
  {
    if m.0.Slice? && m.0.language in languages {
      assert Audience(Route(m.0.channel, m.0.language)) == m.0;
    }
  }

  function Mirror(subs: set<Subscription>, languages: map<UserId, seq<Language>>): set<Membership> {
    set s, m | s in subs && m in Joined(s.0, s.1, LanguagesOf(languages, s.0)) :: m
  }

  lemma MirrorIsDue(subs: set<Subscription>, languages: map<UserId, seq<Language>>)
    requires ValidReaders(languages)
    ensures forall m: Membership :: m in Mirror(subs, languages) <==> Due(subs, languages, m)
  {
    forall m: Membership ensures m in Mirror(subs, languages) <==> Due(subs, languages, m) {
      var own := (m.1, m.0.channel);
      InJoined(own.0, own.1, LanguagesOf(languages, own.0), m);
      if m in Mirror(subs, languages) {
        var s :| s in subs && m in Joined(s.0, s.1, LanguagesOf(languages, s.0));
        InJoined(s.0, s.1, LanguagesOf(languages, s.0), m);
      }
    }
  }

  /** Every reader accepts some languages, each once and never the reserved value. */
  predicate ValidReaders(languages: map<UserId, seq<Language>>) {
    forall u :: u in languages ==> ValidContent(languages[u])
  }

  /** The tables the index mirrors. */
  class Postgres {
    var subs: set<Subscription>
    var languages: map<UserId, seq<Language>>
    var revision: map<UserId, nat>

    constructor ()
      ensures subs == {} && languages == map[] && revision == map[]
    {
      subs, languages, revision := {}, map[], map[];
    }
  }

  /** Readers are valid, subscribers have an account, and languages are configured ones. */
  predicate ValidTables(pg: Postgres, content: seq<Language>)
    reads pg
  {
    && ValidContent(content) && ValidReaders(pg.languages)
    && (forall s :: s in pg.subs ==> s.0 in pg.languages)
    && Configured(pg.languages, content)
  }

  predicate Mirrored(pg: Postgres, redis: Redis)
    reads pg, redis`members, redis`subsTotal
  {
    redis.members == Mirror(pg.subs, pg.languages) && redis.subsTotal == |redis.members|
  }

  /** In the mirror a route's audience is exactly its subscribers who read its language. */
  lemma AudienceIsReaders(subs: set<Subscription>, languages: map<UserId, seq<Language>>, r: Route, u: UserId)
    requires ValidReaders(languages)
    ensures u in AudienceIn(Mirror(subs, languages), r) <==>
              (u, r.channel) in subs && (r.language == UNSPECIFIED || r.language in LanguagesOf(languages, u))
  {
    var mirror := Mirror(subs, languages);
    MirrorIsDue(subs, languages);
    assert u in AudienceIn(mirror, r) <==> (Audience(r), u) in mirror;
  }

  /** A channel's own set is the union of its language slices. */
  lemma ChannelIsUnionOfSlices(subs: set<Subscription>, languages: map<UserId, seq<Language>>, ch: ChannelId, u: UserId)
    requires ValidReaders(languages) && forall s :: s in subs ==> s.0 in languages
    ensures u in AudienceIn(Mirror(subs, languages), Route(ch, UNSPECIFIED)) <==>
              exists l :: l != UNSPECIFIED && u in AudienceIn(Mirror(subs, languages), Route(ch, l))
  {
    AudienceIsReaders(subs, languages, Route(ch, UNSPECIFIED), u);
    if (u, ch) in subs {
      var l := languages[u][0];
      assert l in languages[u];
      AudienceIsReaders(subs, languages, Route(ch, l), u);
    }
    forall l | l != UNSPECIFIED && u in AudienceIn(Mirror(subs, languages), Route(ch, l)) ensures (u, ch) in subs {
      AudienceIsReaders(subs, languages, Route(ch, l), u);
    }
  }

  // ----- sizes -----

  lemma {:induction false} SlicesSize(u: UserId, ch: ChannelId, languages: seq<Language>)
    requires Distinct(languages) && UNSPECIFIED !in languages
    ensures |set l | l in languages :: (Audience(Route(ch, l)), u)| == |languages|
  {
    var slices := set l | l in languages :: (Audience(Route(ch, l)), u);
    if languages != [] {
      var rest := languages[1..];
      assert languages == [languages[0]] + rest;
      assert forall i :: 0 <= i < |rest| ==> rest[i] == languages[i + 1];
      assert languages[0] !in rest;
      SlicesSize(u, ch, rest);
      var fewer := set l | l in rest :: (Audience(Route(ch, l)), u);
      assert slices == fewer + {(Audience(Route(ch, languages[0])), u)};
      assert (Audience(Route(ch, languages[0])), u) !in fewer;
    }
  }

  lemma JoinedSize(u: UserId, ch: ChannelId, languages: seq<Language>)
    requires Distinct(languages) && UNSPECIFIED !in languages
    ensures |Joined(u, ch, languages)| == 1 + |languages|
  {
    SlicesSize(u, ch, languages);
    var slices := set l | l in languages :: (Audience(Route(ch, l)), u);
    assert (Everyone(ch), u) !in slices;
  }

  lemma MirrorExtends(subs: set<Subscription>, languages: map<UserId, seq<Language>>, s: Subscription)
    requires ValidReaders(languages)
    ensures Mirror(subs + {s}, languages) == Mirror(subs, languages) + Joined(s.0, s.1, LanguagesOf(languages, s.0))
  {
    MirrorIsDue(subs, languages);
    MirrorIsDue(subs + {s}, languages);
    var joined := Joined(s.0, s.1, LanguagesOf(languages, s.0));
    forall m: Membership ensures m in Mirror(subs + {s}, languages) <==> m in Mirror(subs, languages) || m in joined {
      InJoined(s.0, s.1, LanguagesOf(languages, s.0), m);
      assert Due(subs + {s}, languages, m) <==> Due(subs, languages, m) || m in joined;
    }
  }

  /** One more subscription is one more membership per language, plus one. */
  lemma MirrorAdds(subs: set<Subscription>, languages: map<UserId, seq<Language>>, s: Subscription)
    requires ValidReaders(languages) && s !in subs
    ensures |Mirror(subs + {s}, languages)| == |Mirror(subs, languages)| + 1 + |LanguagesOf(languages, s.0)|
  {
    var joined := Joined(s.0, s.1, LanguagesOf(languages, s.0));
    JoinedSize(s.0, s.1, LanguagesOf(languages, s.0));
    MirrorExtends(subs, languages, s);
    MirrorIsDue(subs, languages);
    forall m: Membership | m in joined ensures m !in Mirror(subs, languages) {
      InJoined(s.0, s.1, LanguagesOf(languages, s.0), m);
      assert !Due(subs, languages, m);
    }
  }

  ghost function Pick(subs: set<Subscription>): (s: Subscription)
    requires subs != {}
    ensures s in subs
  {
    var s :| s in subs; s
  }

  /** The sum over all subscriptions of one plus the languages accepted. */
  ghost function Weight(subs: set<Subscription>, languages: map<UserId, seq<Language>>): nat {
    if subs == {} then 0
    else 1 + |LanguagesOf(languages, Pick(subs).0)| + Weight(subs - {Pick(subs)}, languages)
  }

  /** The sizes of all audience sets add up to that sum. */
  lemma {:induction false} MirrorSize(subs: set<Subscription>, languages: map<UserId, seq<Language>>)
    requires ValidReaders(languages)
    ensures |Mirror(subs, languages)| == Weight(subs, languages)
    decreases |subs|
  {
    if subs == {} {
      assert Mirror(subs, languages) == {};
    } else {
      MirrorSize(subs - {Pick(subs)}, languages);
      MirrorAdds(subs - {Pick(subs)}, languages, Pick(subs));
      assert subs - {Pick(subs)} + {Pick(subs)} == subs;
    }
  }

  // ----- synchronisation -----

  /** `SADD`: how many members were added. */
  method SAdd(redis: Redis, m: Membership) returns (added: nat)
    modifies redis`members
    ensures redis.members == old(redis.members) + {m}
    ensures added == |redis.members| - |old(redis.members)|
  {
    if m in redis.members {
      assert redis.members + {m} == redis.members;
      return 0;
    }
    redis.members := redis.members + {m};
    return 1;
  }

  /** `SREM`: how many members were removed. */
  method SRem(redis: Redis, m: Membership) returns (removed: nat)
    modifies redis`members
    ensures redis.members == old(redis.members) - {m}
    ensures removed == |old(redis.members)| - |redis.members|
  {
    removed := if m in redis.members then 1 else 0;
    redis.members := redis.members - {m};
  }

  /** Join every audience set of the channel and become reachable when there is room. The
      total moves by the memberships that are new. */
  method SyncSubscribe(c: Settings, redis: Redis, u: UserId, ch: ChannelId, languages: seq<Language>)
    modifies redis`members, redis`subsTotal, redis`freeQueue
    ensures redis.members == old(redis.members) + Joined(u, ch, languages)
    ensures redis.subsTotal - old(redis.subsTotal) == |redis.members| - |old(redis.members)|
    ensures redis.freeQueue == if |redis.Queue(u)| < c.maxSlots then old(redis.freeQueue) + {u} else old(redis.freeQueue)
  {
    ghost var before := redis.members;
    var added := SAdd(redis, (Everyone(ch), u));
    var i := 0;
    while i < |languages|
      modifies redis`members
      invariant 0 <= i <= |languages|
      invariant redis.members == before + Joined(u, ch, languages[..i])
      invariant added == |redis.members| - |before|
    {
      var more := SAdd(redis, (Audience(Route(ch, languages[i])), u));
      assert languages[..i + 1] == languages[..i] + [languages[i]];
      added, i := added + more, i + 1;
    }
    assert languages[..i] == languages;
    redis.subsTotal := redis.subsTotal + added;
    var _ := redis.EnsureFree(u, c.maxSlots);
  }

  /** Whether leaving `ch` clears membership `m`: the channel set, or a configured slice. */
  predicate Cleared(m: Membership, u: UserId, ch: ChannelId, content: seq<Language>) {
    m.1 == u && (m.0 == Everyone(ch) || exists l :: l in content && m.0 == Audience(Route(ch, l)))
  }

  /** Leave one channel's sets, all configured languages included. */
  method LeaveChannel(redis: Redis, u: UserId, ch: ChannelId, content: seq<Language>) returns (removed: nat)
    modifies redis`members
    ensures forall m :: m in redis.members <==> m in old(redis.members) && !Cleared(m, u, ch, content)
    ensures removed == |old(redis.members)| - |redis.members|
  {
    ghost var before := redis.members;
    removed := SRem(redis, (Everyone(ch), u));
    var i := 0;
    while i < |content|
      invariant 0 <= i <= |content|
      invariant forall m :: m in redis.members <==> m in before && !Cleared(m, u, ch, content[..i])
      invariant removed == |before| - |redis.members|
    {
      var more := SRem(redis, (Audience(Route(ch, content[i])), u));
      assert content[..i + 1] == content[..i] + [content[i]];
      removed, i := removed + more, i + 1;
    }
    assert content[..i] == content;
  }

  method SyncUnsubscribe(redis: Redis, u: UserId, ch: ChannelId, content: seq<Language>)
    modifies redis`members, redis`subsTotal
    ensures forall m :: m in redis.members <==> m in old(redis.members) && !Cleared(m, u, ch, content)
    ensures redis.subsTotal - old(redis.subsTotal) == |redis.members| - |old(redis.members)|
  {
    var removed := LeaveChannel(redis, u, ch, content);
    redis.subsTotal := redis.subsTotal - removed;
  }

  /** Erase a user from delivery and from every channel they were in. */
  method PurgeUser(redis: Redis, u: UserId, channels: seq<ChannelId>, content: seq<Language>)
    modifies redis`queues, redis`tokens, redis`freeQueue, redis`members, redis`subsTotal
    ensures redis.View() == Purged(old(redis.View()), u) && redis.tokens == old(redis.tokens) - {u}
    ensures forall m :: m in redis.members <==>
              m in old(redis.members) && !exists ch :: ch in channels && Cleared(m, u, ch, content)
    ensures redis.subsTotal - old(redis.subsTotal) == |redis.members| - |old(redis.members)|
  {
    ghost var before := redis.members;
    redis.queues := redis.queues - {u};
    redis.tokens := redis.tokens - {u};
    redis.freeQueue := redis.freeQueue - {u};
    var removed := 0;
    var i := 0;
    while i < |channels|
      modifies redis`members
      invariant 0 <= i <= |channels|
      invariant forall m :: m in redis.members <==>
                  m in before && !exists ch :: ch in channels[..i] && Cleared(m, u, ch, content)
      invariant removed == |before| - |redis.members|
    {
      var more := LeaveChannel(redis, u, channels[i], content);
      assert channels[..i + 1] == channels[..i] + [channels[i]];
      removed, i := removed + more, i + 1;
    }
    assert channels[..i] == channels;
    redis.subsTotal := redis.subsTotal - removed;
  }

  /** Whether `m` is one of the memberships a language rewrite decides. */
  predicate Rewritten(m: Membership, u: UserId, channels: seq<ChannelId>, content: seq<Language>) {
    m.1 == u && m.0.Slice? && m.0.channel in channels && m.0.language in content
  }

  ghost predicate IsRewrite(before: set<Membership>, after: set<Membership>, u: UserId,
                            channels: seq<ChannelId>, languages: seq<Language>, content: seq<Language>) {
    forall m :: m in after <==> if Rewritten(m, u, channels, content) then m.0.language in languages else m in before
  }

  lemma RewriteIsUnique(before: set<Membership>, x: set<Membership>, y: set<Membership>, u: UserId,
                        channels: seq<ChannelId>, languages: seq<Language>, content: seq<Language>)
    requires IsRewrite(before, x, u, channels, languages, content)
    requires IsRewrite(before, y, u, channels, languages, content)
    ensures x == y
  {
  }

  /** Within one channel: accepted slices joined, the other configured ones left. */
  method RewriteChannel(redis: Redis, u: UserId, ch: ChannelId, languages: seq<Language>, content: seq<Language>) returns (delta: int)
    requires UNSPECIFIED !in content
    modifies redis`members
    ensures forall m :: m in redis.members <==>
              if Rewritten(m, u, [ch], content) then m.0.language in languages else m in old(redis.members)
    ensures delta == |redis.members| - |old(redis.members)|
  {
    ghost var before := redis.members;
    delta := 0;
    var i := 0;
    while i < |content|
      invariant 0 <= i <= |content|
      invariant forall m :: m in redis.members <==>
                  if Rewritten(m, u, [ch], content[..i]) then m.0.language in languages else m in before
      invariant delta == |redis.members| - |before|
    {
      assert content[i] in content && content[..i + 1] == content[..i] + [content[i]];
      if content[i] in languages {
        var more := SAdd(redis, (Audience(Route(ch, content[i])), u));
        delta := delta + more;
      } else {
        var fewer := SRem(redis, (Audience(Route(ch, content[i])), u));
        delta := delta - fewer;
      }
      i := i + 1;
    }
    assert content[..i] == content;
  }

  /** Rewrite a reader's slices across their channels to exactly the accepted languages. */
  method SyncContentLanguages(redis: Redis, u: UserId, channels: seq<ChannelId>, languages: seq<Language>, content: seq<Language>)
    requires UNSPECIFIED !in content
    modifies redis`members, redis`subsTotal
    ensures IsRewrite(old(redis.members), redis.members, u, channels, languages, content)
    ensures redis.subsTotal - old(redis.subsTotal) == |redis.members| - |old(redis.members)|
  {
    ghost var before := redis.members;
    var delta := 0;
    var i := 0;
    while i < |channels|
      modifies redis`members
      invariant 0 <= i <= |channels|
      invariant forall m :: m in redis.members <==>
                  if Rewritten(m, u, channels[..i], content) then m.0.language in languages else m in before
      invariant delta == |redis.members| - |before|
    {
      var more := RewriteChannel(redis, u, channels[i], languages, content);
      assert channels[..i + 1] == channels[..i] + [channels[i]];
      delta, i := delta + more, i + 1;
    }
    assert channels[..i] == channels;
    redis.subsTotal := redis.subsTotal + delta;
  }

  // ----- the requests -----

  method SubscribeChannel(c: Settings, pg: Postgres, redis: Redis, content: seq<Language>, u: UserId, ch: ChannelId)
    requires ValidTables(pg, content) && Mirrored(pg, redis) && u in pg.languages
    modifies pg`subs, redis`members, redis`subsTotal, redis`freeQueue
    ensures ValidTables(pg, content) && Mirrored(pg, redis)
    ensures pg.subs == old(pg.subs) + {(u, ch)}
    ensures redis.freeQueue == if |redis.Queue(u)| < c.maxSlots then old(redis.freeQueue) + {u} else old(redis.freeQueue)
  {
    MirrorExtends(pg.subs, pg.languages, (u, ch));
    AddSubscription(pg, content, u, ch);
    SyncSubscribe(c, redis, u, ch, LanguagesOf(pg.languages, u));
  }

  /** Insert the row unless it is there already. */
  method AddSubscription(pg: Postgres, content: seq<Language>, u: UserId, ch: ChannelId)
    requires ValidTables(pg, content) && u in pg.languages
    modifies pg`subs
    ensures ValidTables(pg, content) && pg.subs == old(pg.subs) + {(u, ch)}
  {
    if (u, ch) in pg.subs {
      assert pg.subs + {(u, ch)} == pg.subs;
      return;
    }
    pg.subs := pg.subs + {(u, ch)};
  }

  predicate Configured(languages: map<UserId, seq<Language>>, content: seq<Language>) {
    forall u :: u in languages ==> forall l :: l in languages[u] ==> l in content
  }

  /** Clearing a channel's sets is what losing the subscription means for the mirror. */
  lemma LeavingMirrors(subs: set<Subscription>, languages: map<UserId, seq<Language>>, content: seq<Language>,
                       u: UserId, ch: ChannelId)
    requires ValidReaders(languages) && UNSPECIFIED !in content && Configured(languages, content)
    ensures forall m: Membership :: m in Mirror(subs - {(u, ch)}, languages) <==>
              m in Mirror(subs, languages) && !Cleared(m, u, ch, content)
  {
    MirrorIsDue(subs, languages);
    MirrorIsDue(subs - {(u, ch)}, languages);
    forall m: Membership ensures Due(subs - {(u, ch)}, languages, m) <==> Due(subs, languages, m) && !Cleared(m, u, ch, content) {
      if m.0.Slice? {
        assert Audience(Route(m.0.channel, m.0.language)) == m.0 || m.0.language == UNSPECIFIED;
      }
    }
  }

  method UnsubscribeChannel(pg: Postgres, redis: Redis, content: seq<Language>, u: UserId, ch: ChannelId)
    requires ValidTables(pg, content) && Mirrored(pg, redis)
    modifies pg`subs, redis`members, redis`subsTotal
    ensures ValidTables(pg, content) && Mirrored(pg, redis)
    ensures pg.subs == old(pg.subs) - {(u, ch)}
  {
    LeavingMirrors(pg.subs, pg.languages, content, u, ch);
    pg.subs := pg.subs - {(u, ch)};
    SyncUnsubscribe(redis, u, ch, content);
  }

  /** The channels a user is subscribed to, in some order. */
  method ChannelsOf(pg: Postgres, u: UserId) returns (channels: seq<ChannelId>)
    ensures forall ch :: ch in channels <==> (u, ch) in pg.subs
  {
    var left := set s | s in pg.subs && s.0 == u;
    channels := [];
    while left != {}
      invariant left <= set s | s in pg.subs && s.0 == u
      invariant forall ch :: ch in channels || (u, ch) in left <==> (u, ch) in pg.subs
      invariant forall ch :: ch in channels ==> (u, ch) in pg.subs
      decreases |left|
    {
      var s :| s in left;
      channels, left := channels + [s.1], left - {s};
    }
  }

  /** Rewriting a reader's slices is what changing their languages means for the mirror. */
  lemma RewritingMirrors(subs: set<Subscription>, languages: map<UserId, seq<Language>>, content: seq<Language>,
                         u: UserId, cleaned: seq<Language>, channels: seq<ChannelId>)
    requires ValidReaders(languages) && Configured(languages, content) && u in languages
    requires ValidContent(cleaned) && UNSPECIFIED !in content && forall l :: l in cleaned ==> l in content
    requires forall ch :: ch in channels <==> (u, ch) in subs
    ensures IsRewrite(Mirror(subs, languages), Mirror(subs, languages[u := cleaned]), u, channels, cleaned, content)
  {
    MirrorIsDue(subs, languages);
    MirrorIsDue(subs, languages[u := cleaned]);
  }

  datatype LanguagesReply = Saved(languages: seq<Language>, changed: bool) | EmptyRequest | UnknownLanguage

  /** Store the canonical form; the revision moves only when it differs from what was stored. */
  method StoreLanguages(pg: Postgres, content: seq<Language>, u: UserId, cleaned: seq<Language>) returns (changed: bool)
    requires ValidTables(pg, content) && u in pg.languages
    requires ValidContent(cleaned) && forall l :: l in cleaned ==> l in content
    modifies pg`languages, pg`revision
    ensures ValidTables(pg, content)
    ensures changed <==> cleaned != old(pg.languages)[u]
    ensures pg.languages == old(pg.languages)[u := cleaned]
    ensures changed <==> pg.revision != old(pg.revision)
  {
    changed := cleaned != pg.languages[u];
    if changed {
      var revision := if u in pg.revision then pg.revision[u] else 0;
      pg.languages := pg.languages[u := cleaned];
      pg.revision := pg.revision[u := revision + 1];
      assert u in pg.revision && pg.revision[u] == revision + 1;
    } else {
      assert pg.languages == pg.languages[u := cleaned];
    }
  }

  /** Commit the accepted languages, then rewrite the memberships across the reader's channels. */
  method CommitLanguages(pg: Postgres, redis: Redis, content: seq<Language>, u: UserId, cleaned: seq<Language>) returns (changed: bool)
    requires ValidTables(pg, content) && Mirrored(pg, redis) && u in pg.languages
    requires ValidContent(cleaned) && forall l :: l in cleaned ==> l in content
    modifies pg`languages, pg`revision, redis`members, redis`subsTotal
    ensures ValidTables(pg, content) && Mirrored(pg, redis)
    ensures pg.languages == old(pg.languages)[u := cleaned]
    ensures changed <==> cleaned != old(pg.languages)[u]
    ensures changed <==> pg.revision != old(pg.revision)
  {
    var channels := ChannelsOf(pg, u);
    RewritingMirrors(pg.subs, pg.languages, content, u, cleaned, channels);
    changed := StoreLanguages(pg, content, u, cleaned);
    SyncContentLanguages(redis, u, channels, cleaned, content);
    RewriteIsUnique(old(redis.members), redis.members, Mirror(pg.subs, pg.languages), u, channels, cleaned, content);
  }

  /** Whether the request names a language that is not configured. */
  predicate Unknown(requested: seq<Language>, content: seq<Language>) {
    exists l :: l in requested && l !in content
  }

  ghost predicate SameLanguages(a: seq<Language>, b: seq<Language>) {
    forall l :: l in a <==> l in b
  }

  ghost predicate Canonical(content: seq<Language>, normal: Language -> Language) {
    forall l :: l in content ==> normal(l) == l && l != ""
  }

  /** Store the accepted languages and rewrite the memberships; a refused request changes
      nothing. Run even when nothing changed, to repair an earlier half-done rewrite. */
  method SetContentLanguages(pg: Postgres, redis: Redis, content: seq<Language>, u: UserId, requested: seq<Language>,
                             normal: Language -> Language, fallback: Language) returns (reply: LanguagesReply)
    requires ValidTables(pg, content) && Mirrored(pg, redis) && u in pg.languages
    requires Canonical(content, normal)
    modifies pg`languages, pg`revision, redis`members, redis`subsTotal
    ensures ValidTables(pg, content) && Mirrored(pg, redis)
    ensures reply.EmptyRequest? <==> requested == []
    ensures reply.UnknownLanguage? <==> requested != [] && Unknown(requested, content)
    ensures !reply.Saved? ==> pg.languages == old(pg.languages) && pg.revision == old(pg.revision)
    ensures !reply.Saved? ==> redis.members == old(redis.members)
    ensures reply.Saved? ==> pg.languages == old(pg.languages)[u := reply.languages]
    ensures reply.Saved? ==> SameLanguages(reply.languages, requested)
    ensures reply.Saved? ==> (pg.revision == old(pg.revision) <==> reply.languages == old(pg.languages)[u])
  {
    if requested == [] {
      return EmptyRequest;
    }
    if Unknown(requested, content) {
      return UnknownLanguage;
    }
    var cleaned := AcceptedLanguages(content, requested, normal, fallback);
    var changed := CommitLanguages(pg, redis, content, u, cleaned);
    return Saved(cleaned, changed);
  }

  /** A known, non-empty request is cleaned to the same languages in configured order. */
  method AcceptedLanguages(content: seq<Language>, requested: seq<Language>, normal: Language -> Language, fallback: Language)
    returns (cleaned: seq<Language>)
    requires ValidContent(content) && Canonical(content, normal)
    requires requested != [] && !Unknown(requested, content)
    ensures ValidContent(cleaned) && SameLanguages(cleaned, requested)
  {
    cleaned := Sanitized(content, requested, normal, fallback);
    SanitizedKeepsRequest(content, requested, normal, fallback);
    SanitizedIsUsable(content, requested, normal, fallback);
  }

  /** Clearing every channel a user was in is what losing the account means for the mirror. */
  lemma PurgingMirrors(subs: set<Subscription>, languages: map<UserId, seq<Language>>, content: seq<Language>,
                       u: UserId, channels: seq<ChannelId>)
    requires ValidReaders(languages) && UNSPECIFIED !in content && Configured(languages, content)
    requires forall ch :: ch in channels <==> (u, ch) in subs
    ensures
      var others := set s | s in subs && s.0 != u;
      forall m: Membership :: m in Mirror(others, languages - {u}) <==>
        m in Mirror(subs, languages) && !exists ch :: ch in channels && Cleared(m, u, ch, content)
  {
    var others := set s | s in subs && s.0 != u;
    MirrorIsDue(subs, languages);
    MirrorIsDue(others, languages - {u});
    forall m: Membership ensures Due(others, languages - {u}, m) <==>
                                   Due(subs, languages, m) && !exists ch :: ch in channels && Cleared(m, u, ch, content) {
      if Due(subs, languages, m) && m.1 == u {
        assert m.0.channel in channels;
        assert m.0.Slice? ==> Audience(Route(m.0.channel, m.0.language)) == m.0;
        assert Cleared(m, u, m.0.channel, content);
      }
    }
  }

  /** Account deletion: the rows first, then every trace in the distribution state. */
  method DeleteAccount(pg: Postgres, redis: Redis, content: seq<Language>, u: UserId)
    requires ValidTables(pg, content) && Mirrored(pg, redis)
    modifies pg, redis`queues, redis`tokens, redis`freeQueue, redis`members, redis`subsTotal
    ensures ValidTables(pg, content) && Mirrored(pg, redis)
    ensures u !in pg.languages && forall m :: m in redis.members ==> m.1 != u
    ensures redis.View() == Purged(old(redis.View()), u) && redis.tokens == old(redis.tokens) - {u}
  {
    var channels := ChannelsOf(pg, u);
    PurgingMirrors(pg.subs, pg.languages, content, u, channels);
    pg.subs := set s | s in pg.subs && s.0 != u;
    pg.languages := pg.languages - {u};
    PurgeUser(redis, u, channels, content);
    assert redis.members == Mirror(pg.subs, pg.languages);
    MirrorIsDue(pg.subs, pg.languages);
  }

  lemma RebuildNext(subs: set<Subscription>, left: set<Subscription>, languages: map<UserId, seq<Language>>,
                    s: Subscription, before: set<Membership>)
    requires ValidReaders(languages) && left <= subs && s in left
    ensures before + Mirror(subs - (left - {s}), languages)
            == before + Mirror(subs - left, languages) + Joined(s.0, s.1, LanguagesOf(languages, s.0))
    ensures |Mirror(subs - (left - {s}), languages)| == |Mirror(subs - left, languages)| + 1 + |LanguagesOf(languages, s.0)|
  {
    var done := subs - left;
    OneLeftLess(subs, left, s);
    MirrorExtends(done, languages, s);
    MirrorAdds(done, languages, s);
    UnionAssociates(before, Mirror(done, languages), Joined(s.0, s.1, LanguagesOf(languages, s.0)));
  }

  lemma OneLeftLess(subs: set<Subscription>, left: set<Subscription>, s: Subscription)
    requires left <= subs && s in left
    ensures subs - (left - {s}) == subs - left + {s}
  {
  }

  lemma UnionAssociates(a: set<Membership>, b: set<Membership>, c: set<Membership>)
    ensures a + (b + c) == a + b + c
  {
  }

  /** Re-add the memberships of all subscriptions, counting one plus the languages of each. */
  method AddAll(redis: Redis, subs: set<Subscription>, languages: map<UserId, seq<Language>>) returns (memberships: nat)
    requires ValidReaders(languages)
    modifies redis`members
    ensures redis.members == old(redis.members) + Mirror(subs, languages)
    ensures memberships == |Mirror(subs, languages)|
  {
    ghost var before := redis.members;
    var left := subs;
    memberships := 0;
    assert Mirror(subs - left, languages) == {};
    while left != {}
      invariant left <= subs
      invariant redis.members == before + Mirror(subs - left, languages)
      invariant memberships == |Mirror(subs - left, languages)|
      decreases |left|
    {
      var s :| s in left;
      RebuildNext(subs, left, languages, s, before);
      var more := AddMemberships(redis, s.0, s.1, LanguagesOf(languages, s.0));
      memberships, left := memberships + more, left - {s};
    }
    assert subs - left == subs;
  }

  /** Re-add every membership and set the total from the tables: the mirror again, exactly
      when Redis held nothing beyond it. */
  method RebuildMemberships(pg: Postgres, redis: Redis, content: seq<Language>)
    requires ValidTables(pg, content)
    modifies redis`members, redis`subsTotal
    ensures redis.members == old(redis.members) + Mirror(pg.subs, pg.languages)
    ensures redis.subsTotal == Weight(pg.subs, pg.languages)
    ensures Mirrored(pg, redis) <==> old(redis.members) <= Mirror(pg.subs, pg.languages)
  {
    var memberships := AddAll(redis, pg.subs, pg.languages);
    MirrorSize(pg.subs, pg.languages);
    redis.subsTotal := memberships;
  }

  /** Join one subscription's sets; how many there are, new or not. */
  method AddMemberships(redis: Redis, u: UserId, ch: ChannelId, languages: seq<Language>) returns (count: nat)
    modifies redis`members
    ensures redis.members == old(redis.members) + Joined(u, ch, languages)
    ensures count == 1 + |languages|
  {
    ghost var before := redis.members;
    var _ := SAdd(redis, (Everyone(ch), u));
    var i := 0;
    while i < |languages|
      invariant 0 <= i <= |languages|
      invariant redis.members == before + Joined(u, ch, languages[..i])
    {
      var _ := SAdd(redis, (Audience(Route(ch, languages[i])), u));
      assert languages[..i + 1] == languages[..i] + [languages[i]];
      i := i + 1;
    }
    assert languages[..i] == languages;
    count := 1 + |languages|;
  }
}
