/** The vocabulary of the feed: ids, routes, audience keys and fan-out operations. */
module FeedTypes {

  type UserId = nat
  type PostId = nat
  type ChannelId = nat
  type Language = string

  /** The reserved "no language" value: such a post is readable by the whole channel. */
  const UNSPECIFIED: Language := "und"

  datatype Option<+T> = None | Some(value: T) {
    function GetOr(default: T): T {
      match this
      case Some(v) => v
      case None => default
    }
  }

  /** The routing key: the unit that has its own audience, backlog and price. */
  datatype Route = Route(channel: ChannelId, language: Language)

  /** The name of an audience set: a whole channel, or one language slice of it. */
  datatype AudienceKey = Everyone(channel: ChannelId) | Slice(channel: ChannelId, language: Language)

  /** The audience set a route names. */
  function Audience(route: Route): AudienceKey {
    if route.language == UNSPECIFIED then Everyone(route.channel)
    else Slice(route.channel, route.language)
  }

  /** One fan-out operation as it travels on the stream or waits in the retry set.
      `expires` is absent until the operation is first parked. */
  datatype Op = Op(post: PostId, route: Route, author: Option<UserId>,
                   fanout: Option<int>, expires: Option<int>)

  /** An operation waiting in the retry set until it is due. */
  datatype Waiting = Waiting(op: Op, due: int)

  /** The settings the feed core reads. */
  datatype Settings = Settings(
    maxSlots: nat, fanout: int, sampleMultiplier: nat,
    excludeSeen: bool, excludeOwn: bool,
    retryInterval: nat, retryMaxAge: nat, seenTtl: nat)

  /** The documented ranges: a queue holds something, a sample is at least as big as the
      fan-out, and a seen set outlives two retry windows. */
  predicate ValidSettings(c: Settings) {
    && c.maxSlots >= 1
    && c.sampleMultiplier >= 1
    && c.retryInterval >= 1
    && c.seenTtl >= 2 * c.retryMaxAge
  }

  /** How many recipients an operation is worth: its own fan-out or the default, at least 1. */
  function Reach(c: Settings, op: Op): (k: nat)
    ensures k >= 1
    ensures op.fanout.Some? && op.fanout.value >= 1 ==> k == op.fanout.value
    ensures op.fanout.None? && c.fanout >= 1 ==> k == c.fanout
    ensures op.fanout.GetOr(c.fanout) < 1 ==> k == 1
  {
    var k := op.fanout.GetOr(c.fanout);
    if k < 1 then 1 else k
  }

  /** Whom an operation must skip as its author. */
  function AuthorSet(c: Settings, op: Op): set<UserId> {
    if c.excludeOwn && op.author.Some? then {op.author.value} else {}
  }

  predicate Distinct<T(==)>(s: seq<T>) {
    forall i, j :: 0 <= i < j < |s| ==> s[i] != s[j]
  }

  /** Those of `us` that are (or are not) in `keep`, in order. */
  function Filter(us: seq<UserId>, keep: set<UserId>, want: bool): (r: seq<UserId>)
    ensures forall u :: u in r <==> u in us && (u in keep) == want
    ensures Distinct(us) ==> Distinct(r)
    ensures |r| <= |us|
  {
    if us == [] then []
    else if (us[0] in keep) == want then [us[0]] + Filter(us[1..], keep, want)
    else Filter(us[1..], keep, want)
  }

  function Take<T>(us: seq<T>, k: nat): seq<T> {
    if |us| <= k then us else us[..k]
  }
}
