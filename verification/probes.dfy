/** When a reader's next post is a test: the outstanding test, the gap between two, and the
    wordings shown lately. */
module Probes {
  import opened FeedTypes

  type Code = string

  /** One reader's probe keys: when the outstanding test stops blocking, the reviews since the
      last one, and the wordings shown lately, newest first. */
  datatype Keys = Keys(pendingUntil: Option<int>, since: nat, recent: seq<Code>)

  datatype ProbeSettings = ProbeSettings(enabled: bool, gap: nat, memory: nat, pendingTtl: nat)

  predicate Outstanding(k: Keys, now: int) {
    k.pendingUntil.Some? && now < k.pendingUntil.value
  }

  /** A roll counts only while tests are made and none is outstanding. */
  function Rolled(c: ProbeSettings, k: Keys, now: int): Keys {
    if !c.enabled || Outstanding(k, now) then k else k.(since := k.since + 1)
  }

  predicate Wins(c: ProbeSettings, k: Keys, now: int, lucky: bool) {
    c.enabled && !Outstanding(k, now) && k.since + 1 >= c.gap && lucky
  }

  function Minted(c: ProbeSettings, k: Keys, now: int, code: Code): Keys {
    Keys(Some(now + c.pendingTtl), 0, Take([code] + k.recent, c.memory))
  }

  class ProbeKeys {
    var pendingUntil: Option<int>
    var since: nat
    var recent: seq<Code>

    constructor ()
      ensures View() == Keys(None, 0, [])
    {
      pendingUntil, since, recent := None, 0, [];
    }

    function View(): Keys
      reads this
    {
      Keys(pendingUntil, since, recent)
    }

    /** Roll for whether the next post is a test; `lucky` is the dice. */
    method ShouldMint(c: ProbeSettings, now: int, lucky: bool) returns (mint: bool)
      modifies this`since
      ensures mint == Wins(c, old(View()), now, lucky)
      ensures mint <==>
                && c.enabled && (pendingUntil.Some? ==> pendingUntil.value <= now)
                && old(since) + 1 >= c.gap && lucky
      ensures View() == Rolled(c, old(View()), now)
      ensures since == old(since) + if c.enabled && (pendingUntil.Some? ==> pendingUntil.value <= now) then 1 else 0
    {
      if !c.enabled || (pendingUntil.Some? && now < pendingUntil.value) {
        return false;
      }
      since := since + 1;
      if since < c.gap {
        return false;
      }
      return lucky;
    }

    /** A wording in the language, not shown lately unless all of them were. */
    method PickVariant(available: set<Code>) returns (code: Option<Code>)
      ensures code.None? <==> available == {}
      ensures code.Some? ==> Pickable(code.value, available, recent)
      ensures code.Some? ==> code.value in available && (code.value !in recent || forall v :: v in available ==> v in recent)
    {
      if available == {} {
        return None;
      }
      var unseen := set v | v in available && v !in recent;
      if unseen == {} {
        assert forall v :: v in available && v !in recent ==> v in unseen;
      }
      var v :| v in if unseen != {} then unseen else available;
      return Some(v);
    }

    /** Remember a test just placed. */
    method RecordMint(c: ProbeSettings, now: int, code: Code)
      modifies this
      ensures View() == Minted(c, old(View()), now, code)
      ensures pendingUntil == Some(now + c.pendingTtl) && since == 0
      ensures recent <= [code] + old(recent) && (recent == [code] + old(recent) || |recent| == c.memory) && |recent| <= c.memory
    {
      pendingUntil := Some(now + c.pendingTtl);
      since := 0;
      recent := [code] + recent;
      if |recent| > c.memory {
        recent := recent[..c.memory];
      }
    }

    /** Nothing is remembered of a deleted account. */
    method Forget()
      modifies this
      ensures View() == Keys(None, 0, [])
    {
      pendingUntil, since, recent := None, 0, [];
    }

    /** Any answer clears the outstanding test. */
    method RecordAnswer()
      modifies this`pendingUntil
      ensures View() == old(View()).(pendingUntil := None)
    {
      pendingUntil := None;
    }
  }

  // ----- runs -----

  /** A review rolls, and mints when the roll wins and a test could be made; an answer clears. */
  datatype Event = Review(now: int, lucky: bool, code: Option<Code>) | Answer(now: int)

  predicate Mints(c: ProbeSettings, k: Keys, e: Event) {
    e.Review? && Wins(c, k, e.now, e.lucky) && e.code.Some?
  }

  function Next(c: ProbeSettings, k: Keys, e: Event): Keys {
    match e
    case Answer(_) => k.(pendingUntil := None)
    case Review(now, _, code) => if Mints(c, k, e) then Minted(c, Rolled(c, k, now), now, code.value) else Rolled(c, k, now)
  }

  function MintCount(c: ProbeSettings, k: Keys, events: seq<Event>): nat
    decreases |events|
  {
    if events == [] then 0 else (if Mints(c, k, events[0]) then 1 else 0) + MintCount(c, Next(c, k, events[0]), events[1..])
  }

  function ReviewCount(events: seq<Event>): nat {
    if events == [] then 0 else (if events[0].Review? then 1 else 0) + ReviewCount(events[1..])
  }

  /** Over any run there are at least `gap` reviews to every test. */
  lemma {:induction false} TestsAreSpaced(c: ProbeSettings, k: Keys, events: seq<Event>)
    ensures c.gap * MintCount(c, k, events) <= k.since + ReviewCount(events)
    decreases |events|
  {
    if events != [] {
      var next := Next(c, k, events[0]);
      TestsAreSpaced(c, next, events[1..]);
      if Mints(c, k, events[0]) {
        assert c.gap * MintCount(c, k, events) == c.gap + c.gap * MintCount(c, next, events[1..]);
      }
    }
  }

  /** No second test while one is out: none is minted before it is answered or its key expires. */
  lemma {:induction false} OneTestAtATime(c: ProbeSettings, k: Keys, events: seq<Event>, until: int)
    requires k.pendingUntil == Some(until)
    requires forall e :: e in events ==> e.Review? && e.now < until
    ensures MintCount(c, k, events) == 0
    decreases |events|
  {
    if events != [] {
      assert events[0] in events;
      assert forall e :: e in events[1..] ==> e in events;
      OneTestAtATime(c, Next(c, k, events[0]), events[1..], until);
    }
  }

  /** A test placed at `now` blocks the next one for its whole time, whatever is reviewed
      meanwhile, and no longer than that. */
  lemma MintBlocksForItsTime(c: ProbeSettings, k: Keys, now: int, code: Code, events: seq<Event>, later: int)
    ensures (forall e :: e in events ==> e.Review? && e.now < now + c.pendingTtl) ==>
              MintCount(c, Minted(c, k, now, code), events) == 0
    ensures c.enabled && c.gap <= 1 ==> (Wins(c, Minted(c, k, now, code), later, true) <==> now + c.pendingTtl <= later)
  {
    if forall e :: e in events ==> e.Review? && e.now < now + c.pendingTtl {
      OneTestAtATime(c, Minted(c, k, now, code), events, now + c.pendingTtl);
    }
  }

  /** An answer ends that at once, whenever it comes and whatever it says. */
  lemma AnswerUnblocks(c: ProbeSettings, k: Keys, at: int, later: int, code: Code)
    requires c.enabled && k.since + 1 >= c.gap
    ensures MintCount(c, k, [Answer(at), Review(later, true, Some(code))]) == 1
  {
    var events := [Answer(at), Review(later, true, Some(code))];
    assert events[1..] == [events[1]] && events[1..][1..] == [];
    assert MintCount(c, Next(c, k, events[0]), events[1..]) == 1;
  }

  // ----- what the counter counts -----

  function After(c: ProbeSettings, k: Keys, events: seq<Event>): Keys
    decreases |events|
  {
    if events == [] then k else After(c, Next(c, k, events[0]), events[1..])
  }

  /** The reviews made while tests were on and none was out. */
  function Unblocked(c: ProbeSettings, k: Keys, events: seq<Event>): nat
    decreases |events|
  {
    if events == [] then 0
    else (if events[0].Review? && c.enabled && !Outstanding(k, events[0].now) then 1 else 0) + Unblocked(c, Next(c, k, events[0]), events[1..])
  }

  lemma {:induction false} UnblockedAreReviews(c: ProbeSettings, k: Keys, events: seq<Event>)
    ensures Unblocked(c, k, events) <= ReviewCount(events)
    decreases |events|
  {
    if events != [] {
      UnblockedAreReviews(c, Next(c, k, events[0]), events[1..]);
    }
  }

  /** Between two tests the counter counts the reviews made while none was out: it counts every
      review only if none was made while one was. */
  lemma {:induction false} CounterSkipsBlockedReviews(c: ProbeSettings, k: Keys, events: seq<Event>)
    requires MintCount(c, k, events) == 0
    ensures After(c, k, events).since == k.since + Unblocked(c, k, events)
    ensures After(c, k, events).since == k.since + ReviewCount(events) <==> Unblocked(c, k, events) == ReviewCount(events)
    decreases |events|
  {
    if events != [] {
      CounterSkipsBlockedReviews(c, Next(c, k, events[0]), events[1..]);
    }
  }

  /** So one review while a test is out is not counted. */
  lemma BlockedReviewIsNotCounted(c: ProbeSettings, k: Keys, now: int, lucky: bool, code: Option<Code>)
    requires Outstanding(k, now)
    ensures After(c, k, [Review(now, lucky, code)]) == k && ReviewCount([Review(now, lucky, code)]) == 1
  {
    assert [Review(now, lucky, code)][1..] == [];
  }

  predicate Pickable(code: Code, available: set<Code>, recent: seq<Code>) {
    code in available && (code in recent ==> forall v :: v in available ==> v in recent)
  }

  lemma {:induction false} FewerThanListed(s: set<Code>, listed: seq<Code>)
    requires forall v :: v in s ==> v in listed
    ensures |s| <= |listed|
    decreases |listed|
  {
    if listed == [] {
      assert s == {};
    } else {
      assert forall v :: v in s - {listed[0]} ==> v in listed[1..] by {
        assert listed == [listed[0]] + listed[1..];
      }
      FewerThanListed(s - {listed[0]}, listed[1..]);
    }
  }

  /** With more wordings than are remembered, the remembered ones never hold a repeat. */
  lemma RememberedStayDistinct(c: ProbeSettings, k: Keys, now: int, code: Code, available: set<Code>)
    requires Distinct(k.recent) && |k.recent| <= c.memory < |available| && Pickable(code, available, k.recent)
    ensures code !in k.recent
    ensures Distinct(Minted(c, k, now, code).recent) && |Minted(c, k, now, code).recent| <= c.memory
  {
    if forall v :: v in available ==> v in k.recent {
      FewerThanListed(available, k.recent);
    }
    var all := [code] + k.recent;
    assert forall i :: 0 < i < |all| ==> all[i] == k.recent[i - 1];
  }
}
