/** The sliding window log: one sorted set of timestamps per budget, trimmed, counted and
    added to in one atomic script. Times are the server's own clock, in milliseconds. */
module RateLimit {

  /** The set's scores in order, and when the key expires. */
  datatype Log = Log(hits: seq<int>, until: int)

  predicate Ordered(hits: seq<int>) {
    forall i, j :: 0 <= i <= j < |hits| ==> hits[i] <= hits[j]
  }

  /** The hits later than `floor`. */
  function Kept(hits: seq<int>, floor: int): (r: seq<int>)
    ensures |r| <= |hits|
  {
    if hits == [] then [] else if hits[0] > floor then [hits[0]] + Kept(hits[1..], floor) else Kept(hits[1..], floor)
  }

  /** An expired key is an empty set. */
  function Alive(l: Log, now: int): seq<int> {
    if now < l.until then l.hits else []
  }

  /** What is left of the log when the script has trimmed it. */
  function Trimmed(l: Log, now: int, window: int): seq<int> {
    Kept(Alive(l, now), now - window)
  }

  predicate Admits(l: Log, now: int, window: int, limit: nat) {
    |Trimmed(l, now, window)| < limit
  }

  function Consumed(l: Log, now: int, window: int, limit: nat): Log {
    var left := Trimmed(l, now, window);
    if |left| < limit then Log(left + [now], now + window) else Log(left, l.until)
  }

  /** The reply: 0 when admitted, otherwise how long until the oldest hit falls out. */
  function Reply(l: Log, now: int, window: int, limit: nat): int
    requires limit >= 1
  {
    var left := Trimmed(l, now, window);
    if |left| < limit then 0 else left[0] + window - now
  }

  class Budget {
    var hits: seq<int>
    var until: int

    constructor ()
      ensures View() == Log([], 0)
    {
      hits, until := [], 0;
    }

    function View(): Log
      reads this
    {
      Log(hits, until)
    }

    /** Expire, check and record in one call. */
    method Consume(now: int, window: int, limit: nat) returns (retry: int)
      requires limit >= 1 && Ordered(hits)
      modifies this
      ensures View() == Consumed(old(View()), now, window, limit)
      ensures retry == Reply(old(View()), now, window, limit)
      ensures (forall h :: h in old(hits) ==> h <= now) ==> Ordered(hits)
    {
      if now >= until {
        hits := [];
      }
      KeptIsOrdered(hits, now - window);
      Trim(now - window);
      if |hits| >= limit {
        return hits[0] + window - now;
      }
      if forall h :: h in hits ==> h <= now {
        OneMoreIsOrdered(hits, now);
      }
      hits := hits + [now];
      until := now + window;
      return 0;
    }

    /** Remove every hit up to `floor`; they are at the front. */
    method Trim(floor: int)
      requires Ordered(hits)
      modifies this`hits
      ensures hits == Kept(old(hits), floor)
    {
      var i := 0;
      while i < |hits| && hits[i] <= floor
        invariant 0 <= i <= |hits|
        invariant Kept(hits, floor) == Kept(hits[i..], floor)
      {
        assert hits[i..][1..] == hits[i + 1..];
        i := i + 1;
      }
      KeepsAllAbove(hits[i..], floor);
      hits := hits[i..];
    }

    /** The limiter as its callers use it: a limit of zero or less is switched off, and a
        refusal tells whole seconds, rounded up and never zero. */
    method Enforce(now: int, window: int, limit: int) returns (retryAfter: int)
      requires Ordered(hits)
      modifies this
      ensures limit <= 0 ==> retryAfter == 0 && View() == old(View())
      ensures limit > 0 ==> View() == Consumed(old(View()), now, window, limit)
      ensures limit > 0 ==> retryAfter == Advertised(Reply(old(View()), now, window, limit))
    {
      if limit <= 0 {
        return 0;
      }
      var retry := Consume(now, window, limit);
      if retry > 0 {
        var seconds := (retry + 999) / 1000;
        return if seconds > 1 then seconds else 1;
      }
      return 0;
    }
  }

  /** The seconds told to a refused caller; 0 when there was no refusal. */
  function Advertised(retry: int): int {
    if retry <= 0 then 0 else if (retry + 999) / 1000 > 1 then (retry + 999) / 1000 else 1
  }

  // ----- the log and what was admitted -----

  lemma {:induction false} KeepsAllAbove(hits: seq<int>, floor: int)
    requires Ordered(hits) && (hits != [] ==> hits[0] > floor)
    ensures Kept(hits, floor) == hits
  {
    if hits != [] {
      var rest := hits[1..];
      assert forall i :: 0 <= i < |rest| ==> rest[i] == hits[i + 1];
      KeepsAllAbove(rest, floor);
    }
  }

  lemma {:induction false} KeptJoins(early: seq<int>, late: seq<int>, floor: int)
    ensures Kept(early + late, floor) == Kept(early, floor) + Kept(late, floor)
  {
    if early == [] {
      assert early + late == late;
    } else {
      assert (early + late)[1..] == early[1..] + late;
      KeptJoins(early[1..], late, floor);
    }
  }

  lemma {:induction false} KeptNothing(hits: seq<int>, floor: int)
    requires forall h :: h in hits ==> h <= floor
    ensures Kept(hits, floor) == []
  {
    if hits != [] {
      assert hits[0] in hits;
      assert forall h :: h in hits[1..] ==> h in hits;
      KeptNothing(hits[1..], floor);
    }
  }

  lemma {:induction false} KeptAgain(hits: seq<int>, low: int, high: int)
    requires low <= high
    ensures Kept(Kept(hits, low), high) == Kept(hits, high)
  {
    if hits != [] {
      KeptAgain(hits[1..], low, high);
      if hits[0] > low {
        assert Kept(hits, low)[1..] == Kept(hits[1..], low);
      }
    }
  }

  /** In an ordered log the hits kept are a suffix. */
  lemma {:induction false} KeptIsSuffix(hits: seq<int>, floor: int)
    requires Ordered(hits)
    ensures
      var n := |hits| - |Kept(hits, floor)|;
      && Kept(hits, floor) == hits[n..]
      && (forall i :: 0 <= i < n ==> hits[i] <= floor)
      && forall i :: n <= i < |hits| ==> hits[i] > floor
  {
    if hits != [] {
      var rest := hits[1..];
      assert forall i :: 0 <= i < |rest| ==> rest[i] == hits[i + 1];
      if hits[0] > floor {
        KeepsAllAbove(hits, floor);
      } else {
        KeptIsSuffix(rest, floor);
        var m := |rest| - |Kept(rest, floor)|;
        assert rest[m..] == hits[m + 1..];
        forall i | 0 <= i < m + 1 ensures hits[i] <= floor {
          assert i > 0 ==> hits[i] == rest[i - 1];
        }
        forall i | m + 1 <= i < |hits| ensures hits[i] > floor {
          assert hits[i] == rest[i - 1];
        }
      }
    }
  }

  /** The log against everything ever admitted, as of some moment: from then on trimming
      either gives the same, and the key outlives every hit still in the window. */
  ghost predicate Faithful(l: Log, admitted: seq<int>, was: int, window: int) {
    && Ordered(admitted) && Ordered(l.hits)
    && (forall h :: h in admitted ==> h <= was && h + window <= l.until)
    && (forall h :: h in l.hits ==> h in admitted)
    && Kept(l.hits, was - window) == Kept(admitted, was - window)
  }

  /** Trimming the log leaves exactly the admissions of the last window; whether the key has
      expired makes no difference. */
  lemma TrimmedIsRecent(l: Log, admitted: seq<int>, was: int, now: int, window: int)
    requires Faithful(l, admitted, was, window) && was <= now
    ensures Trimmed(l, now, window) == Kept(admitted, now - window)
  {
    if now < l.until {
      KeptAgain(l.hits, was - window, now - window);
      KeptAgain(admitted, was - window, now - window);
    } else {
      KeptNothing(admitted, now - window);
    }
  }

  /** The admissions after one more call. */
  function Grown(l: Log, admitted: seq<int>, now: int, window: int, limit: nat): seq<int> {
    if Admits(l, now, window, limit) then admitted + [now] else admitted
  }

  /** Keeping the later hits of an ordered log leaves an ordered part of it. */
  lemma KeptIsOrdered(hits: seq<int>, floor: int)
    requires Ordered(hits)
    ensures Ordered(Kept(hits, floor)) && forall h :: h in Kept(hits, floor) ==> h in hits && h > floor
  {
    KeptIsSuffix(hits, floor);
  }

  lemma RefusalStaysFaithful(l: Log, admitted: seq<int>, was: int, now: int, window: int)
    requires Faithful(l, admitted, was, window) && was <= now
    ensures Faithful(Log(Kept(admitted, now - window), l.until), admitted, now, window)
  {
    var recent := Kept(admitted, now - window);
    KeptIsOrdered(admitted, now - window);
    KeptAgain(admitted, now - window, now - window);
    assert Kept(recent, now - window) == recent;
    assert forall h :: h in recent ==> h in admitted;
  }

  lemma AdmissionStaysFaithful(l: Log, admitted: seq<int>, was: int, now: int, window: int)
    requires Faithful(l, admitted, was, window) && was <= now && window > 0
    ensures Faithful(Log(Kept(admitted, now - window) + [now], now + window), admitted + [now], now, window)
  {
    var left := Kept(admitted, now - window);
    KeptIsOrdered(admitted, now - window);
    OneMoreIsOrdered(admitted, now);
    OneMoreIsOrdered(left, now);
    KeptAgain(admitted, now - window, now - window);
    KeptJoins(left, [now], now - window);
    KeptJoins(admitted, [now], now - window);
  }

  lemma OneMoreIsOrdered(hits: seq<int>, now: int)
    requires Ordered(hits) && forall h :: h in hits ==> h <= now
    ensures Ordered(hits + [now]) && forall h :: h in hits + [now] <==> h in hits || h == now
  {
    var more := hits + [now];
    forall i, j | 0 <= i <= j < |more| ensures more[i] <= more[j] {
      assert i < |hits| ==> more[i] == hits[i] && hits[i] in hits;
    }
  }

  lemma ConsumeStaysFaithful(l: Log, admitted: seq<int>, was: int, now: int, window: int, limit: nat)
    requires Faithful(l, admitted, was, window) && was <= now && window > 0
    ensures Faithful(Consumed(l, now, window, limit), Grown(l, admitted, now, window, limit), now, window)
  {
    TrimmedIsRecent(l, admitted, was, now, window);
    if Admits(l, now, window, limit) {
      AdmissionStaysFaithful(l, admitted, was, now, window);
    } else {
      RefusalStaysFaithful(l, admitted, was, now, window);
    }
  }

  /** The admissions of a run of calls at these times. */
  function Admitted(l: Log, times: seq<int>, window: int, limit: nat): seq<int>
    decreases |times|
  {
    if times == [] then []
    else
      (if Admits(l, times[0], window, limit) then [times[0]] else [])
      + Admitted(Consumed(l, times[0], window, limit), times[1..], window, limit)
  }

  function After(l: Log, times: seq<int>, window: int, limit: nat): Log
    decreases |times|
  {
    if times == [] then l else After(Consumed(l, times[0], window, limit), times[1..], window, limit)
  }

  /** Calls come in order of the server's clock. */
  predicate Timely(was: int, times: seq<int>)
    decreases |times|
  {
    times != [] ==> was <= times[0] && Timely(times[0], times[1..])
  }

  function Last(was: int, times: seq<int>): int {
    if times == [] then was else times[|times| - 1]
  }

  /** Any `limit` admissions in a row leave a whole window before the next. */
  ghost predicate Spaced(admitted: seq<int>, window: int, limit: nat) {
    forall i :: 0 <= i && i + limit < |admitted| ==> admitted[i] + window <= admitted[i + limit]
  }

  lemma AdmissionStaysSpaced(l: Log, admitted: seq<int>, was: int, now: int, window: int, limit: nat)
    requires Faithful(l, admitted, was, window) && was <= now && Spaced(admitted, window, limit)
    requires Admits(l, now, window, limit)
    ensures Spaced(admitted + [now], window, limit)
  {
    TrimmedIsRecent(l, admitted, was, now, window);
    KeptIsSuffix(admitted, now - window);
    var more := admitted + [now];
    forall i | 0 <= i && i + limit < |more| ensures more[i] + window <= more[i + limit] {
      if i + limit == |admitted| {
        assert i < |admitted| - |Kept(admitted, now - window)|;
      }
    }
  }

  lemma StepStaysSpaced(l: Log, admitted: seq<int>, was: int, now: int, window: int, limit: nat)
    requires Faithful(l, admitted, was, window) && was <= now && Spaced(admitted, window, limit)
    ensures Spaced(Grown(l, admitted, now, window, limit), window, limit)
  {
    if Admits(l, now, window, limit) {
      AdmissionStaysSpaced(l, admitted, was, now, window, limit);
    }
  }

  lemma AdmittedNext(l: Log, admitted: seq<int>, times: seq<int>, window: int, limit: nat)
    requires times != []
    ensures admitted + Admitted(l, times, window, limit)
            == Grown(l, admitted, times[0], window, limit) + Admitted(Consumed(l, times[0], window, limit), times[1..], window, limit)
  {
    var now := if Admits(l, times[0], window, limit) then [times[0]] else [];
    JoinedInOrder(admitted, now, Admitted(Consumed(l, times[0], window, limit), times[1..], window, limit));
    assert admitted + now == Grown(l, admitted, times[0], window, limit);
  }

  lemma JoinedInOrder(a: seq<int>, b: seq<int>, c: seq<int>)
    ensures a + (b + c) == a + b + c
  {
  }

  lemma {:induction false} RunStaysSpaced(l: Log, admitted: seq<int>, was: int, times: seq<int>, window: int, limit: nat)
    requires Faithful(l, admitted, was, window) && Spaced(admitted, window, limit) && Timely(was, times) && window > 0
    ensures Spaced(admitted + Admitted(l, times, window, limit), window, limit)
    ensures Faithful(After(l, times, window, limit), admitted + Admitted(l, times, window, limit), Last(was, times), window)
    decreases |times|
  {
    if times == [] {
      assert admitted + [] == admitted;
    } else {
      assert Last(was, times) == Last(times[0], times[1..]);
      ConsumeStaysFaithful(l, admitted, was, times[0], window, limit);
      StepStaysSpaced(l, admitted, was, times[0], window, limit);
      RunStaysSpaced(Consumed(l, times[0], window, limit), Grown(l, admitted, times[0], window, limit),
                     times[0], times[1..], window, limit);
      AdmittedNext(l, admitted, times, window, limit);
    }
  }

  function Within(admitted: seq<int>, start: int, end: int): set<int> {
    set i | 0 <= i < |admitted| && start <= admitted[i] < end
  }

  /** Indices that lie less than `limit` apart are at most `limit`. */
  lemma {:induction false} FewWhenClose(s: set<int>, low: int, limit: nat)
    requires forall i :: i in s ==> low <= i < low + limit
    ensures |s| <= limit
    decreases limit
  {
    if limit == 0 {
      assert s == {};
    } else {
      FewWhenClose(s - {low}, low + 1, limit - 1);
    }
  }

  lemma SpacedAt(admitted: seq<int>, low: nat, i: nat, window: int, limit: nat)
    requires Ordered(admitted) && Spaced(admitted, window, limit) && low + limit <= i < |admitted|
    ensures admitted[low] + window <= admitted[i]
  {
    assert admitted[low] + window <= admitted[low + limit];
  }

  lemma SpacedMeansFew(admitted: seq<int>, start: int, window: int, limit: nat)
    requires Ordered(admitted) && Spaced(admitted, window, limit) && window > 0
    ensures |Within(admitted, start, start + window)| <= limit
  {
    var hits := Within(admitted, start, start + window);
    if hits != {} {
      var low := First(admitted, start, start + window);
      forall i | i in hits ensures low <= i < low + limit {
        if i >= low + limit {
          SpacedAt(admitted, low, i, window, limit);
        }
      }
      FewWhenClose(hits, low, limit);
    }
  }

  /** The earliest index whose hit lies in the interval. */
  lemma {:induction false} EarliestHit(admitted: seq<int>, start: int, end: int, n: nat)
    requires n in Within(admitted, start, end)
    ensures exists low :: low in Within(admitted, start, end) && forall i :: i in Within(admitted, start, end) ==> low <= i
    decreases n
  {
    if earlier :| earlier in Within(admitted, start, end) && earlier < n {
      EarliestHit(admitted, start, end, earlier);
    }
  }

  ghost function First(admitted: seq<int>, start: int, end: int): (low: int)
    requires Within(admitted, start, end) != {}
    ensures low in Within(admitted, start, end) && forall i :: i in Within(admitted, start, end) ==> low <= i
  {
    var some :| some in Within(admitted, start, end);
    EarliestHit(admitted, start, end, some);
    var low :| low in Within(admitted, start, end) && forall i :: i in Within(admitted, start, end) ==> low <= i;
    low
  }

  /** No interval of one window length holds more than `limit` admissions, over any calls. */
  lemma NeverMoreThanLimit(start: int, times: seq<int>, window: int, limit: nat, from: int)
    requires Timely(start, times) && window > 0
    ensures |Within(Admitted(Log([], 0), times, window, limit), from, from + window)| <= limit
  {
    RunStaysSpaced(Log([], 0), [], start, times, window, limit);
    assert [] + Admitted(Log([], 0), times, window, limit) == Admitted(Log([], 0), times, window, limit);
    SpacedMeansFew(Admitted(Log([], 0), times, window, limit), from, window, limit);
  }

  /** Nor does the log ever hold more than `limit` hits. */
  lemma {:induction false} LogStaysSmall(l: Log, times: seq<int>, window: int, limit: nat)
    requires |l.hits| <= limit
    ensures |After(l, times, window, limit).hits| <= limit
    decreases |times|
  {
    if times != [] {
      LogStaysSmall(Consumed(l, times[0], window, limit), times[1..], window, limit);
    }
  }

  // ----- the wait -----

  /** A refusal always asks for a wait, so it is never mistaken for an admission. */
  lemma RefusalWaits(l: Log, now: int, window: int, limit: nat)
    requires limit >= 1 && Ordered(l.hits)
    ensures Admits(l, now, window, limit) <==> Reply(l, now, window, limit) == 0
    ensures !Admits(l, now, window, limit) ==> Reply(l, now, window, limit) > 0
  {
    KeptIsSuffix(Alive(l, now), now - window);
  }

  /** Until the wait is over a retry after a refusal finds the same hits, and is refused too. */
  lemma RefusedMeanwhile(l: Log, now: int, later: int, window: int, limit: nat)
    requires limit >= 1 && Ordered(l.hits) && !Admits(l, now, window, limit)
    requires now <= later < now + Reply(l, now, window, limit) && later < l.until
    ensures Trimmed(Consumed(l, now, window, limit), later, window) == Trimmed(l, now, window)
    ensures !Admits(Consumed(l, now, window, limit), later, window, limit)
  {
    KeptIsOrdered(Alive(l, now), now - window);
    KeepsAllAbove(Trimmed(l, now, window), later - window);
  }

  /** The key outlives the wait of a refusal. */
  lemma WaitEndsBeforeExpiry(l: Log, admitted: seq<int>, was: int, now: int, window: int, limit: nat)
    requires limit >= 1 && Faithful(l, admitted, was, window) && was <= now && !Admits(l, now, window, limit)
    ensures now + Reply(l, now, window, limit) <= l.until
  {
    TrimmedIsRecent(l, admitted, was, now, window);
    KeptIsSuffix(admitted, now - window);
    var left := Kept(admitted, now - window);
    assert left[0] == admitted[|admitted| - |left|];
    assert left[0] in admitted;
  }

  lemma {:induction false} WaitFromFaithful(l: Log, admitted: seq<int>, was: int, now: int, times: seq<int>, window: int, limit: nat)
    requires limit >= 1 && window > 0 && |l.hits| <= limit
    requires Faithful(l, admitted, was, window) && was <= now && !Admits(l, now, window, limit)
    requires Timely(now, times)
    ensures Last(now, times) < now + Reply(l, now, window, limit) ==>
              Admitted(Consumed(l, now, window, limit), times, window, limit) == []
    ensures forall later :: Last(now, times) < now + Reply(l, now, window, limit) <= later ==>
              Admits(After(Consumed(l, now, window, limit), times, window, limit), later, window, limit)
    decreases |times|
  {
    var refused := Consumed(l, now, window, limit);
    var due := now + Reply(l, now, window, limit);
    ConsumeStaysFaithful(l, admitted, was, now, window, limit);
    RefusalWaits(l, now, window, limit);
    if times == [] {
      forall later | due <= later ensures Admits(refused, later, window, limit) {
        AdmittedWhenDue(l, admitted, was, now, later, window, limit);
      }
    } else if Last(now, times) < due {
      TimelyReaches(times[0], times[1..]);
      assert Last(now, times) == Last(times[0], times[1..]);
      WaitEndsBeforeExpiry(l, admitted, was, now, window, limit);
      RefusedMeanwhile(l, now, times[0], window, limit);
      WaitFromFaithful(refused, admitted, now, times[0], times[1..], window, limit);
    }
  }

  lemma {:induction false} TimelyReaches(was: int, times: seq<int>)
    requires Timely(was, times)
    ensures was <= Last(was, times)
    decreases |times|
  {
    if times != [] {
      TimelyReaches(times[0], times[1..]);
    }
  }

  lemma AdmittedWhenDue(l: Log, admitted: seq<int>, was: int, now: int, later: int, window: int, limit: nat)
    requires limit >= 1 && window > 0 && |l.hits| <= limit
    requires Faithful(l, admitted, was, window) && was <= now && !Admits(l, now, window, limit)
    requires now + Reply(l, now, window, limit) <= later
    ensures Admits(Consumed(l, now, window, limit), later, window, limit)
  {
    var left := Trimmed(l, now, window);
    assert left[0] <= later - window;
    assert Kept(left, later - window) == Kept(left[1..], later - window);
  }

  /** The seconds told cover the wait, so a caller that obeys them is admitted. */
  lemma AdvertisedCoversWait(retry: int)
    requires retry > 0
    ensures 1 <= Advertised(retry) && retry <= 1000 * Advertised(retry) < retry + 1000
  {
  }

  /** The wait told is exact, whatever calls came before: after a refusal every call before the
      wait is over is refused, however many there are, and the first call from then on is
      admitted. So is the first call of a caller that waits the whole seconds it is told. */
  lemma WaitIsExact(start: int, before: seq<int>, now: int, times: seq<int>, window: int, limit: nat)
    requires limit >= 1 && window > 0
    requires Timely(start, before) && Last(start, before) <= now && Timely(now, times)
    requires !Admits(After(Log([], 0), before, window, limit), now, window, limit)
    ensures
      var l := After(Log([], 0), before, window, limit);
      var due := now + Reply(l, now, window, limit);
      && due > now
      && (Last(now, times) < due ==>
            && Admitted(Consumed(l, now, window, limit), times, window, limit) == []
            && Admits(After(Consumed(l, now, window, limit), times, window, limit),
                      now + 1000 * Advertised(Reply(l, now, window, limit)), window, limit))
      && forall later :: Last(now, times) < due <= later ==>
                           Admits(After(Consumed(l, now, window, limit), times, window, limit), later, window, limit)
  {
    var l := After(Log([], 0), before, window, limit);
    var admitted := [] + Admitted(Log([], 0), before, window, limit);
    RunStaysSpaced(Log([], 0), [], start, before, window, limit);
    LogStaysSmall(Log([], 0), before, window, limit);
    RefusalWaits(l, now, window, limit);
    AdvertisedCoversWait(Reply(l, now, window, limit));
    WaitFromFaithful(l, admitted, Last(start, before), now, times, window, limit);
  }
}
