/** One reader's review counters when their reviews overlap: each request adds one to the counters
    it loaded with the reader's row and writes the results back with its commit, while the review
    rows themselves, and the post's counters, are added to where they are. */
module CounterRace {
  import opened Ledger

  /** The reader's row. */
  datatype Counters = Counters(reviewed: int, forwarded: int, dropped: int)

  /** The review rows there really are. */
  datatype Tally = Tally(forwards: nat, drops: nat) {
    function Rows(): nat {
      forwards + drops
    }
  }

  /** What a request loaded, and as history how many rows there were then. */
  datatype Loaded = Loaded(kind: Kind, counters: Counters, tally: Tally)

  datatype State = State(counters: Counters, tally: Tally, loaded: map<nat, Loaded>)

  /** A request loads the reader's row; commits its review; or is refused and commits nothing. */
  datatype Step = Load(id: nat, kind: Kind) | Commit(id: nat) | Refuse(id: nat)

  predicate Enabled(s: State, step: Step) {
    match step
    case Load(id, _) => id !in s.loaded
    case Commit(id) => id in s.loaded
    case Refuse(id) => id in s.loaded
  }

  /** The columns a commit writes: one more than was loaded, of the two it changed. */
  function Written(row: Counters, q: Loaded): Counters {
    match q.kind
    case Forward => row.(reviewed := q.counters.reviewed + 1, forwarded := q.counters.forwarded + 1)
    case Drop => row.(reviewed := q.counters.reviewed + 1, dropped := q.counters.dropped + 1)
  }

  function Entered(tally: Tally, kind: Kind): Tally {
    match kind
    case Forward => tally.(forwards := tally.forwards + 1)
    case Drop => tally.(drops := tally.drops + 1)
  }

  function After(s: State, step: Step): State
    requires Enabled(s, step)
  {
    match step
    case Load(id, kind) => s.(loaded := s.loaded[id := Loaded(kind, s.counters, s.tally)])
    case Commit(id) => State(Written(s.counters, s.loaded[id]), Entered(s.tally, s.loaded[id].kind), s.loaded - {id})
    case Refuse(id) => s.(loaded := s.loaded - {id})
  }

  ghost predicate Leads(s: State, steps: seq<Step>, t: State)
    decreases |steps|
  {
    if steps == [] then s == t
    else Enabled(s, steps[0]) && Leads(After(s, steps[0]), steps[1..], t)
  }

  predicate Exact(row: Counters, tally: Tally) {
    row.forwarded == tally.forwards && row.dropped == tally.drops && row.reviewed == tally.Rows()
  }

  /** A reader whose counters are exact and who has no review under way. */
  predicate Start(s: State) {
    Exact(s.counters, s.tally) && s.loaded == map[]
  }

  // ----- counters never exceed the rows -----

  predicate NoMore(row: Counters, tally: Tally) {
    row.forwarded <= tally.forwards && row.dropped <= tally.drops && row.reviewed <= tally.Rows()
  }

  predicate Earlier(x: Tally, y: Tally) {
    x.forwards <= y.forwards && x.drops <= y.drops
  }

  predicate Bounded(s: State) {
    && NoMore(s.counters, s.tally)
    && forall id :: id in s.loaded ==> NoMore(s.loaded[id].counters, s.loaded[id].tally) && Earlier(s.loaded[id].tally, s.tally)
  }

  lemma StepBounded(s: State, step: Step)
    requires Bounded(s) && Enabled(s, step)
    ensures Bounded(After(s, step))
  {
    var t := After(s, step);
    if step.Commit? {
      assert NoMore(s.loaded[step.id].counters, s.loaded[step.id].tally) && Earlier(s.loaded[step.id].tally, s.tally);
    }
    forall id | id in t.loaded ensures NoMore(t.loaded[id].counters, t.loaded[id].tally) && Earlier(t.loaded[id].tally, t.tally) {
      assert id in s.loaded ==> Earlier(s.loaded[id].tally, s.tally);
    }
  }

  lemma {:induction false} RunBounded(s: State, steps: seq<Step>, t: State)
    requires Bounded(s) && Leads(s, steps, t)
    ensures Bounded(t)
    decreases |steps|
  {
    if steps != [] {
      StepBounded(s, steps[0]);
      RunBounded(After(s, steps[0]), steps[1..], t);
    }
  }

  /** However reviews overlap, no counter ever shows more than there are rows. */
  lemma CountersNeverExceedRows(s: State, steps: seq<Step>, t: State)
    requires Start(s) && Leads(s, steps, t)
    ensures NoMore(t.counters, t.tally)
  {
    RunBounded(s, steps, t);
  }

  // ----- the exact loss -----

  /** By how much the reviewed count falls short of the rows. */
  function Short(row: Counters, tally: Tally): int {
    tally.Rows() - row.reviewed
  }

  function Among(tally: Tally, kind: Kind): nat {
    match kind case Forward => tally.forwards case Drop => tally.drops
  }

  function CountOf(row: Counters, kind: Kind): int {
    match kind case Forward => row.forwarded case Drop => row.dropped
  }

  /** What a commit leaves missing: what was missing when it loaded, and every review committed
      since. The count of its own kind loses the commits of that kind; the other is untouched. */
  lemma CommitLoses(s: State, id: nat)
    requires id in s.loaded
    ensures
      var q, t := s.loaded[id], After(s, Commit(id));
      && Short(t.counters, t.tally) == Short(q.counters, q.tally) + (s.tally.Rows() - q.tally.Rows())
      && Among(t.tally, q.kind) - CountOf(t.counters, q.kind)
         == Among(q.tally, q.kind) - CountOf(q.counters, q.kind) + (Among(s.tally, q.kind) - Among(q.tally, q.kind))
      && forall other: Kind :: other != q.kind ==>
           CountOf(t.counters, other) == CountOf(s.counters, other) && Among(t.tally, other) == Among(s.tally, other)
  {
  }

  /** So over any run the reviewed count is exact after a commit if and only if that request loaded
      an exact count and no other review was committed in between. */
  lemma ExactAfterCommit(s: State, steps: seq<Step>, t: State, id: nat)
    requires Start(s) && Leads(s, steps, t) && id in t.loaded
    ensures
      var q, u := t.loaded[id], After(t, Commit(id));
      u.counters.reviewed == u.tally.Rows() <==> q.counters.reviewed == q.tally.Rows() && q.tally.Rows() == t.tally.Rows()
  {
    RunBounded(s, steps, t);
    CommitLoses(t, id);
  }

  // ----- one review at a time -----

  /** Along the run a review loads the row only when no other is under way. */
  ghost predicate OneAtATime(s: State, steps: seq<Step>)
    decreases |steps|
  {
    steps != [] ==>
      && Enabled(s, steps[0]) && (steps[0].Load? ==> s.loaded == map[])
      && OneAtATime(After(s, steps[0]), steps[1..])
  }

  /** The counters are exact, and what is loaded is what they are. */
  predicate Serial(s: State) {
    && Exact(s.counters, s.tally)
    && (forall id :: id in s.loaded ==> s.loaded[id].counters == s.counters)
    && forall i, j :: i in s.loaded && j in s.loaded ==> i == j
  }

  lemma {:induction false} RunSerial(s: State, steps: seq<Step>, t: State)
    requires Serial(s) && Leads(s, steps, t) && OneAtATime(s, steps)
    ensures Serial(t)
    decreases |steps|
  {
    if steps != [] {
      assert Serial(After(s, steps[0]));
      RunSerial(After(s, steps[0]), steps[1..], t);
    }
  }

  /** Reviews of one reader that do not overlap keep all three counters exact. */
  lemma SerialReviewsAreExact(s: State, steps: seq<Step>, t: State)
    requires Start(s) && Leads(s, steps, t) && OneAtATime(s, steps)
    ensures Exact(t.counters, t.tally) && t.counters.reviewed == t.counters.forwarded + t.counters.dropped
  {
    RunSerial(s, steps, t);
  }

  // ----- a run that overlaps -----

  lemma OneMoreAhead(s: State, step: Step, rest: seq<Step>, t: State) returns (steps: seq<Step>)
    requires Enabled(s, step) && Leads(After(s, step), rest, t)
    ensures steps == [step] + rest && Leads(s, steps, t)
  {
    steps := [step] + rest;
    assert steps[1..] == rest;
  }

  /** A reader forwards one post and drops another at once: two rows, a reviewed count of one, and
      one forwarded and one dropped, so it is not even their sum. */
  lemma OverlappingReviewsLoseOne() returns (s: State, steps: seq<Step>, t: State)
    ensures Start(s) && Leads(s, steps, t) && t.loaded == map[] && t.tally.Rows() == 2
    ensures t.counters == Counters(1, 1, 1) && t.counters.reviewed != t.counters.forwarded + t.counters.dropped
  {
    var none := Counters(0, 0, 0);
    var forward, drop := Loaded(Forward, none, Tally(0, 0)), Loaded(Drop, none, Tally(0, 0));
    s := State(none, Tally(0, 0), map[]);
    var s1 := State(none, Tally(0, 0), map[0 := forward]);
    var s2 := State(none, Tally(0, 0), map[0 := forward, 1 := drop]);
    var s3 := State(Counters(1, 1, 0), Tally(1, 0), map[1 := drop]);
    t := State(Counters(1, 1, 1), Tally(1, 1), map[]);
    assert After(s3, Commit(1)) == t && After(s2, Commit(0)) == s3;
    assert After(s1, Load(1, Drop)) == s2 && After(s, Load(0, Forward)) == s1;
    steps := OneMoreAhead(s3, Commit(1), [], t);
    steps := OneMoreAhead(s2, Commit(0), steps, t);
    steps := OneMoreAhead(s1, Load(1, Drop), steps, t);
    steps := OneMoreAhead(s, Load(0, Forward), steps, t);
  }
}
