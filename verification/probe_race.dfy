/** The tests of one reader when their requests overlap: the roll after a review looks for an
    outstanding test, counts, and only then makes a test and marks it outstanding. */
module ProbeRace {
  import opened FeedTypes
  import opened Probes

  /** The next command of a request that follows up a review. */
  datatype Pc =
    | Checking
    | Counting
    | Placing
    | Marking
    | Clearing
    | Done

  /** The reader's keys, their requests, and as history the tests placed so far. */
  datatype State = State(now: int, pendingUntil: Option<int>, since: nat, requests: map<nat, Pc>, placed: nat)

  /** `lucky` is the dice, `possible` whether a test can be made; an answer ends the outstanding
      test, and time passes. */
  datatype Step =
    | Begin(id: nat)
    | Proceed(id: nat, lucky: bool, possible: bool)
    | Answer
    | Pass(elapsed: nat)

  predicate Enabled(s: State, step: Step) {
    match step
    case Begin(id) => id !in s.requests
    case Proceed(id, _, _) => id in s.requests
    case _ => true
  }

  predicate Pending(s: State) {
    s.pendingUntil.Some? && s.now < s.pendingUntil.value
  }

  /** EXISTS; INCR and the dice; the post and its placement; the mark; the count restarted. */
  function Proceeded(c: ProbeSettings, s: State, id: nat, lucky: bool, possible: bool): State
    requires id in s.requests
  {
    var t := s.(requests := s.requests[id := NextPc(c, s, s.requests[id], lucky, possible)]);
    match s.requests[id]
    case Counting => t.(since := s.since + 1)
    case Placing => if possible then t.(placed := s.placed + 1) else t
    case Marking => t.(pendingUntil := Some(s.now + c.pendingTtl))
    case Clearing => t.(since := 0)
    case _ => t
  }

  function NextPc(c: ProbeSettings, s: State, pc: Pc, lucky: bool, possible: bool): Pc {
    match pc
    case Checking => if !c.enabled || Pending(s) then Done else Counting
    case Counting => if s.since + 1 < c.gap || !lucky then Done else Placing
    case Placing => if possible then Marking else Done
    case Marking => Clearing
    case _ => Done
  }

  function After(c: ProbeSettings, s: State, step: Step): State
    requires Enabled(s, step)
  {
    match step
    case Begin(id) => s.(requests := s.requests[id := Checking])
    case Proceed(id, lucky, possible) => Proceeded(c, s, id, lucky, possible)
    case Answer => s.(pendingUntil := None)
    case Pass(d) => s.(now := s.now + d)
  }

  ghost predicate Leads(c: ProbeSettings, s: State, steps: seq<Step>, t: State)
    decreases |steps|
  {
    if steps == [] then s == t
    else Enabled(s, steps[0]) && Leads(c, After(c, s, steps[0]), steps[1..], t)
  }

  // ----- one request at a time -----

  function KeysOf(s: State, recent: seq<Code>): Keys {
    Keys(s.pendingUntil, s.since, recent)
  }

  /** `n` commands of one request in a row. */
  function Onwards(c: ProbeSettings, s: State, id: nat, lucky: bool, possible: bool, n: nat): State
    requires id in s.requests
    decreases n
  {
    if n == 0 then s else Onwards(c, Proceeded(c, s, id, lucky, possible), id, lucky, possible, n - 1)
  }

  lemma {:induction false} OnwardsLeads(c: ProbeSettings, s: State, id: nat, lucky: bool, possible: bool, n: nat) returns (steps: seq<Step>)
    requires id in s.requests
    ensures Leads(c, s, steps, Onwards(c, s, id, lucky, possible, n))
    decreases n
  {
    if n == 0 {
      steps := [];
    } else {
      var step := Proceed(id, lucky, possible);
      var rest := OnwardsLeads(c, After(c, s, step), id, lucky, possible, n - 1);
      steps := [step] + rest;
      assert steps[1..] == rest;
    }
  }

  /** A request that nothing interrupts does to the keys what the roll after one review does to
      them there, and places a test exactly when that makes one; so does an answer. */
  lemma AloneIsOneReview(c: ProbeSettings, s: State, id: nat, lucky: bool, code: Option<Code>, recent: seq<Code>)
    returns (steps: seq<Step>, t: State)
    requires id !in s.requests
    ensures Leads(c, s, steps, t) && t.requests == s.requests[id := Done] && t.now == s.now
    ensures
      var k, e := KeysOf(s, recent), Event.Review(s.now, lucky, code);
      && t.pendingUntil == Next(c, k, e).pendingUntil && t.since == Next(c, k, e).since
      && t.placed == s.placed + if Mints(c, k, e) then 1 else 0
    ensures KeysOf(After(c, s, Step.Answer), recent) == Next(c, KeysOf(s, recent), Event.Answer(s.now))
  {
    var begun := After(c, s, Begin(id));
    var rest := OnwardsLeads(c, begun, id, lucky, code.Some?, 5);
    steps, t := [Begin(id)] + rest, Onwards(c, begun, id, lucky, code.Some?, 5);
    assert steps[1..] == rest;
    FiveCommands(c, begun, id, lucky, code.Some?);
  }

  lemma FiveCommands(c: ProbeSettings, s: State, id: nat, lucky: bool, possible: bool)
    requires id in s.requests && s.requests[id] == Checking
    ensures
      var wins := c.enabled && !Pending(s) && s.since + 1 >= c.gap && lucky;
      var t := Onwards(c, s, id, lucky, possible, 5);
      && t.requests == s.requests[id := Done] && t.now == s.now
      && t.placed == s.placed + (if wins && possible then 1 else 0)
      && t.pendingUntil == (if wins && possible then Some(s.now + c.pendingTtl) else s.pendingUntil)
      && t.since == if wins && possible then 0 else if c.enabled && !Pending(s) then s.since + 1 else s.since
  {
    var a := Proceeded(c, s, id, lucky, possible);
    var b := Proceeded(c, a, id, lucky, possible);
    var d := Proceeded(c, b, id, lucky, possible);
    var e := Proceeded(c, d, id, lucky, possible);
    var f := Proceeded(c, e, id, lucky, possible);
    assert Onwards(c, f, id, lucky, possible, 0) == f;
    assert Onwards(c, e, id, lucky, possible, 1) == f;
    assert Onwards(c, d, id, lucky, possible, 2) == f;
    assert Onwards(c, b, id, lucky, possible, 3) == f;
    assert Onwards(c, a, id, lucky, possible, 4) == f;
  }

  // ----- how many tests can be out at once -----

  /** Past the look for an outstanding test, with its own test still to place. */
  predicate Ahead(pc: Pc) {
    pc.Counting? || pc.Placing?
  }

  function Passed(s: State): set<nat> {
    set id | id in s.requests && Ahead(s.requests[id])
  }

  lemma {:induction false} NowOnlyGrows(c: ProbeSettings, s: State, steps: seq<Step>, t: State)
    requires Leads(c, s, steps, t)
    ensures s.now <= t.now
    decreases |steps|
  {
    if steps != [] {
      NowOnlyGrows(c, After(c, s, steps[0]), steps[1..], t);
    }
  }

  /** One command while a test is outstanding: nobody new gets past the look, and a test placed
      uses up one of those who had. */
  lemma StepUsesUp(c: ProbeSettings, s: State, step: Step)
    requires Enabled(s, step) && Pending(s)
    ensures After(c, s, step).placed + |Passed(After(c, s, step))| <= s.placed + |Passed(s)|
  {
    var t := After(c, s, step);
    if step.Proceed? && Ahead(s.requests[step.id]) && !Ahead(t.requests[step.id]) {
      assert Passed(t) == Passed(s) - {step.id};
    } else {
      assert Passed(t) == Passed(s);
    }
  }

  /** The mark lasts as long as a test may block, whoever sets it. */
  lemma StepStaysPending(c: ProbeSettings, s: State, step: Step, until: int)
    requires Enabled(s, step) && !step.Answer? && s.pendingUntil.Some? && until <= s.pendingUntil.value && until <= s.now + c.pendingTtl
    ensures
      var t := After(c, s, step);
      t.pendingUntil.Some? && until <= t.pendingUntil.value && until <= t.now + c.pendingTtl
  {
  }

  ghost predicate NoAnswer(steps: seq<Step>) {
    forall step :: step in steps ==> !step.Answer?
  }

  /** However many requests of a reader overlap: while a test is outstanding and unanswered no more
      tests are placed than requests had got past the look for one before. */
  lemma {:induction false} TestsWithinOverlap(c: ProbeSettings, s: State, steps: seq<Step>, t: State, until: int)
    requires Leads(c, s, steps, t) && NoAnswer(steps) && t.now < until
    requires s.pendingUntil.Some? && until <= s.pendingUntil.value && until <= s.now + c.pendingTtl
    ensures t.placed <= s.placed + |Passed(s)|
    decreases |steps|
  {
    if steps != [] {
      assert steps[0] in steps && forall step :: step in steps[1..] ==> step in steps;
      NowOnlyGrows(c, s, steps, t);
      StepUsesUp(c, s, steps[0]);
      StepStaysPending(c, s, steps[0], until);
      TestsWithinOverlap(c, After(c, s, steps[0]), steps[1..], t, until);
    }
  }

  /** So with none past it there is no second test until the first is answered or expires. */
  lemma NoSecondTest(c: ProbeSettings, s: State, steps: seq<Step>, t: State, until: int)
    requires Leads(c, s, steps, t) && NoAnswer(steps) && t.now < until && Passed(s) == {}
    requires s.pendingUntil.Some? && until <= s.pendingUntil.value && until <= s.now + c.pendingTtl
    ensures t.placed <= s.placed
  {
    TestsWithinOverlap(c, s, steps, t, until);
  }

  // ----- the bound is reached -----

  lemma {:induction false} LeadsOn(c: ProbeSettings, s: State, steps: seq<Step>, t: State, step: Step)
    requires Leads(c, s, steps, t) && Enabled(t, step)
    ensures Leads(c, s, steps + [step], After(c, t, step))
    decreases |steps|
  {
    if steps == [] {
      assert Leads(c, After(c, t, step), [step][1..], After(c, t, step));
      assert [] + [step] == [step];
    } else {
      LeadsOn(c, After(c, s, steps[0]), steps[1..], t, step);
      assert (steps + [step])[1..] == steps[1..] + [step];
    }
  }

  /** Requests 0 up to `n` are about to place a test, and nobody has yet. */
  ghost predicate Poised(t: State, n: nat) {
    && t.placed == 0 && t.pendingUntil.None? && t.now == 0
    && (forall id :: id in t.requests <==> 0 <= id < n) && (forall id :: id in t.requests ==> t.requests[id] == Placing)
  }

  lemma {:induction false} PoiseAll(c: ProbeSettings, n: nat) returns (s: State, steps: seq<Step>, t: State)
    requires c.enabled
    ensures s.placed == 0 && s.pendingUntil == None && s.requests == map[] && Leads(c, s, steps, t)
    ensures Poised(t, n) && t.since >= c.gap && NoAnswer(steps)
  {
    if n == 0 {
      s := State(0, None, c.gap, map[], 0);
      steps, t := [], s;
    } else {
      var rest, u;
      s, rest, u := PoiseAll(c, n - 1);
      LeadsOn(c, s, rest, u, Begin(n - 1));
      var v := After(c, u, Begin(n - 1));
      LeadsOn(c, s, rest + [Begin(n - 1)], v, Proceed(n - 1, true, true));
      var w := After(c, v, Proceed(n - 1, true, true));
      steps := rest + [Begin(n - 1)] + [Proceed(n - 1, true, true)];
      LeadsOn(c, s, steps, w, Proceed(n - 1, true, true));
      t := After(c, w, Proceed(n - 1, true, true));
      steps := steps + [Proceed(n - 1, true, true)];
    }
  }

  /** Requests 0 up to `done` have placed theirs; the others are still to. */
  ghost predicate Placed(t: State, n: nat, done: nat) {
    && done <= n && t.placed == done
    && (forall id :: id in t.requests <==> 0 <= id < n)
    && (forall id :: id in t.requests ==> t.requests[id] == if id < done then Marking else Placing)
  }

  lemma {:induction false} PlaceAll(c: ProbeSettings, s: State, run: seq<Step>, t: State, n: nat, done: nat) returns (steps: seq<Step>, u: State)
    requires Leads(c, s, run, t) && Placed(t, n, done) && NoAnswer(run)
    ensures Leads(c, s, steps, u) && u.placed == n && NoAnswer(steps)
    decreases n - done
  {
    if done == n {
      steps, u := run, t;
    } else {
      var step := Proceed(done, true, true);
      LeadsOn(c, s, run, t, step);
      assert After(c, t, step).placed == done + 1;
      steps, u := PlaceAll(c, s, run + [step], After(c, t, step), n, done + 1);
    }
  }

  /** For every number of overlapping requests some run of them, started with no test out and none
      answered, gives the reader that many tests at once. */
  lemma OverlapGivesAsManyTests(c: ProbeSettings, n: nat) returns (s: State, steps: seq<Step>, t: State)
    requires c.enabled
    ensures s.placed == 0 && s.pendingUntil == None && s.requests == map[]
    ensures Leads(c, s, steps, t) && NoAnswer(steps) && t.placed == n
  {
    var run, u;
    s, run, u := PoiseAll(c, n);
    steps, t := PlaceAll(c, s, run, u, n, 0);
  }
}
