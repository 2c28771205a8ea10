/** A worker pass that nothing interrupts: the commands of the fine machine together do to one
    operation what the coarse model says one call does. */
module WorkerAlone {
  import opened FeedTypes
  import R = Rounding
  import opened FeedScripts
  import opened FeedMachine
  import Runs
  import D = Dispatch
  import F = Fanout

  // ----- one agent's commands in a row -----

  predicate OnlyBy(steps: seq<Step>, a: nat) {
    forall i :: 0 <= i < |steps| ==> steps[i].Proceed? && steps[i].agent == a
  }

  ghost predicate Path(c: Settings, s: State, a: nat, t: State) {
    exists steps: seq<Step> :: Leads(c, s, steps, t) && OnlyBy(steps, a)
  }

  /** `t` is reached from `s` by commands of agent `a` alone; folded, as `Runs.Reached` is. */
  ghost predicate Alone(c: Settings, s: State, a: nat, t: State) {
    forall n: nat :: Runs.Named(n) ==> Path(c, s, a, t)
  }

  lemma IsAlone(c: Settings, s: State, a: nat, t: State)
    ensures Alone(c, s, a, t) <==> Path(c, s, a, t)
  {
    assert Runs.Named(0);
  }

  lemma AloneStays(c: Settings, s: State, a: nat)
    ensures Alone(c, s, a, s)
  {
    assert Leads(c, s, [], s);
    IsAlone(c, s, a, s);
  }

  lemma AloneOnto(c: Settings, s: State, a: nat, drawn: seq<UserId>, t: State)
    requires CanProceed(c, s, a, drawn) && Alone(c, AfterProceed(c, s, a, drawn), a, t)
    ensures Alone(c, s, a, t)
  {
    var step := Proceed(a, drawn);
    IsAlone(c, After(c, s, step), a, t);
    IsAlone(c, s, a, t);
    var steps: seq<Step> :| Leads(c, After(c, s, step), steps, t) && OnlyBy(steps, a);
    assert ([step] + steps)[1..] == steps;
    assert Leads(c, s, [step] + steps, t);
  }

  lemma AloneThen(c: Settings, s: State, a: nat, u: State, t: State)
    requires Alone(c, s, a, u) && Alone(c, u, a, t)
    ensures Alone(c, s, a, t)
  {
    IsAlone(c, s, a, u);
    var steps: seq<Step> :| Leads(c, s, steps, u) && OnlyBy(steps, a);
    AloneAfter(c, s, a, steps, u, t);
  }

  lemma {:induction false} AloneAfter(c: Settings, s: State, a: nat, steps: seq<Step>, u: State, t: State)
    requires Leads(c, s, steps, u) && OnlyBy(steps, a)
    requires Alone(c, u, a, t)
    ensures Alone(c, s, a, t)
    decreases |steps|
  {
    if steps != [] {
      assert steps[0] == Proceed(a, steps[0].drawn);
      AloneAfter(c, After(c, s, steps[0]), a, steps[1..], u, t);
      AloneOnto(c, s, a, steps[0].drawn, t);
    }
  }

  /** One more command of the agent. */
  lemma AloneOnce(c: Settings, s: State, a: nat, u: State, drawn: seq<UserId>) returns (t: State)
    requires Alone(c, s, a, u) && CanProceed(c, u, a, drawn)
    ensures Alone(c, s, a, t) && t == AfterProceed(c, u, a, drawn)
  {
    t := AfterProceed(c, u, a, drawn);
    AloneStays(c, t, a);
    AloneOnto(c, u, a, drawn, t);
    AloneThen(c, s, a, u, t);
  }

  // ----- what the commands of a pass leave alone -----

  /** Agent `a` stands at `stage` of its job; rows, audiences, tombstones and the clock are as in `s`. */
  predicate At(s: State, t: State, a: nat, job: Job, stage: Stage) {
    && a in s.agents && t.agents == s.agents[a := Working(job, stage)]
    && t.posts == s.posts && t.nextPost == s.nextPost && t.now == s.now && t.audience == s.audience && t.tombs == s.tombs
  }

  /** And so are queues, books and counts. */
  predicate Untouched(s: State, t: State) {
    t.feed == s.feed && t.books == s.books && t.outstanding == s.outstanding
  }

  lemma ReadsFirst(c: Settings, u: State, a: nat, job: Job, stage: Stage, drawn: seq<UserId>)
    requires a in u.agents && u.agents[a] == Working(job, stage) && OnlyReads(stage)
    requires stage.Sampling? ==> ValidDraw(c, u, job.copy.op, drawn)
    ensures
      var t := AfterProceed(c, u, a, drawn);
      At(u, t, a, job, StageAfter(c, u, job.copy.op, stage, drawn)) && Untouched(u, t)
  {
  }

  /** What a reading command finds depends on nothing a pass has moved so far. */
  lemma FindsTheSame(c: Settings, s: State, u: State, op: Op, stage: Stage, drawn: seq<UserId>)
    requires u.feed == s.feed && u.audience == s.audience && u.tombs == s.tombs && u.now == s.now
    ensures StageAfter(c, u, op, stage, drawn) == StageAfter(c, s, op, stage, drawn)
    ensures ValidDraw(c, u, op, drawn) == ValidDraw(c, s, op, drawn)
  {
    assert AudienceOf(u, op.route) == AudienceOf(s, op.route);
    assert Remaining(c, u, op) == Remaining(c, s, op) && LookAt(u, op) == LookAt(s, op);
  }

  /** One command that only reads. */
  lemma ReadsOn(c: Settings, s: State, u: State, a: nat, job: Job, stage: Stage, drawn: seq<UserId>) returns (t: State)
    requires At(s, u, a, job, stage) && Untouched(s, u) && Alone(c, s, a, u) && OnlyReads(stage)
    requires stage.Sampling? ==> ValidDraw(c, s, job.copy.op, drawn)
    ensures At(s, t, a, job, StageAfter(c, s, job.copy.op, stage, drawn)) && Untouched(s, t) && Alone(c, s, a, t)
  {
    FindsTheSame(c, s, u, job.copy.op, stage, drawn);
    ReadsFirst(c, u, a, job, stage, drawn);
    t := AloneOnce(c, s, a, u, drawn);
  }

  // ----- selecting -----

  /** Those of a sample who are kept: not the author, free, and new to the post. */
  function Kept(c: Settings, f: Feed, op: Op, drawn: seq<UserId>): seq<UserId> {
    var roomy := Filter(Filter(drawn, AuthorSet(c, op), false), f.free, true);
    if c.excludeSeen then Filter(roomy, SeenOf(f, op.post), false) else roomy
  }

  lemma Selects(c: Settings, s: State, a: nat, job: Job, drawn: seq<UserId>) returns (t: State)
    requires a in s.agents && s.agents[a] == Working(job, CheckingErased) && job.copy.op.post !in s.tombs
    requires ValidDraw(c, s, job.copy.op, drawn)
    ensures Untouched(s, t) && Alone(c, s, a, t)
    ensures At(s, t, a, job, ToPlace(c, s.now, Take(Kept(c, s.feed, job.copy.op, drawn), Reach(c, job.copy.op)), None))
  {
    var op := job.copy.op;
    AloneStays(c, s, a);
    t := ReadsOn(c, s, s, a, job, CheckingErased, []);
    t := ReadsOn(c, s, t, a, job, Sampling, drawn);
    var others := Filter(drawn, AuthorSet(c, op), false);
    if others != [] {
      t := ReadsOn(c, s, t, a, job, FilteringFree(others), []);
      var roomy := Filter(others, s.feed.free, true);
      if roomy != [] && c.excludeSeen {
        t := ReadsOn(c, s, t, a, job, FilteringSeen(roomy), []);
      }
    }
  }

  // ----- placing -----

  /** After `i` placements. */
  predicate PlacedSoFar(c: Settings, s: State, t: State, a: nat, job: Job, chosen: seq<UserId>, i: nat)
    requires i <= |chosen|
  {
    && At(s, t, a, job, ToPlace(c, s.now, chosen[i..], if i == 0 then None else Some(chosen[i - 1])))
    && t.feed == F.PlacedAll(c, s.feed, job.copy.op.post, chosen[..i], s.now + c.seenTtl)
    && t.books == s.books && t.outstanding == s.outstanding
  }

  /** One placement that is not refused. */
  lemma PlacesFirst(c: Settings, u: State, a: nat, job: Job, todo: seq<UserId>, landed: Option<UserId>)
    requires a in u.agents && u.agents[a] == Working(job, Placing(todo, landed)) && todo != []
    requires !Refuses(u.feed, todo[0], job.copy.op.post, c.excludeSeen)
    ensures
      var t := AfterProceed(c, u, a, []);
      && At(u, t, a, job, ToPlace(c, u.now, todo[1..], Some(todo[0]))) && t.books == u.books && t.outstanding == u.outstanding
      && t.feed == Placed(u.feed, todo[0], job.copy.op.post, c.maxSlots, c.excludeSeen, u.now + c.seenTtl)
  {
  }

  lemma PlacedOneMore(c: Settings, s: State, u: State, t: State, a: nat, job: Job, chosen: seq<UserId>, i: nat)
    requires i < |chosen| && Distinct(chosen) && F.NewTo(c, s.feed, job.copy.op.post, chosen)
    requires PlacedSoFar(c, s, u, a, job, chosen, i)
    requires At(u, t, a, job, ToPlace(c, s.now, chosen[i + 1..], Some(chosen[i]))) && t.books == u.books && t.outstanding == u.outstanding
    requires t.feed == Placed(u.feed, chosen[i], job.copy.op.post, c.maxSlots, c.excludeSeen, s.now + c.seenTtl)
    ensures PlacedSoFar(c, s, t, a, job, chosen, i + 1)
  {
    F.PlacedNext(c, s.feed, job.copy.op.post, chosen, i, s.now + c.seenTtl);
  }

  lemma PlacesOne(c: Settings, s: State, u: State, a: nat, job: Job, chosen: seq<UserId>, i: nat) returns (t: State)
    requires i < |chosen| && Distinct(chosen) && F.NewTo(c, s.feed, job.copy.op.post, chosen)
    requires PlacedSoFar(c, s, u, a, job, chosen, i) && Alone(c, s, a, u)
    ensures PlacedSoFar(c, s, t, a, job, chosen, i + 1) && Alone(c, s, a, t)
  {
    var todo, landed := chosen[i..], if i == 0 then None else Some(chosen[i - 1]);
    assert todo != [] && todo[0] == chosen[i] && todo[1..] == chosen[i + 1..];
    F.PlacedNext(c, s.feed, job.copy.op.post, chosen, i, s.now + c.seenTtl);
    PlacesFirst(c, u, a, job, todo, landed);
    t := AloneOnce(c, s, a, u, []);
    PlacedOneMore(c, s, u, t, a, job, chosen, i);
  }

  lemma PlacesAll(c: Settings, s: State, u: State, a: nat, job: Job, chosen: seq<UserId>) returns (t: State)
    requires Distinct(chosen) && F.NewTo(c, s.feed, job.copy.op.post, chosen) && chosen != []
    requires At(s, u, a, job, ToPlace(c, s.now, chosen, None)) && Untouched(s, u) && Alone(c, s, a, u)
    ensures At(s, t, a, job, Retiring(Delivered(chosen[|chosen| - 1]))) && Alone(c, s, a, t)
    ensures t.feed == F.PlacedAll(c, s.feed, job.copy.op.post, chosen, s.now + c.seenTtl)
    ensures t.books == s.books && t.outstanding == s.outstanding
  {
    t := u;
    assert chosen[0..] == chosen && chosen[..0] == [];
    var i := 0;
    while i < |chosen|
      invariant 0 <= i <= |chosen| && PlacedSoFar(c, s, t, a, job, chosen, i) && Alone(c, s, a, t)
    {
      t := PlacesOne(c, s, t, a, job, chosen, i);
      i := i + 1;
    }
    assert chosen[i..] == [] && chosen[..i] == chosen;
  }

  // ----- giving up or parking -----

  /** When nobody could be selected, the audience is measured: the pass ends parked unless everyone
      there is the author or has been served. */
  lemma Measures(c: Settings, s: State, u: State, a: nat, job: Job) returns (t: State)
    requires At(s, u, a, job, NothingLanded(c, s.now)) && Untouched(s, u) && Alone(c, s, a, u)
    ensures Untouched(s, t) && Alone(c, s, a, t)
    ensures
      var op := job.copy.op;
      At(s, t, a, job, if F.Exhausted(c, AudienceOf(s, op.route), SeenOf(s.feed, op.post), op)
                       then Retiring(FeedMachine.Outcome.Exhausted(LookAt(s, op))) else Parking(s.now))
  {
    var op, audience := job.copy.op, AudienceOf(s, job.copy.op.route);
    t := u;
    if c.excludeSeen || c.excludeOwn {
      t := ReadsOn(c, s, t, a, job, SizingAudience, []);
      if |audience| != 0 {
        t := ReadsOn(c, s, t, a, job, SizingSeen(|audience|), []);
        if (if c.excludeSeen then |SeenOf(s.feed, op.post)| else 0) + 1 < |audience| {
          F.GateSound(c, audience, SeenOf(s.feed, op.post), op);
        } else {
          t := ReadsOn(c, s, t, a, job, Diffing, []);
          RemainingIsUncovered(c, s, op);
        }
      }
    }
  }

  lemma RemainingIsUncovered(c: Settings, s: State, op: Op)
    requires AudienceOf(s, op.route) != {}
    ensures Remaining(c, s, op) == {} <==> F.Exhausted(c, AudienceOf(s, op.route), SeenOf(s.feed, op.post), op)
  {
    assert forall u :: u in Remaining(c, s, op) <==>
             u in AudienceOf(s, op.route) && !(u in AuthorSet(c, op) || (c.excludeSeen && u in SeenOf(s.feed, op.post)));
  }

  // ----- closing -----

  /** The entry is deleted and acknowledged, and the next one of the batch taken up. */
  predicate ClosedFrom(c: Settings, s: State, t: State, a: nat, job: Job, feed: Feed, books: Books, counts: map<Route, int>) {
    && a in s.agents && t.agents == s.agents[a := NextJob(job.rest)]
    && t.posts == s.posts && t.nextPost == s.nextPost && t.now == s.now && t.audience == s.audience && t.tombs == s.tombs
    && t.feed == feed && t.outstanding == counts
    && t.books == AckedIn(DeletedIn(books, job.entry), job.entry)
  }

  lemma Closes(c: Settings, s: State, u: State, a: nat, job: Job) returns (t: State)
    requires At(s, u, a, job, Deleting) && Alone(c, s, a, u)
    ensures Alone(c, s, a, t) && ClosedFrom(c, s, t, a, job, u.feed, u.books, u.outstanding)
  {
    var v := AloneOnce(c, s, a, u, []);
    t := AloneOnce(c, s, a, v, []);
  }

  /** An operation that ends: its outcome is recorded and its route's count drops by one, not
      below nothing. */
  lemma EndsWith(c: Settings, s: State, u: State, a: nat, job: Job, outcome: FeedMachine.Outcome) returns (t: State)
    requires At(s, u, a, job, Retiring(outcome)) && Alone(c, s, a, u) && u.books == s.books && u.outstanding == s.outstanding
    ensures Alone(c, s, a, t)
    ensures ClosedFrom(c, s, t, a, job, u.feed, EndedIn(s.books, job.copy.id, outcome), F.Retired(s.outstanding, job.copy.op.route))
  {
    var v := AloneOnce(c, s, a, u, []);
    t := Closes(c, s, v, a, job);
  }

  lemma IsParked(c: Settings, s: State, u: State, a: nat, job: Job) returns (t: State)
    requires At(s, u, a, job, Parking(s.now)) && Alone(c, s, a, u) && Untouched(s, u)
    ensures Alone(c, s, a, t)
    ensures ClosedFrom(c, s, t, a, job, s.feed, ParkedIn(s.books, ParkedCopy(c, job.copy, s.now), s.now + c.retryInterval), s.outstanding)
  {
    var v := AloneOnce(c, s, a, u, []);
    t := Closes(c, s, v, a, job);
  }

  // ----- a whole pass -----

  /** What a pass does to one operation, as the coarse model states it: erased, delivered and
      exhausted ones end, the others wait in the retry set as the coarse model parks them. */
  ghost predicate PassedOver(c: Settings, s: State, t: State, a: nat, job: Job, served: seq<UserId>) {
    var op, audience := job.copy.op, AudienceOf(s, job.copy.op.route);
    var ended := op.post in s.tombs || served != [] || F.Exhausted(c, audience, SeenOf(s.feed, op.post), op);
    && F.DeliveredTo(c, s.feed, t.feed, op.post, served)
    && (ended ==>
          var outcome := if op.post in s.tombs then Erased
                         else if served != [] then Delivered(served[|served| - 1])
                         else FeedMachine.Outcome.Exhausted(LookAt(s, op));
          ClosedFrom(c, s, t, a, job, t.feed, EndedIn(s.books, job.copy.id, outcome), F.Retired(s.outstanding, op.route)))
    && (!ended ==>
          var parked := Copy(job.copy.id, D.ParkedOp(c, op, s.now), job.copy.hops);
          ClosedFrom(c, s, t, a, job, s.feed, ParkedIn(s.books, parked, s.now + c.retryInterval), s.outstanding))
  }

  /** Who a pass serves, as the coarse model states it. */
  predicate ServedFrom(c: Settings, s: State, op: Op, served: seq<UserId>) {
    var eligible := F.Eligible(c, AudienceOf(s, op.route), s.feed, op);
    && Distinct(served) && |served| <= Reach(c, op) && F.Members(served) <= eligible
    && (op.post in s.tombs ==> served == [])
    && (op.post !in s.tombs && |AudienceOf(s, op.route)| <= Reach(c, op) * c.sampleMultiplier ==>
          |served| == R.Min(Reach(c, op), |eligible|))
  }

  lemma SelectedAreServed(c: Settings, s: State, op: Op, drawn: seq<UserId>) returns (served: seq<UserId>)
    requires ValidDraw(c, s, op, drawn) && op.post !in s.tombs
    ensures served == Take(Kept(c, s.feed, op, drawn), Reach(c, op))
    ensures ServedFrom(c, s, op, served) && F.NewTo(c, s.feed, op.post, served)
  {
    var audience := AudienceOf(s, op.route);
    var kept := Kept(c, s.feed, op, drawn);
    served := Take(kept, Reach(c, op));
    assert F.Members(drawn) <= audience;
    F.FiltersKeepEligible(c, audience, s.feed, op, drawn, Filter(Filter(drawn, AuthorSet(c, op), false), s.feed.free, true), kept);
    F.DistinctSize(drawn);
    if |audience| <= Reach(c, op) * c.sampleMultiplier {
      F.EqualBySize(F.Members(drawn), audience);
      F.SelectionExact(c, audience, s.feed, op, drawn, kept);
    }
    assert F.Members(served) <= F.Members(kept);
    F.EligibleNew(c, audience, s.feed, op, served);
  }

  lemma ErasedPass(c: Settings, s: State, a: nat, job: Job) returns (t: State)
    requires a in s.agents && s.agents[a] == Working(job, CheckingErased) && job.copy.op.post in s.tombs
    ensures Alone(c, s, a, t) && PassedOver(c, s, t, a, job, [])
  {
    AloneStays(c, s, a);
    t := ReadsOn(c, s, s, a, job, CheckingErased, []);
    t := EndsWith(c, s, t, a, job, Erased);
    F.DeliveredToNobody(c, s.feed, job.copy.op.post);
  }

  lemma ServingPass(c: Settings, s: State, u: State, a: nat, job: Job, served: seq<UserId>) returns (t: State)
    requires served != [] && Distinct(served) && job.copy.op.post !in s.tombs && F.NewTo(c, s.feed, job.copy.op.post, served)
    requires At(s, u, a, job, ToPlace(c, s.now, served, None)) && Untouched(s, u) && Alone(c, s, a, u)
    ensures Alone(c, s, a, t) && PassedOver(c, s, t, a, job, served)
  {
    F.PlacedAllDelivers(c, s.feed, job.copy.op.post, served, s.now + c.seenTtl);
    t := PlacesAll(c, s, u, a, job, served);
    t := EndsWith(c, s, t, a, job, Delivered(served[|served| - 1]));
  }

  lemma UnservedPass(c: Settings, s: State, u: State, a: nat, job: Job) returns (t: State)
    requires At(s, u, a, job, NothingLanded(c, s.now)) && Untouched(s, u) && Alone(c, s, a, u) && job.copy.op.post !in s.tombs
    ensures Alone(c, s, a, t) && PassedOver(c, s, t, a, job, [])
  {
    var op := job.copy.op;
    F.DeliveredToNobody(c, s.feed, op.post);
    t := Measures(c, s, u, a, job);
    if F.Exhausted(c, AudienceOf(s, op.route), SeenOf(s.feed, op.post), op) {
      t := EndsWith(c, s, t, a, job, FeedMachine.Outcome.Exhausted(LookAt(s, op)));
    } else {
      t := IsParked(c, s, t, a, job);
    }
  }

  /** Run through without interruption, the commands of a worker on one entry serve whom the
      coarse model says and leave what it says, whatever sample is drawn. */
  lemma PassIsOneCall(c: Settings, s: State, a: nat, job: Job, drawn: seq<UserId>) returns (t: State, served: seq<UserId>)
    requires a in s.agents && s.agents[a] == Working(job, CheckingErased) && ValidDraw(c, s, job.copy.op, drawn)
    ensures Alone(c, s, a, t) && ServedFrom(c, s, job.copy.op, served) && PassedOver(c, s, t, a, job, served)
  {
    var op := job.copy.op;
    if op.post in s.tombs {
      served := [];
      t := ErasedPass(c, s, a, job);
    } else {
      served := SelectedAreServed(c, s, op, drawn);
      var u := Selects(c, s, a, job, drawn);
      if served != [] {
        t := ServingPass(c, s, u, a, job, served);
      } else {
        t := UnservedPass(c, s, u, a, job);
      }
    }
  }

  // ----- a walk over due retries -----

  /** Nothing but books, counts and the agent's place differs. */
  predicate WalkedTo(s: State, t: State, a: nat, pc: Pc, books: Books, counts: map<Route, int>) {
    && a in s.agents && t.agents == s.agents[a := pc]
    && t.posts == s.posts && t.nextPost == s.nextPost && t.now == s.now && t.audience == s.audience && t.tombs == s.tombs
    && t.feed == s.feed && t.books == books && t.outstanding == counts
  }

  /** What the coarse model does with one due member: back on the stream if it is in time, ended
      and retired if it is not, and out of the retry set either way. */
  function BooksAfter(c: Settings, at: int, b: Books, m: nat, k: Copy): Books {
    if D.InTime(Waiting(k.op, at), at) then UnparkedIn(Added(b, Copy(k.id, D.AddedBack(c, k.op, at), k.hops + 1)), m)
    else EndedIn(UnparkedIn(b, m), k.id, Overdue(k.op.expires.GetOr(at), at))
  }

  function CountsAfter(at: int, counts: map<Route, int>, k: Copy): map<Route, int> {
    if D.InTime(Waiting(k.op, at), at) then counts else F.Retired(counts, k.op.route)
  }

  lemma AddsBack(c: Settings, u: State, a: nat, at: int, due: seq<(nat, Copy)>)
    requires due != [] && a in u.agents && u.agents[a] == NextWalk(c, at, due) && D.InTime(Waiting(due[0].1.op, at), at)
    ensures CanProceed(c, AfterProceed(c, u, a, []), a, [])
    ensures
      var t := AfterProceed(c, AfterProceed(c, u, a, []), a, []);
      WalkedTo(u, t, a, NextWalk(c, at, due[1..]), BooksAfter(c, at, u.books, due[0].0, due[0].1), u.outstanding)
  {
    var v := AfterProceed(c, u, a, []);
    assert v.agents[a].Walking? && v.agents[a].leg.TakingOut? && v.agents[a].walk.rest == due[1..];
  }

  lemma Drops(c: Settings, u: State, a: nat, at: int, due: seq<(nat, Copy)>)
    requires due != [] && a in u.agents && u.agents[a] == NextWalk(c, at, due) && !D.InTime(Waiting(due[0].1.op, at), at)
    ensures CanProceed(c, AfterProceed(c, u, a, []), a, [])
    ensures
      var t := AfterProceed(c, AfterProceed(c, u, a, []), a, []);
      WalkedTo(u, t, a, NextWalk(c, at, due[1..]), BooksAfter(c, at, u.books, due[0].0, due[0].1),
               F.Retired(u.outstanding, due[0].1.op.route))
  {
    var v := AfterProceed(c, u, a, []);
    assert v.agents[a].Walking? && v.agents[a].leg.RetiringOverdue? && v.agents[a].walk.rest == due[1..];
  }

  lemma WalksOne(c: Settings, s: State, u: State, a: nat, at: int, due: seq<(nat, Copy)>) returns (t: State)
    requires due != [] && Alone(c, s, a, u) && a in u.agents && u.agents[a] == NextWalk(c, at, due)
    ensures Alone(c, s, a, t)
    ensures WalkedTo(u, t, a, NextWalk(c, at, due[1..]), BooksAfter(c, at, u.books, due[0].0, due[0].1),
                     CountsAfter(at, u.outstanding, due[0].1))
  {
    if D.InTime(Waiting(due[0].1.op, at), at) {
      AddsBack(c, u, a, at, due);
    } else {
      Drops(c, u, a, at, due);
    }
    var v := AloneOnce(c, s, a, u, []);
    t := AloneOnce(c, s, a, v, []);
  }

  function AllBooksAfter(c: Settings, at: int, b: Books, due: seq<(nat, Copy)>): Books
    decreases |due|
  {
    if due == [] then b else AllBooksAfter(c, at, BooksAfter(c, at, b, due[0].0, due[0].1), due[1..])
  }

  function AllCountsAfter(at: int, counts: map<Route, int>, due: seq<(nat, Copy)>): map<Route, int>
    decreases |due|
  {
    if due == [] then counts else AllCountsAfter(at, CountsAfter(at, counts, due[0].1), due[1..])
  }

  lemma {:induction false} WalksOn(c: Settings, s: State, u: State, a: nat, at: int, due: seq<(nat, Copy)>) returns (t: State)
    requires Alone(c, s, a, u) && a in u.agents && u.agents[a] == NextWalk(c, at, due)
    ensures Alone(c, s, a, t)
    ensures WalkedTo(u, t, a, Idle, AllBooksAfter(c, at, u.books, due), AllCountsAfter(at, u.outstanding, due))
    decreases |due|
  {
    if due == [] {
      t := u;
      assert u.agents[a := Idle] == u.agents;
    } else {
      var v := WalksOne(c, s, u, a, at, due);
      t := WalksOn(c, s, v, a, at, due[1..]);
      assert v.agents[a := Idle] == u.agents[a := Idle];
    }
  }

  /** Run through without interruption, a walk over due members does with each of them, in order,
      what the coarse model does. */
  lemma WalkIsOneCallEach(c: Settings, s: State, a: nat, due: seq<nat>) returns (t: State)
    requires CanBegin(c, s, a, Scan(due))
    ensures
      var begun, batch := AfterBegin(c, s, a, Scan(due)), DueBatch(s.books.retry, due);
      && Alone(c, begun, a, t)
      && WalkedTo(begun, t, a, Idle, AllBooksAfter(c, s.now, s.books, batch), AllCountsAfter(s.now, s.outstanding, batch))
  {
    var begun := AfterBegin(c, s, a, Scan(due));
    AloneStays(c, begun, a);
    t := WalksOn(c, begun, begun, a, s.now, DueBatch(s.books.retry, due));
  }
}
