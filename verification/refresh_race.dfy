/** Overlapping refreshers: when a published snapshot keeps its whole window, how far apart
    snapshots are and how far the base price moves, and the expiry a quote is told with. */
module RefreshRace {
  import opened FeedTypes
  import opened Pricing
  import opened PriceWindow
  import opened PriceRace
  import R = Rounding

  /** Past the read that made it decide to publish a new snapshot. */
  predicate Refreshing(pc: Pc) {
    pc.Clocking? || pc.Recalling? || pc.Stepping? || pc.Publishing?
  }

  function Refreshers(s: State): set<nat> {
    set id | id in s.requests && Refreshing(s.requests[id].pc)
  }

  predicate Publishes(s: State, step: Step) {
    step.Proceed? && step.id in s.requests && s.requests[step.id].pc.Publishing?
  }

  // ----- how long a snapshot stays published -----

  predicate Rules(s: State, cur: Snapshot) {
    s.snapshot.Some? && s.snapshot.value.value == cur && cur.expiresAt <= s.snapshot.value.until
  }

  /** The step publishes another snapshot. */
  predicate Overrides(s: State, step: Step, cur: Snapshot) {
    Publishes(s, step) && s.requests[step.id].pc.s != cur
  }

  /** Along the run the snapshot is the published one in every state before its expiry. */
  ghost predicate AlwaysRules(c: PriceSettings, s: State, steps: seq<Step>, cur: Snapshot)
    decreases |steps|
  {
    && (s.now < cur.expiresAt ==> Rules(s, cur))
    && (steps != [] ==> Enabled(s, steps[0]) && AlwaysRules(c, AfterStep(c, s, steps[0]), steps[1..], cur))
  }

  /** Along the run none of these requests publishes another snapshot before that expiry. */
  ghost predicate NeverOverridden(c: PriceSettings, s: State, steps: seq<Step>, ids: set<nat>, cur: Snapshot)
    decreases |steps|
  {
    steps != [] ==>
      && Enabled(s, steps[0])
      && !(s.now < cur.expiresAt && Overrides(s, steps[0], cur) && steps[0].id in ids)
      && NeverOverridden(c, AfterStep(c, s, steps[0]), steps[1..], ids, cur)
  }

  /** While a snapshot lasts, nobody new decides to replace it. */
  lemma RulingKeepsRefreshers(c: PriceSettings, s: State, step: Step, cur: Snapshot)
    requires Kept(c, s) && Enabled(s, step) && Rules(s, cur) && s.now < cur.expiresAt
    ensures Refreshers(AfterStep(c, s, step)) <= Refreshers(s)
  {
    var t := AfterStep(c, s, step);
    forall id | id in Refreshers(t) ensures id in Refreshers(s) {
      if step.Proceed? && step.id == id {
        assert PcOk(c, s.now, s.requests[id]);
      }
    }
  }

  lemma OverrideEndsRule(c: PriceSettings, s: State, step: Step, cur: Snapshot)
    requires ValidPrices(c) && Kept(c, s) && Enabled(s, step) && Rules(s, cur) && s.now < cur.expiresAt
    ensures Rules(AfterStep(c, s, step), cur) <==> !Overrides(s, step, cur)
    ensures Overrides(s, step, cur) ==> step.id in Refreshers(s) && AfterStep(c, s, step).now == s.now
  {
    if step.Proceed? {
      assert PcOk(c, s.now, s.requests[step.id]);
    }
  }

  lemma {:induction false} RuleIsOver(c: PriceSettings, s: State, steps: seq<Step>, t: State, ids: set<nat>, cur: Snapshot)
    requires Leads(c, s, steps, t) && s.now >= cur.expiresAt
    ensures AlwaysRules(c, s, steps, cur) && NeverOverridden(c, s, steps, ids, cur)
    decreases |steps|
  {
    if steps != [] {
      RuleIsOver(c, AfterStep(c, s, steps[0]), steps[1..], t, ids, cur);
    }
  }

  lemma {:induction false} RulesUnlessOverridden(c: PriceSettings, s: State, steps: seq<Step>, t: State, ids: set<nat>, cur: Snapshot)
    requires ValidPrices(c) && Kept(c, s) && Leads(c, s, steps, t)
    requires s.now < cur.expiresAt ==> Rules(s, cur) && Refreshers(s) <= ids
    ensures AlwaysRules(c, s, steps, cur) <==> NeverOverridden(c, s, steps, ids, cur)
    decreases |steps|
  {
    if s.now >= cur.expiresAt {
      RuleIsOver(c, s, steps, t, ids, cur);
    } else if steps != [] {
      StepKept(c, s, steps[0]);
      OverrideEndsRule(c, s, steps[0], cur);
      RulingKeepsRefreshers(c, s, steps[0], cur);
      if !Overrides(s, steps[0], cur) {
        RulesUnlessOverridden(c, AfterStep(c, s, steps[0]), steps[1..], t, ids, cur);
      }
    }
  }

  /** However refreshers overlap, a published snapshot keeps its whole window if and only if
      no request that had already decided to refresh publishes another one before its expiry. */
  lemma WindowStands(c: PriceSettings, s: State, steps: seq<Step>, t: State, cur: Snapshot)
    requires ValidPrices(c) && Reachable(c, s) && Leads(c, s, steps, t) && Rules(s, cur)
    ensures AlwaysRules(c, s, steps, cur) <==> NeverOverridden(c, s, steps, Refreshers(s), cur)
  {
    ReachableKept(c, s);
    RulesUnlessOverridden(c, s, steps, t, Refreshers(s), cur);
  }

  // ----- how far apart snapshots are -----

  /** Along the run a snapshot is only ever set while no other request is refreshing. */
  ghost predicate Uncontended(c: PriceSettings, s: State, steps: seq<Step>)
    decreases |steps|
  {
    steps != [] ==>
      && Enabled(s, steps[0])
      && (Publishes(s, steps[0]) ==> Refreshers(s) <= {steps[0].id})
      && Uncontended(c, AfterStep(c, s, steps[0]), steps[1..])
  }

  /** The price a refresh steps from: that of the last snapshot set before its read, if the key
      was alive then, and the minimum otherwise. */
  function BaseOf(c: PriceSettings, published: seq<Publication>, recall: Recall): int
    requires recall.after <= |published|
  {
    if recall.after == 0 then c.min
    else
      var last := published[recall.after - 1];
      if recall.at < last.at + c.ttl then last.snap.price else c.min
  }

  predicate StepsFromBase(c: PriceSettings, published: seq<Publication>, recall: Recall, price: int) {
    recall.after <= |published| && Distance(price - BaseOf(c, published, recall)) <= 1
  }

  // ----- every refresh is one step -----

  predicate PcSteps(c: PriceSettings, published: seq<Publication>, pc: Pc) {
    match pc
    case Stepping(_, last, recall, _) => recall.after <= |published| && last == BaseOf(c, published, recall)
    case Publishing(s, recall, _) => StepsFromBase(c, published, recall, s.price)
    case _ => true
  }

  predicate EachSteps(c: PriceSettings, published: seq<Publication>) {
    forall i :: 0 <= i < |published| ==>
      published[i].recall.after <= i && StepsFromBase(c, published, published[i].recall, published[i].snap.price)
  }

  /** Each promises one refresh interval. */
  predicate Windowed(c: PriceSettings, published: seq<Publication>) {
    forall i :: 0 <= i < |published| ==> published[i].snap.expiresAt == published[i].snap.computedAt + c.refresh
  }

  /** The snapshot key is the last one set. */
  predicate KeyIsLast(c: PriceSettings, s: State) {
    if s.published == [] then s.snapshot.None?
    else
      var last := s.published[|s.published| - 1];
      s.snapshot == Some(Keyed(last.snap, last.at + c.ttl)) && last.at <= s.now
  }

  predicate Stepwise(c: PriceSettings, s: State) {
    KeyIsLast(c, s) && EachSteps(c, s.published) && Windowed(c, s.published) && forall id :: id in s.requests ==> PcSteps(c, s.published, s.requests[id].pc)
  }

  lemma MoreSteps(c: PriceSettings, published: seq<Publication>, p: Publication)
    requires EachSteps(c, published) && StepsFromBase(c, published, p.recall, p.snap.price)
    ensures EachSteps(c, published + [p])
  {
    var more := published + [p];
    forall i | 0 <= i < |more|
      ensures more[i].recall.after <= i && StepsFromBase(c, more, more[i].recall, more[i].snap.price)
    {
      if i < |published| {
        assert StepsFromBase(c, published, published[i].recall, published[i].snap.price);
      }
    }
  }

  lemma NextPcSteps(c: PriceSettings, s: State, q: Request, load: Load)
    requires ValidPrices(c) && KeyIsLast(c, s) && PcOk(c, s.now, q) && PcSteps(c, s.published, q.pc)
    ensures PcSteps(c, s.published, NextPc(c, s, q, load).pc)
  {
    if q.pc.Stepping? {
      PriceMovesByOne(q.pc.last, load.opsLen, load.active, c);
    }
  }

  lemma PcStepsOn(c: PriceSettings, published: seq<Publication>, p: Publication, pc: Pc)
    requires PcSteps(c, published, pc)
    ensures PcSteps(c, published + [p], pc)
  {
  }

  lemma PublishStepwise(c: PriceSettings, s: State, id: nat, load: Load)
    requires Kept(c, s) && Stepwise(c, s) && id in s.requests && s.requests[id].pc.Publishing?
    ensures Stepwise(c, AfterStep(c, s, Proceed(id, load)))
  {
    var t, pc := AfterStep(c, s, Proceed(id, load)), s.requests[id].pc;
    var p := Publication(pc.s, pc.recall, s.now);
    assert PcSteps(c, s.published, pc) && PcOk(c, s.now, s.requests[id]);
    MoreSteps(c, s.published, p);
    forall j | j in t.requests ensures PcSteps(c, t.published, t.requests[j].pc) {
      if j != id {
        PcStepsOn(c, s.published, p, s.requests[j].pc);
      }
    }
  }

  /** A step that sets no snapshot and leaves every refresh with the price it read. */
  lemma SameStepwise(c: PriceSettings, s: State, t: State)
    requires Stepwise(c, s) && t.published == s.published && t.snapshot == s.snapshot && s.now <= t.now
    requires forall id :: id in t.requests ==> PcSteps(c, s.published, t.requests[id].pc)
    ensures Stepwise(c, t)
  {
  }

  lemma ReadStepwise(c: PriceSettings, s: State, id: nat, load: Load)
    requires ValidPrices(c) && Kept(c, s) && Stepwise(c, s) && id in s.requests && !s.requests[id].pc.Publishing?
    ensures Stepwise(c, AfterStep(c, s, Proceed(id, load)))
  {
    var t := AfterStep(c, s, Proceed(id, load));
    NextPcSteps(c, s, s.requests[id], load);
    SameStepwise(c, s, t);
  }

  lemma StepStepwise(c: PriceSettings, s: State, step: Step)
    requires ValidPrices(c) && Kept(c, s) && Stepwise(c, s) && Enabled(s, step)
    ensures Stepwise(c, AfterStep(c, s, step))
  {
    match step
    case Begin(id, o) => SameStepwise(c, s, AfterStep(c, s, step));
    case Pass(elapsed) => SameStepwise(c, s, AfterStep(c, s, step));
    case Proceed(id, load) =>
      if s.requests[id].pc.Publishing? {
        PublishStepwise(c, s, id, load);
      } else {
        ReadStepwise(c, s, id, load);
      }
  }

  lemma {:induction false} RunStepwise(c: PriceSettings, s: State, steps: seq<Step>, t: State)
    requires ValidPrices(c) && Kept(c, s) && Stepwise(c, s) && Leads(c, s, steps, t)
    ensures Stepwise(c, t)
    decreases |steps|
  {
    if steps != [] {
      StepKept(c, s, steps[0]);
      StepStepwise(c, s, steps[0]);
      RunStepwise(c, AfterStep(c, s, steps[0]), steps[1..], t);
    }
  }

  /** However refreshes overlap, every snapshot ever set is one price step from the last one set
      before its refresh read the price, or from the minimum when that key was gone by then. */
  lemma EveryRefreshIsOneStep(c: PriceSettings, t: State, i: nat)
    requires ValidPrices(c) && Reachable(c, t) && i < |t.published|
    ensures t.published[i].recall.after <= i
    ensures Distance(t.published[i].snap.price - BaseOf(c, t.published, t.published[i].recall)) <= 1
  {
    var s, steps :| Init(s) && Leads(c, s, steps, t);
    RunStepwise(c, s, steps, t);
    assert StepsFromBase(c, t.published, t.published[i].recall, t.published[i].snap.price);
  }

  // ----- refreshes that do not overlap -----

  /** A refresh under way read the price of the last snapshot set, and is no earlier than its
      expiry. */
  predicate DueAfter(now: real, published: seq<Publication>, pc: Pc)
    requires published != []
  {
    var cur := published[|published| - 1];
    match pc
    case Clocking(_) => now >= cur.snap.expiresAt
    case Recalling(at, _) => at >= cur.snap.expiresAt
    case Stepping(at, _, recall, _) => at >= cur.snap.expiresAt && recall.after == |published| && cur.at <= recall.at
    case Publishing(s, recall, _) => s.computedAt >= cur.snap.expiresAt && recall.after == |published| && cur.at <= recall.at
    case _ => true
  }

  /** Nothing set yet: a refresh under way has read nothing. */
  predicate First(pc: Pc) {
    match pc
    case Stepping(_, _, recall, _) => recall.after == 0
    case Publishing(_, recall, _) => recall.after == 0
    case _ => true
  }

  /** One snapshot follows another: no earlier than the other expires, and from its price. */
  predicate Follows(c: PriceSettings, published: seq<Publication>, i: nat)
    requires i + 1 < |published|
  {
    var p, q := published[i], published[i + 1];
    q.snap.computedAt >= p.snap.computedAt + c.refresh && q.recall.after == i + 1 && p.at <= q.recall.at <= q.at
  }

  predicate Spaced(c: PriceSettings, published: seq<Publication>) {
    forall i: nat :: i + 1 < |published| ==> Follows(c, published, i)
  }

  predicate InTurn(c: PriceSettings, s: State) {
    && Spaced(c, s.published)
    && forall id :: id in s.requests ==>
         if s.published == [] then First(s.requests[id].pc) else DueAfter(s.now, s.published, s.requests[id].pc)
  }

  lemma NextInTurn(c: PriceSettings, s: State, q: Request, load: Load)
    requires ValidPrices(c) && KeysOk(c, s) && KeyIsLast(c, s) && PcOk(c, s.now, q) && !q.pc.Publishing?
    requires if s.published == [] then First(q.pc) else DueAfter(s.now, s.published, q.pc)
    ensures
      var next := NextPc(c, s, q, load).pc;
      if s.published == [] then First(next) else DueAfter(s.now, s.published, next)
  {
  }

  lemma SpacedOneMore(c: PriceSettings, published: seq<Publication>, p: Publication)
    requires Spaced(c, published)
    requires published != [] ==> Follows(c, published + [p], |published| - 1)
    ensures Spaced(c, published + [p])
  {
    var more := published + [p];
    forall i: nat | i + 1 < |more| ensures Follows(c, more, i) {
      if i + 1 < |published| {
        assert Follows(c, published, i);
      }
    }
  }

  lemma PublishInTurn(c: PriceSettings, s: State, id: nat, load: Load)
    requires ValidPrices(c) && Kept(c, s) && KeyIsLast(c, s) && InTurn(c, s) && id in s.requests && s.requests[id].pc.Publishing?
    requires Refreshers(s) <= {id}
    ensures InTurn(c, AfterStep(c, s, Proceed(id, load)))
  {
    var t, pc := AfterStep(c, s, Proceed(id, load)), s.requests[id].pc;
    assert PcOk(c, s.now, s.requests[id]);
    SpacedOneMore(c, s.published, Publication(pc.s, pc.recall, s.now));
    forall j | j in t.requests ensures DueAfter(t.now, t.published, t.requests[j].pc) {
      if j != id {
        assert j !in Refreshers(s);
      }
    }
  }

  lemma ReadInTurn(c: PriceSettings, s: State, id: nat, load: Load)
    requires ValidPrices(c) && Kept(c, s) && KeyIsLast(c, s) && InTurn(c, s) && id in s.requests && !s.requests[id].pc.Publishing?
    ensures InTurn(c, AfterStep(c, s, Proceed(id, load)))
  {
    assert PcOk(c, s.now, s.requests[id]);
    NextInTurn(c, s, s.requests[id], load);
  }

  lemma StepInTurn(c: PriceSettings, s: State, step: Step)
    requires ValidPrices(c) && Kept(c, s) && KeyIsLast(c, s) && InTurn(c, s) && Enabled(s, step)
    requires Publishes(s, step) ==> Refreshers(s) <= {step.id}
    ensures InTurn(c, AfterStep(c, s, step))
  {
    match step
    case Begin(id, o) =>
    case Proceed(id, load) =>
      if s.requests[id].pc.Publishing? {
        PublishInTurn(c, s, id, load);
      } else {
        ReadInTurn(c, s, id, load);
      }
    case Pass(elapsed) =>
  }

  lemma {:induction false} RunInTurn(c: PriceSettings, s: State, steps: seq<Step>, t: State)
    requires ValidPrices(c) && Kept(c, s) && Stepwise(c, s) && InTurn(c, s) && Leads(c, s, steps, t) && Uncontended(c, s, steps)
    ensures InTurn(c, t) && Stepwise(c, t)
    decreases |steps|
  {
    if steps != [] {
      StepKept(c, s, steps[0]);
      StepStepwise(c, s, steps[0]);
      StepInTurn(c, s, steps[0]);
      RunInTurn(c, AfterStep(c, s, steps[0]), steps[1..], t);
    }
  }

  /** In every run whose refreshes never overlap, successive snapshots are at least one refresh
      interval apart. While the key of one is alive as the next is set the price moves by at most
      one; otherwise it is one step from that price or, if the key was gone when the refresh read
      it, from the minimum. */
  lemma SnapshotsAreApart(c: PriceSettings, s: State, steps: seq<Step>, t: State, i: nat)
    requires ValidPrices(c) && Init(s) && Leads(c, s, steps, t) && Uncontended(c, s, steps)
    requires i + 1 < |t.published|
    ensures
      var p, q := t.published[i], t.published[i + 1];
      && q.snap.computedAt >= p.snap.computedAt + c.refresh
      && p.at <= q.recall.at <= q.at
      && Distance(q.snap.price - if q.recall.at < p.at + c.ttl then p.snap.price else c.min) <= 1
      && (q.at < p.at + c.ttl ==> Distance(q.snap.price - p.snap.price) <= 1)
  {
    RunInTurn(c, s, steps, t);
    assert Follows(c, t.published, i);
    assert StepsFromBase(c, t.published, t.published[i + 1].recall, t.published[i + 1].snap.price);
  }

  lemma DriftAdds(x: int, y: int, z: int, step: real)
    requires Distance(y - x) <= 1 && step >= 0.0
    ensures R.Times(Distance(z - x) as real, step) <= R.Times(Distance(z - y) as real, step) + (if x == y then 0.0 else step)
  {
    var near, far := Distance(z - y), Distance(z - x);
    assert far <= near + (if x == y then 0 else 1);
    R.TimesInOrder(far as real, (near + if x == y then 0 else 1) as real, step, step);
    OneMoreStep(near, step);
  }

  /** So while each snapshot's key is alive as the next is set, the base price drifts at most one
      step per refresh interval. */
  lemma {:induction false} BaseDriftsSlowly(c: PriceSettings, s: State, steps: seq<Step>, t: State, i: nat, j: nat)
    requires ValidPrices(c) && Init(s) && Leads(c, s, steps, t) && Uncontended(c, s, steps)
    requires i <= j < |t.published|
    requires forall k :: i <= k < j ==> t.published[k + 1].at < t.published[k].at + c.ttl
    ensures R.Times(Distance(t.published[j].snap.price - t.published[i].snap.price) as real, c.refresh)
            <= t.published[j].snap.computedAt - t.published[i].snap.computedAt
    decreases j - i
  {
    if i < j {
      SnapshotsAreApart(c, s, steps, t, i);
      BaseDriftsSlowly(c, s, steps, t, i + 1, j);
      DriftAdds(t.published[i].snap.price, t.published[i + 1].snap.price, t.published[j].snap.price, c.refresh);
    }
  }

  // ----- the expiry a quote is told with -----

  lemma {:induction false} PublishedGrows(c: PriceSettings, s: State, steps: seq<Step>, t: State)
    requires Leads(c, s, steps, t)
    ensures s.published <= t.published
    decreases |steps|
  {
    if steps != [] {
      PublishedGrows(c, AfterStep(c, s, steps[0]), steps[1..], t);
    }
  }

  /** What a read of the live snapshot tells is the expiry of the last one set. */
  lemma ToldIsLast(c: PriceSettings, t: State)
    requires ValidPrices(c) && Reachable(c, t) && Alive(t.snapshot, t.now).Some?
    ensures t.published != [] && Alive(t.snapshot, t.now).value == t.published[|t.published| - 1].snap
  {
    var s, steps :| Init(s) && Leads(c, s, steps, t);
    RunStepwise(c, s, steps, t);
  }

  lemma {:induction false} ExpiriesGrow(c: PriceSettings, published: seq<Publication>, i: nat, j: nat)
    requires ValidPrices(c) && Spaced(c, published) && Windowed(c, published) && i < j < |published|
    ensures published[i].snap.expiresAt < published[j].snap.expiresAt
    decreases j - i
  {
    assert Follows(c, published, i);
    if i + 1 < j {
      ExpiriesGrow(c, published, i + 1, j);
    }
  }

  lemma EndInTurn(c: PriceSettings, o: State, steps: seq<Step>, t: State)
    requires ValidPrices(c) && Init(o) && Leads(c, o, steps, t) && Uncontended(c, o, steps)
    ensures KeyIsLast(c, t) && Windowed(c, t.published) && Spaced(c, t.published)
  {
    RunInTurn(c, o, steps, t);
  }

  /** The live snapshot has the expiry of an earlier one only if no other was set since. */
  lemma LastExpiryIsNew(c: PriceSettings, before: seq<Publication>, t: State)
    requires ValidPrices(c) && KeyIsLast(c, t) && Windowed(c, t.published) && Spaced(c, t.published)
    requires before != [] && before <= t.published && Alive(t.snapshot, t.now).Some?
    ensures Alive(t.snapshot, t.now).value.expiresAt == before[|before| - 1].snap.expiresAt <==> t.published == before
  {
    assert before[|before| - 1] == t.published[|before| - 1];
    if |before| < |t.published| {
      ExpiriesGrow(c, t.published, |before| - 1, |t.published| - 1);
    }
  }

  /** A price frozen in the window of the last snapshot set is quoted with the expiry of the
      snapshot read after it. Where refreshes do not overlap, the two are one expiry exactly when
      no snapshot is set between the pricing and that read. */
  lemma QuotedExpiryIsFrozen(c: PriceSettings, o: State, run: seq<Step>, s: State, steps: seq<Step>, t: State)
    requires ValidPrices(c) && Init(o) && Leads(c, o, run, s) && Leads(c, s, steps, t) && Uncontended(c, o, run + steps)
    requires s.published != [] && Alive(t.snapshot, t.now).Some?
    ensures Alive(t.snapshot, t.now).value.expiresAt == s.published[|s.published| - 1].snap.expiresAt <==> t.published == s.published
  {
    ReachesOn(c, o, run, s, steps, t);
    PublishedGrows(c, s, steps, t);
    EndInTurn(c, o, run + steps, t);
    LastExpiryIsNew(c, s.published, t);
  }

  /** And one direction of it however refreshes overlap. */
  lemma QuotedExpiryStands(c: PriceSettings, s: State, steps: seq<Step>, t: State)
    requires ValidPrices(c) && Reachable(c, s) && Leads(c, s, steps, t) && t.published == s.published
    requires Alive(t.snapshot, t.now).Some?
    ensures s.published != [] && Alive(t.snapshot, t.now).value.expiresAt == s.published[|s.published| - 1].snap.expiresAt
  {
    var o, run :| Init(o) && Leads(c, o, run, s);
    ReachesOn(c, o, run, s, steps, t);
    ToldIsLast(c, t);
  }
}
