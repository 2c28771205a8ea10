/** One reader's requests command by command: each commits a change of the tables and only then
    writes the reader's audience memberships, from what it read before. Any number of the
    reader's requests overlap, and a request may die in between; requests of different readers
    touch different memberships and cannot interfere. */
module MirrorRace {
  import opened FeedTypes

  /** The next command of a request; `known` is what the reader's row said when it was loaded. */
  datatype Pc =
    | Subscribing(ch: ChannelId, known: set<Language>)
    | Inserting(ch: ChannelId, known: set<Language>, absent: bool)
    | Joining(ch: ChannelId, known: set<Language>)
    | Unsubscribing(ch: ChannelId)
    | Deleting(ch: ChannelId, present: bool)
    | Leaving(ch: ChannelId)
    | Choosing(wanted: set<Language>, known: set<Language>)
    | Gathering(wanted: set<Language>)
    | Rewriting(wanted: set<Language>, channels: set<ChannelId>)
    | Done

  /** The reader's rows, the audience sets they are in, and their requests. */
  datatype State = State(subs: set<ChannelId>, languages: set<Language>, members: set<AudienceKey>, requests: map<nat, Pc>)

  datatype Opening = Subscribe(ch: ChannelId) | Unsubscribe(ch: ChannelId) | SetLanguages(wanted: set<Language>)

  datatype Step = Begin(id: nat, opening: Opening) | Proceed(id: nat) | Die(id: nat)

  /** Whether the tables call for this membership. */
  predicate Due(s: State, k: AudienceKey) {
    k.channel in s.subs && (k.Slice? ==> k.language in s.languages)
  }

  predicate Right(s: State, k: AudienceKey) {
    k in s.members <==> Due(s, k)
  }

  ghost predicate Mirrored(s: State) {
    forall k: AudienceKey :: Right(s, k)
  }

  function Opened(s: State, o: Opening): Pc {
    match o
    case Subscribe(ch) => Subscribing(ch, s.languages)
    case Unsubscribe(ch) => Unsubscribing(ch)
    case SetLanguages(wanted) => Choosing(wanted, s.languages)
  }

  function Slices(ch: ChannelId, languages: set<Language>): set<AudienceKey> {
    set l | l in languages :: Slice(ch, l)
  }

  /** The slices of some channels are rewritten to the wanted languages. */
  function Rewritten(members: set<AudienceKey>, content: set<Language>, wanted: set<Language>, channels: set<ChannelId>): set<AudienceKey> {
    (set k | k in members && !(k.Slice? && k.channel in channels && k.language in content))
    + set ch, l | ch in channels && l in content && l in wanted :: Slice(ch, l)
  }

  /** The effect of a command; `content` are the configured languages. */
  function Advanced(content: set<Language>, s: State, pc: Pc): State {
    match pc
    case Inserting(ch, _, absent) => if absent then s.(subs := s.subs + {ch}) else s
    case Joining(ch, known) => s.(members := s.members + {Everyone(ch)} + Slices(ch, known))
    case Deleting(ch, present) => if present then s.(subs := s.subs - {ch}) else s
    case Leaving(ch) => s.(members := s.members - {Everyone(ch)} - Slices(ch, content))
    case Choosing(wanted, known) => if wanted != known then s.(languages := wanted) else s
    case Rewriting(wanted, channels) => s.(members := Rewritten(s.members, content, wanted, channels))
    case _ => s
  }

  function NextPc(s: State, pc: Pc): Pc {
    match pc
    case Subscribing(ch, known) => Inserting(ch, known, ch !in s.subs)
    case Inserting(ch, known, _) => Joining(ch, known)
    case Unsubscribing(ch) => Deleting(ch, ch in s.subs)
    case Deleting(ch, _) => Leaving(ch)
    case Choosing(wanted, _) => Gathering(wanted)
    case Gathering(wanted) => Rewriting(wanted, s.subs)
    case _ => Done
  }

  predicate Enabled(content: set<Language>, s: State, step: Step) {
    match step
    case Begin(id, o) => id !in s.requests && (o.SetLanguages? ==> o.wanted != {} && o.wanted <= content)
    case Proceed(id) => id in s.requests
    case Die(id) => id in s.requests
  }

  function After(content: set<Language>, s: State, step: Step): (t: State)
    requires Enabled(content, s, step)
    ensures step.Proceed? ==> t.requests == s.requests[step.id := NextPc(s, s.requests[step.id])]
  {
    match step
    case Begin(id, o) => s.(requests := s.requests[id := Opened(s, o)])
    case Proceed(id) => Advanced(content, s, s.requests[id]).(requests := s.requests[id := NextPc(s, s.requests[id])])
    case Die(id) => s.(requests := s.requests[id := Done])
  }

  predicate Idle(s: State) {
    forall id :: id in s.requests ==> s.requests[id].Done?
  }

  ghost predicate Leads(content: set<Language>, s: State, steps: seq<Step>, t: State)
    decreases |steps|
  {
    if steps == [] then s == t
    else Enabled(content, s, steps[0]) && Leads(content, After(content, s, steps[0]), steps[1..], t)
  }

  // ----- pointwise effects -----

  lemma RewrittenAt(members: set<AudienceKey>, content: set<Language>, wanted: set<Language>, channels: set<ChannelId>, k: AudienceKey)
    ensures k in Rewritten(members, content, wanted, channels) <==>
              if k.Slice? && k.channel in channels && k.language in content then k.language in wanted else k in members
  {
  }

  lemma SliceIn(ch: ChannelId, languages: set<Language>, k: AudienceKey)
    ensures k in Slices(ch, languages) <==> k.Slice? && k.channel == ch && k.language in languages
  {
  }

  // ----- requests that do not overlap -----

  /** What one request at a time finds: the mirror, but for what it has committed itself and not
      written yet. */
  predicate RightFor(content: set<Language>, s: State, pc: Pc, k: AudienceKey) {
    match pc
    case Joining(ch, known) =>
      ch in s.subs && known == s.languages && (k in s.members ==> Due(s, k)) && (k.channel != ch ==> Right(s, k))
    case Leaving(ch) =>
      ch !in s.subs && (k.channel != ch ==> Right(s, k)) && (k in s.members && k.Slice? ==> k.language in content)
    case Gathering(wanted) =>
      wanted == s.languages && RightButSlices(content, s, k)
    case Rewriting(wanted, channels) =>
      wanted == s.languages && channels == s.subs && RightButSlices(content, s, k)
    case Subscribing(_, known) => known == s.languages && Right(s, k)
    case Inserting(ch, known, absent) => known == s.languages && absent == (ch !in s.subs) && Right(s, k)
    case Deleting(ch, present) => present == (ch in s.subs) && Right(s, k)
    case Choosing(wanted, known) => known == s.languages && wanted != {} && wanted <= content && Right(s, k)
    case _ => Right(s, k)
  }

  /** Right, or a slice of a channel the reader is subscribed to. */
  predicate RightButSlices(content: set<Language>, s: State, k: AudienceKey) {
    if k.Slice? && k.channel in s.subs then k in s.members ==> k.language in content else Right(s, k)
  }

  predicate Exclusive(s: State) {
    forall i, j :: i in s.requests && j in s.requests && !s.requests[i].Done? && !s.requests[j].Done? ==> i == j
  }

  ghost predicate InStep(content: set<Language>, s: State) {
    && s.languages <= content && Exclusive(s)
    && (Idle(s) ==> Mirrored(s))
    && (forall id, k: AudienceKey :: id in s.requests && !s.requests[id].Done? ==> RightFor(content, s, s.requests[id], k))
  }

  lemma AdvanceInStep(content: set<Language>, s: State, pc: Pc, k: AudienceKey)
    requires s.languages <= content && !pc.Done? && forall j: AudienceKey :: RightFor(content, s, pc, j)
    ensures
      var t := Advanced(content, s, pc);
      t.languages <= content && RightFor(content, t, NextPc(s, pc), k)
  {
    assert RightFor(content, s, pc, k);
    if pc.Joining? {
      SliceIn(pc.ch, pc.known, k);
    } else if pc.Leaving? {
      SliceIn(pc.ch, content, k);
    } else if pc.Rewriting? {
      RewrittenAt(s.members, content, pc.wanted, pc.channels, k);
    }
  }

  lemma ProceedInStep(content: set<Language>, s: State, id: nat)
    requires InStep(content, s) && id in s.requests && !s.requests[id].Done?
    ensures InStep(content, After(content, s, Proceed(id)))
  {
    var t := After(content, s, Proceed(id));
    forall k: AudienceKey ensures RightFor(content, t, t.requests[id], k) {
      AdvanceInStep(content, s, s.requests[id], k);
      SameRightFor(content, Advanced(content, s, s.requests[id]), t, t.requests[id], k);
    }
    AdvanceInStep(content, s, s.requests[id], Everyone(0));
    if Idle(t) {
      assert t.requests[id].Done?;
      forall k: AudienceKey ensures Right(t, k) {
        assert RightFor(content, t, t.requests[id], k);
      }
    }
  }

  lemma SameRightFor(content: set<Language>, s: State, t: State, pc: Pc, k: AudienceKey)
    requires t.subs == s.subs && t.languages == s.languages && t.members == s.members
    ensures RightFor(content, s, pc, k) <==> RightFor(content, t, pc, k)
  {
  }

  /** Along the run a request of the reader begins only when none is under way, and none dies. */
  ghost predicate OneAtATime(content: set<Language>, s: State, steps: seq<Step>)
    decreases |steps|
  {
    steps != [] ==>
      && Enabled(content, s, steps[0]) && !steps[0].Die?
      && (steps[0].Begin? ==> Idle(s))
      && OneAtATime(content, After(content, s, steps[0]), steps[1..])
  }

  lemma StepInStep(content: set<Language>, s: State, step: Step)
    requires InStep(content, s) && Enabled(content, s, step) && !step.Die? && (step.Begin? ==> Idle(s))
    ensures InStep(content, After(content, s, step))
  {
    var t := After(content, s, step);
    match step
    case Begin(id, o) =>
      forall k: AudienceKey ensures RightFor(content, t, t.requests[id], k) {
        assert Right(s, k);
      }
      assert !t.requests[id].Done?;
    case Proceed(id) =>
      if s.requests[id].Done? {
        assert t == s;
      } else {
        ProceedInStep(content, s, id);
      }
  }

  lemma {:induction false} RunInStep(content: set<Language>, s: State, steps: seq<Step>, t: State)
    requires InStep(content, s) && Leads(content, s, steps, t) && OneAtATime(content, s, steps)
    ensures InStep(content, t)
    decreases |steps|
  {
    if steps != [] {
      StepInStep(content, s, steps[0]);
      RunInStep(content, After(content, s, steps[0]), steps[1..], t);
    }
  }

  /** Requests of one reader that do not overlap leave the memberships the mirror of the tables
      whenever none is under way, whatever they are and in whatever order they come. */
  lemma MirrorHoldsAtRest(content: set<Language>, s: State, steps: seq<Step>, t: State)
    requires Idle(s) && Mirrored(s) && s.languages <= content
    requires Leads(content, s, steps, t) && OneAtATime(content, s, steps)
    ensures Idle(t) ==> Mirrored(t)
  {
    RunInStep(content, s, steps, t);
  }

  // ----- repair -----

  /** A request for languages, from loading the row to writing the memberships, on its own. */
  function SetAlone(content: set<Language>, s: State, wanted: set<Language>): State {
    var committed := Advanced(content, s, Choosing(wanted, s.languages));
    Advanced(content, committed, Rewriting(wanted, committed.subs))
  }

  /** Setting the languages repairs a reader's memberships exactly when all that was wrong was in
      slices of channels they are subscribed to: it does not touch a channel's own set, nor any
      set of a channel they have left. */
  lemma SetRepairsExactly(content: set<Language>, s: State, wanted: set<Language>)
    requires wanted <= content && forall k :: k in s.members && k.Slice? ==> k.language in content
    ensures Mirrored(SetAlone(content, s, wanted)) <==>
              forall k: AudienceKey :: !(k.Slice? && k.channel in s.subs) ==> Right(s, k)
  {
    var t := SetAlone(content, s, wanted);
    forall k: AudienceKey
      ensures Right(t, k) <==> (k.Slice? && k.channel in s.subs) || Right(s, k)
    {
      RewrittenAt(s.members, content, wanted, s.subs, k);
    }
  }

  // ----- an unsubscription against a choice of languages -----

  predicate Listed(pc: Pc, ch: ChannelId) {
    pc.Rewriting? && ch in pc.channels
  }

  /** Along the run the unsubscription clears its sets while the other request is about to
      rewrite a list of channels that still names the one left. */
  ghost predicate ClearsTooSoon(content: set<Language>, s: State, steps: seq<Step>, leaver: nat, chooser: nat)
    decreases |steps|
  {
    steps != [] && Enabled(content, s, steps[0]) && chooser in s.requests &&
    ((steps[0] == Proceed(leaver) && s.requests[leaver].Leaving? && Listed(s.requests[chooser], s.requests[leaver].ch))
     || ClearsTooSoon(content, After(content, s, steps[0]), steps[1..], leaver, chooser))
  }

  /** How far the two are right, wherever each has got to. */
  predicate PairRight(content: set<Language>, s: State, ch: ChannelId, leaver: Pc, chooser: Pc, k: AudienceKey) {
    && (k in s.members && k.Slice? ==> k.language in content)
    && (leaver.Unsubscribing? ==> ch in s.subs)
    && (leaver.Deleting? ==> leaver.present && ch in s.subs)
    && (leaver.Leaving? || leaver.Done? ==> ch !in s.subs)
    && (chooser.Choosing? ==> chooser.known == s.languages)
    && (chooser.Gathering? || chooser.Rewriting? ==> chooser.wanted == s.languages)
    && (chooser.Rewriting? ==> s.subs <= chooser.channels <= s.subs + {ch})
    && (if k.channel == ch && leaver.Leaving? then true
        else if chooser.Gathering? || chooser.Rewriting? then RightButSlices(content, s, k)
        else Right(s, k))
  }

  ghost predicate Pair(content: set<Language>, s: State, ch: ChannelId, leaver: nat, chooser: nat) {
    && leaver != chooser && leaver in s.requests && chooser in s.requests
    && s.languages != {} && s.languages <= content
    && (match s.requests[leaver] case Unsubscribing(c) => c == ch case Deleting(c, _) => c == ch case Leaving(c) => c == ch case Done => true case _ => false)
    && (match s.requests[chooser]
        case Choosing(wanted, _) => wanted != {} && wanted <= content
        case Gathering(_) => true case Rewriting(_, _) => true case Done => true case _ => false)
    && !(s.requests[leaver].Done? && Listed(s.requests[chooser], ch))
    && forall k: AudienceKey :: PairRight(content, s, ch, s.requests[leaver], s.requests[chooser], k)
  }

  predicate OfPair(step: Step, leaver: nat, chooser: nat) {
    step == Proceed(leaver) || step == Proceed(chooser)
  }

  lemma LeaverPairs(content: set<Language>, s: State, ch: ChannelId, leaver: nat, chooser: nat)
    requires Pair(content, s, ch, leaver, chooser)
    requires !(s.requests[leaver].Leaving? && Listed(s.requests[chooser], ch))
    ensures Pair(content, After(content, s, Proceed(leaver)), ch, leaver, chooser)
  {
    var t := After(content, s, Proceed(leaver));
    forall k: AudienceKey ensures PairRight(content, t, ch, t.requests[leaver], t.requests[chooser], k) {
      assert PairRight(content, s, ch, s.requests[leaver], s.requests[chooser], k);
      SliceIn(ch, content, k);
    }
  }

  lemma ChooserPairs(content: set<Language>, s: State, ch: ChannelId, leaver: nat, chooser: nat)
    requires Pair(content, s, ch, leaver, chooser)
    ensures Pair(content, After(content, s, Proceed(chooser)), ch, leaver, chooser)
  {
    var pc, t := s.requests[chooser], After(content, s, Proceed(chooser));
    assert PairRight(content, s, ch, s.requests[leaver], pc, Everyone(ch));
    forall k: AudienceKey ensures PairRight(content, t, ch, t.requests[leaver], t.requests[chooser], k) {
      assert PairRight(content, s, ch, s.requests[leaver], pc, k);
      if pc.Rewriting? {
        RewrittenAt(s.members, content, pc.wanted, pc.channels, k);
      }
    }
  }

  /** The state in which it has gone wrong: cleared, and about to be written again. */
  predicate Doomed(content: set<Language>, s: State, ch: ChannelId, leaver: nat, chooser: nat) {
    && leaver != chooser && leaver in s.requests && chooser in s.requests
    && s.requests[leaver].Done? && ch !in s.subs
    && if s.requests[chooser].Rewriting? then ch in s.requests[chooser].channels && exists l :: l in s.requests[chooser].wanted && l in content
       else s.requests[chooser].Done? && exists l :: l in content && Slice(ch, l) in s.members
  }

  lemma DoomedStays(content: set<Language>, s: State, ch: ChannelId, leaver: nat, chooser: nat, step: Step)
    requires Doomed(content, s, ch, leaver, chooser) && OfPair(step, leaver, chooser)
    ensures Doomed(content, After(content, s, step), ch, leaver, chooser)
  {
    var pc := s.requests[chooser];
    if step == Proceed(chooser) && pc.Rewriting? {
      var l :| l in pc.wanted && l in content;
      RewrittenAt(s.members, content, pc.wanted, pc.channels, Slice(ch, l));
    }
  }

  lemma {:induction false} DoomedEnds(content: set<Language>, s: State, steps: seq<Step>, t: State, ch: ChannelId, leaver: nat, chooser: nat)
    requires Doomed(content, s, ch, leaver, chooser) && Leads(content, s, steps, t)
    requires forall step :: step in steps ==> OfPair(step, leaver, chooser)
    ensures leaver in t.requests && chooser in t.requests
    ensures t.requests[leaver].Done? && t.requests[chooser].Done? ==> !Mirrored(t)
    decreases |steps|
  {
    if steps == [] {
      if s.requests[chooser].Done? {
        var l :| l in content && Slice(ch, l) in s.members;
        assert !Right(s, Slice(ch, l));
      }
    } else {
      assert steps[0] in steps;
      DoomedStays(content, s, ch, leaver, chooser, steps[0]);
      DoomedEnds(content, After(content, s, steps[0]), steps[1..], t, ch, leaver, chooser);
    }
  }

  lemma ClearingDooms(content: set<Language>, s: State, ch: ChannelId, leaver: nat, chooser: nat)
    requires Pair(content, s, ch, leaver, chooser) && s.requests[leaver].Leaving? && Listed(s.requests[chooser], ch)
    ensures Doomed(content, After(content, s, Proceed(leaver)), ch, leaver, chooser)
  {
    assert PairRight(content, s, ch, s.requests[leaver], s.requests[chooser], Everyone(ch));
    var l :| l in s.languages;
    assert l in s.requests[chooser].wanted && l in content;
  }

  lemma {:induction false} PairEnds(content: set<Language>, s: State, steps: seq<Step>, t: State, ch: ChannelId, leaver: nat, chooser: nat)
    requires Pair(content, s, ch, leaver, chooser) && Leads(content, s, steps, t)
    requires forall step :: step in steps ==> OfPair(step, leaver, chooser)
    ensures leaver in t.requests && chooser in t.requests
    ensures t.requests[leaver].Done? && t.requests[chooser].Done? ==>
              (Mirrored(t) <==> !ClearsTooSoon(content, s, steps, leaver, chooser))
    decreases |steps|
  {
    if steps == [] {
      forall k: AudienceKey | s.requests[leaver].Done? && s.requests[chooser].Done? ensures Right(s, k) {
        assert PairRight(content, s, ch, s.requests[leaver], s.requests[chooser], k);
      }
    } else {
      var u := After(content, s, steps[0]);
      assert steps[0] in steps && forall step :: step in steps[1..] ==> step in steps;
      if steps[0] == Proceed(leaver) && s.requests[leaver].Leaving? && Listed(s.requests[chooser], ch) {
        ClearingDooms(content, s, ch, leaver, chooser);
        DoomedEnds(content, u, steps[1..], t, ch, leaver, chooser);
      } else {
        if steps[0] == Proceed(leaver) {
          LeaverPairs(content, s, ch, leaver, chooser);
        } else {
          ChooserPairs(content, s, ch, leaver, chooser);
        }
        PairEnds(content, u, steps[1..], t, ch, leaver, chooser);
      }
    }
  }

  /** A reader at rest unsubscribes from a channel and chooses languages at once. In whatever order
      the commands of the two come, when both are through the memberships are the mirror again if
      and only if the channel's sets were not cleared while the other request was about to rewrite
      a list that still named it. */
  lemma UnsubscribeAgainstLanguages(content: set<Language>, s: State, steps: seq<Step>, t: State, ch: ChannelId,
                                    wanted: set<Language>, leaver: nat, chooser: nat)
    requires leaver != chooser && s.requests == map[leaver := Unsubscribing(ch), chooser := Choosing(wanted, s.languages)]
    requires s.languages != {} && s.languages <= content && wanted != {} && wanted <= content
    requires ch in s.subs && Mirrored(s)
    requires Leads(content, s, steps, t) && (forall step :: step in steps ==> OfPair(step, leaver, chooser)) && Idle(t)
    ensures Mirrored(t) <==> !ClearsTooSoon(content, s, steps, leaver, chooser)
  {
    forall k: AudienceKey ensures PairRight(content, s, ch, s.requests[leaver], s.requests[chooser], k) {
      assert Right(s, k);
    }
    PairEnds(content, s, steps, t, ch, leaver, chooser);
  }

  lemma ClearedAndPutBack(ch: ChannelId, l: Language)
    ensures {Everyone(ch), Slice(ch, l)} - {Everyone(ch)} - Slices(ch, {l}) == {}
    ensures Rewritten({}, {l}, {l}, {ch}) == {Slice(ch, l)}
  {
    SliceIn(ch, {l}, Slice(ch, l));
    forall k: AudienceKey ensures k in Rewritten({}, {l}, {l}, {ch}) <==> k == Slice(ch, l) {
      RewrittenAt({}, {l}, {l}, {ch}, k);
    }
  }

  /** The reader leaves the channel while the other request holds a list that names it. */
  lemma LeavesListed(ch: ChannelId, l: Language, s: State) returns (steps: seq<Step>, t: State)
    requires s == State({ch}, {l}, {Everyone(ch), Slice(ch, l)}, map[0 := Unsubscribing(ch), 1 := Rewriting({l}, {ch})])
    ensures Leads({l}, s, steps, t) && t == State({}, {l}, {Slice(ch, l)}, map[0 := Done, 1 := Done])
  {
    steps := [Proceed(0), Proceed(0), Proceed(0), Proceed(1)];
    var s0 := s.(requests := map[0 := Deleting(ch, true), 1 := Rewriting({l}, {ch})]);
    var s1 := State({}, {l}, s.members, map[0 := Leaving(ch), 1 := Rewriting({l}, {ch})]);
    var s2 := State({}, {l}, {}, map[0 := Done, 1 := Rewriting({l}, {ch})]);
    t := State({}, {l}, {Slice(ch, l)}, map[0 := Done, 1 := Done]);
    ClearedAndPutBack(ch, l);
    assert After({l}, s2, Proceed(1)) == t && steps[3..][1..] == [];
    LeadsBack({l}, s2, steps[3..], t, t);
    assert After({l}, s1, Proceed(0)) == s2;
    LeadsBack({l}, s1, steps[2..], s2, t);
    assert After({l}, s0, Proceed(0)) == s1;
    LeadsBack({l}, s0, steps[1..], s1, t);
    assert After({l}, s, Proceed(0)) == s0;
    LeadsBack({l}, s, steps, s0, t);
  }

  /** And such a run exists: both requests are loaded, the languages are committed and the
      channels listed, the reader leaves one of them for good, and the rewrite puts them back
      into its slices. */
  lemma LeftChannelComesBack(ch: ChannelId, l: Language) returns (s: State, steps: seq<Step>, t: State)
    ensures Mirrored(s) && s.requests == map[0 := Unsubscribing(ch), 1 := Choosing({l}, s.languages)]
    ensures Leads({l}, s, steps, t) && Idle(t)
    ensures ch !in t.subs && Slice(ch, l) in t.members && !Mirrored(t)
  {
    s := State({ch}, {l}, {Everyone(ch), Slice(ch, l)}, map[0 := Unsubscribing(ch), 1 := Choosing({l}, {l})]);
    var s1 := s.(requests := map[0 := Unsubscribing(ch), 1 := Gathering({l})]);
    var s2 := s.(requests := map[0 := Unsubscribing(ch), 1 := Rewriting({l}, {ch})]);
    var rest;
    rest, t := LeavesListed(ch, l, s2);
    assert After({l}, s1, Proceed(1)) == s2 && ([Proceed(1)] + rest)[1..] == rest;
    LeadsBack({l}, s1, [Proceed(1)] + rest, s2, t);
    steps := [Proceed(1)] + ([Proceed(1)] + rest);
    assert After({l}, s, Proceed(1)) == s1 && steps[1..] == [Proceed(1)] + rest;
    LeadsBack({l}, s, steps, s1, t);
    assert !Right(t, Slice(ch, l));
  }

  lemma LeadsBack(content: set<Language>, s: State, steps: seq<Step>, u: State, t: State)
    requires steps != [] && Enabled(content, s, steps[0]) && After(content, s, steps[0]) == u
    requires Leads(content, u, steps[1..], t)
    ensures Leads(content, s, steps, t)
  {
  }
}
