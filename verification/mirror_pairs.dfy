/** A subscription that overlaps another request of the same reader: exactly when the memberships
    are the mirror of the tables once both are through, and runs after which they are not. */
module MirrorPairs {
  import opened FeedTypes
  import opened MirrorRace

  // ----- against an unsubscription from the same channel -----

  /** Along the run the subscription writes its sets after the unsubscription cleared them. */
  ghost predicate JoinsLast(content: set<Language>, s: State, steps: seq<Step>, joiner: nat, leaver: nat)
    decreases |steps|
  {
    steps != [] && Enabled(content, s, steps[0]) && joiner in s.requests && leaver in s.requests &&
    ((steps[0] == Proceed(joiner) && s.requests[joiner].Joining? && s.requests[leaver].Done?)
     || JoinsLast(content, After(content, s, steps[0]), steps[1..], joiner, leaver))
  }

  predicate JoinerOf(pc: Pc, ch: ChannelId, known: set<Language>) {
    match pc
    case Subscribing(x, l) => x == ch && l == known
    case Inserting(x, l, _) => x == ch && l == known
    case Joining(x, l) => x == ch && l == known
    case Done => true
    case _ => false
  }

  predicate LeaverOf(pc: Pc, ch: ChannelId) {
    match pc
    case Unsubscribing(x) => x == ch
    case Deleting(x, _) => x == ch
    case Leaving(x) => x == ch
    case Done => true
    case _ => false
  }

  predicate Own(s: State, k: AudienceKey) {
    k.Slice? ==> k.language in s.languages
  }

  /** Right in other channels; in this one all or nothing, by who wrote last, once both or one
      have written. */
  predicate HalfRight(s: State, ch: ChannelId, joiner: Pc, leaver: Pc, joinedLast: bool, k: AudienceKey) {
    if k.channel != ch then Right(s, k)
    else
      && (k in s.members ==> Own(s, k))
      && (joiner.Done? && (!leaver.Done? || joinedLast) && Own(s, k) ==> k in s.members)
      && (leaver.Done? && (!joiner.Done? || !joinedLast) ==> k !in s.members)
  }

  ghost predicate Opposed(content: set<Language>, s: State, ch: ChannelId, joiner: nat, leaver: nat, joinedLast: bool) {
    && joiner != leaver && joiner in s.requests && leaver in s.requests && s.languages <= content
    && JoinerOf(s.requests[joiner], ch, s.languages) && LeaverOf(s.requests[leaver], ch)
    && (joinedLast ==> s.requests[joiner].Done? && s.requests[leaver].Done?)
    && forall k: AudienceKey :: HalfRight(s, ch, s.requests[joiner], s.requests[leaver], joinedLast, k)
  }

  lemma JoinerOpposed(content: set<Language>, s: State, ch: ChannelId, joiner: nat, leaver: nat, joinedLast: bool)
    requires Opposed(content, s, ch, joiner, leaver, joinedLast)
    ensures Opposed(content, After(content, s, Proceed(joiner)), ch, joiner, leaver,
                    joinedLast || (s.requests[joiner].Joining? && s.requests[leaver].Done?))
  {
    var t, pc := After(content, s, Proceed(joiner)), s.requests[joiner];
    var last := joinedLast || (pc.Joining? && s.requests[leaver].Done?);
    forall k: AudienceKey ensures HalfRight(t, ch, t.requests[joiner], t.requests[leaver], last, k) {
      assert HalfRight(s, ch, pc, s.requests[leaver], joinedLast, k);
      if pc.Joining? {
        SliceIn(ch, pc.known, k);
      }
    }
  }

  lemma LeaverOpposed(content: set<Language>, s: State, ch: ChannelId, joiner: nat, leaver: nat, joinedLast: bool)
    requires Opposed(content, s, ch, joiner, leaver, joinedLast)
    ensures Opposed(content, After(content, s, Proceed(leaver)), ch, joiner, leaver, joinedLast)
  {
    var t, pc := After(content, s, Proceed(leaver)), s.requests[leaver];
    forall k: AudienceKey ensures HalfRight(t, ch, t.requests[joiner], t.requests[leaver], joinedLast, k) {
      assert HalfRight(s, ch, s.requests[joiner], pc, joinedLast, k);
      SliceIn(ch, content, k);
    }
  }

  lemma {:induction false} OpposedEnds(content: set<Language>, s: State, steps: seq<Step>, t: State, ch: ChannelId,
                                       joiner: nat, leaver: nat, joinedLast: bool)
    requires Opposed(content, s, ch, joiner, leaver, joinedLast) && Leads(content, s, steps, t)
    requires forall step :: step in steps ==> OfPair(step, joiner, leaver)
    ensures joiner in t.requests && leaver in t.requests
    ensures t.requests[joiner].Done? && t.requests[leaver].Done? ==>
              (Mirrored(t) <==> (ch in t.subs <==> joinedLast || JoinsLast(content, s, steps, joiner, leaver)))
    decreases |steps|
  {
    if steps == [] {
      if s.requests[joiner].Done? && s.requests[leaver].Done? {
        OpposedMirror(content, s, ch, joiner, leaver, joinedLast);
      }
    } else {
      assert steps[0] in steps && forall step :: step in steps[1..] ==> step in steps;
      var last := joinedLast || (steps[0] == Proceed(joiner) && s.requests[joiner].Joining? && s.requests[leaver].Done?);
      if steps[0] == Proceed(joiner) {
        JoinerOpposed(content, s, ch, joiner, leaver, joinedLast);
      } else {
        LeaverOpposed(content, s, ch, joiner, leaver, joinedLast);
      }
      OpposedEnds(content, After(content, s, steps[0]), steps[1..], t, ch, joiner, leaver, last);
    }
  }

  lemma OpposedMirror(content: set<Language>, s: State, ch: ChannelId, joiner: nat, leaver: nat, joinedLast: bool)
    requires Opposed(content, s, ch, joiner, leaver, joinedLast) && s.requests[joiner].Done? && s.requests[leaver].Done?
    ensures Mirrored(s) <==> (ch in s.subs <==> joinedLast)
  {
    forall k: AudienceKey ensures k.channel != ch ==> Right(s, k)
      ensures k.channel == ch ==> (Right(s, k) <==> (Own(s, k) ==> (ch in s.subs <==> joinedLast)))
    {
      assert HalfRight(s, ch, s.requests[joiner], s.requests[leaver], joinedLast, k);
    }
    assert Own(s, Everyone(ch)) && (Right(s, Everyone(ch)) <==> (ch in s.subs <==> joinedLast));
  }

  /** A reader at rest subscribes to a channel and unsubscribes from it at once. In whatever order
      the commands of the two come, when both are through the memberships are the mirror if and
      only if the one that wrote the sets last is the one the table agrees with. */
  lemma SubscribeAgainstUnsubscribe(content: set<Language>, s: State, steps: seq<Step>, t: State, ch: ChannelId,
                                    joiner: nat, leaver: nat)
    requires joiner != leaver && s.requests == map[joiner := Subscribing(ch, s.languages), leaver := Unsubscribing(ch)]
    requires s.languages <= content && Mirrored(s)
    requires Leads(content, s, steps, t) && (forall step :: step in steps ==> OfPair(step, joiner, leaver)) && Idle(t)
    ensures Mirrored(t) <==> (ch in t.subs <==> JoinsLast(content, s, steps, joiner, leaver))
  {
    forall k: AudienceKey ensures HalfRight(s, ch, s.requests[joiner], s.requests[leaver], false, k) {
      assert Right(s, k);
    }
    OpposedEnds(content, s, steps, t, ch, joiner, leaver, false);
  }

  // ----- against a choice of languages -----

  /** Along the run the choice of languages rewrites a list that names the channel, while the
      subscription has or has not written its sets. */
  ghost predicate RewritesIt(content: set<Language>, s: State, steps: seq<Step>, ch: ChannelId, joiner: nat, chooser: nat, joined: bool)
    decreases |steps|
  {
    steps != [] && Enabled(content, s, steps[0]) && joiner in s.requests && chooser in s.requests &&
    ((steps[0] == Proceed(chooser) && Listed(s.requests[chooser], ch) && s.requests[joiner].Done? == joined)
     || RewritesIt(content, After(content, s, steps[0]), steps[1..], ch, joiner, chooser, joined))
  }

  /** What the two requests are about; `subscribed` says whether the reader was when they began. */
  datatype Choice = Choice(ch: ChannelId, known: set<Language>, wanted: set<Language>, subscribed: bool)

  predicate ChooserOf(pc: Pc, x: Choice) {
    match pc
    case Choosing(wanted, known) => wanted == x.wanted && known == x.known
    case Gathering(wanted) => wanted == x.wanted
    case Rewriting(wanted, _) => wanted == x.wanted
    case Done => true
    case _ => false
  }

  /** Which slices of the channel the reader is in, by how far the two are and how it was
      rewritten: after the subscription wrote (`late`), before that (`early`), or not at all. */
  predicate SliceShape(x: Choice, joined: bool, chosen: bool, early: bool, late: bool, l: Language) {
    if !chosen then (x.subscribed || joined) && l in x.known
    else if late then l in x.wanted
    else if early then l in x.wanted || (joined && l in x.known)
    else joined && l in x.known
  }

  predicate ChoosingRight(content: set<Language>, s: State, x: Choice, joiner: Pc, chooser: Pc, early: bool, late: bool, k: AudienceKey) {
    if k.channel == x.ch then
      if k.Slice? then k in s.members <==> SliceShape(x, joiner.Done?, chooser.Done?, early, late, k.language)
      else k in s.members <==> x.subscribed || joiner.Done?
    else if chooser.Gathering? || chooser.Rewriting? then RightButSlices(content, s, k)
    else Right(s, k)
  }

  predicate Rows(s: State, x: Choice, joiner: Pc, chooser: Pc) {
    && (x.subscribed || joiner.Joining? || joiner.Done? ==> x.ch in s.subs)
    && (joiner.Inserting? ==> joiner.absent == (x.ch !in s.subs))
    && (joiner.Subscribing? || joiner.Inserting? ==> (x.ch in s.subs ==> x.subscribed))
    && s.languages == (if chooser.Choosing? then x.known else x.wanted)
    && (chooser.Rewriting? ==> chooser.channels <= s.subs <= chooser.channels + {x.ch} && (x.subscribed ==> x.ch in chooser.channels))
  }

  ghost predicate Mixed(content: set<Language>, s: State, x: Choice, joiner: nat, chooser: nat, early: bool, late: bool) {
    && joiner != chooser && joiner in s.requests && chooser in s.requests && x.known <= content && x.wanted <= content
    && JoinerOf(s.requests[joiner], x.ch, x.known) && ChooserOf(s.requests[chooser], x)
    && Rows(s, x, s.requests[joiner], s.requests[chooser])
    && (early || late ==> s.requests[chooser].Done?) && !(early && late)
    && (late ==> s.requests[joiner].Done?) && (s.requests[chooser].Done? && x.subscribed ==> early || late)
    && forall k: AudienceKey :: ChoosingRight(content, s, x, s.requests[joiner], s.requests[chooser], early, late, k)
  }

  lemma JoinerMixes(content: set<Language>, s: State, x: Choice, joiner: nat, chooser: nat, early: bool, late: bool)
    requires Mixed(content, s, x, joiner, chooser, early, late)
    ensures Mixed(content, After(content, s, Proceed(joiner)), x, joiner, chooser, early, late)
  {
    var t, pc := After(content, s, Proceed(joiner)), s.requests[joiner];
    forall k: AudienceKey ensures ChoosingRight(content, t, x, t.requests[joiner], t.requests[chooser], early, late, k) {
      assert ChoosingRight(content, s, x, pc, s.requests[chooser], early, late, k);
      if pc.Joining? {
        SliceIn(x.ch, pc.known, k);
      }
    }
  }

  lemma ChooserMixes(content: set<Language>, s: State, x: Choice, joiner: nat, chooser: nat, early: bool, late: bool)
    requires Mixed(content, s, x, joiner, chooser, early, late)
    ensures
      var listed := Listed(s.requests[chooser], x.ch);
      Mixed(content, After(content, s, Proceed(chooser)), x, joiner, chooser,
            early || (listed && !s.requests[joiner].Done?), late || (listed && s.requests[joiner].Done?))
  {
    var t, pc := After(content, s, Proceed(chooser)), s.requests[chooser];
    var listed := Listed(pc, x.ch);
    var early', late' := early || (listed && !s.requests[joiner].Done?), late || (listed && s.requests[joiner].Done?);
    forall k: AudienceKey ensures ChoosingRight(content, t, x, t.requests[joiner], t.requests[chooser], early', late', k) {
      assert ChoosingRight(content, s, x, s.requests[joiner], pc, early, late, k);
      if pc.Rewriting? {
        RewrittenAt(s.members, content, pc.wanted, pc.channels, k);
      }
    }
  }

  /** With both through, whether it went well. */
  predicate Well(x: Choice, early: bool, late: bool) {
    x.wanted == x.known || late || (early && x.known <= x.wanted)
  }

  lemma MixedMirror(content: set<Language>, s: State, x: Choice, joiner: nat, chooser: nat, early: bool, late: bool)
    requires Mixed(content, s, x, joiner, chooser, early, late) && s.requests[joiner].Done? && s.requests[chooser].Done?
    ensures Mirrored(s) <==> Well(x, early, late)
  {
    forall k: AudienceKey
      ensures !(k.Slice? && k.channel == x.ch) ==> Right(s, k)
      ensures k.Slice? && k.channel == x.ch ==> (Right(s, k) <==> (SliceShape(x, true, true, early, late, k.language) <==> k.language in x.wanted))
    {
      assert ChoosingRight(content, s, x, s.requests[joiner], s.requests[chooser], early, late, k);
    }
    if !Well(x, early, late) {
      var l :| SliceShape(x, true, true, early, late, l) != (l in x.wanted);
      assert !Right(s, Slice(x.ch, l));
    }
  }

  lemma {:induction false} MixedEnds(content: set<Language>, s: State, steps: seq<Step>, t: State, x: Choice,
                                     joiner: nat, chooser: nat, early: bool, late: bool)
    requires Mixed(content, s, x, joiner, chooser, early, late) && Leads(content, s, steps, t)
    requires forall step :: step in steps ==> OfPair(step, joiner, chooser)
    ensures joiner in t.requests && chooser in t.requests
    ensures t.requests[joiner].Done? && t.requests[chooser].Done? ==>
              (Mirrored(t) <==> Well(x, early || RewritesIt(content, s, steps, x.ch, joiner, chooser, false),
                                     late || RewritesIt(content, s, steps, x.ch, joiner, chooser, true)))
    decreases |steps|
  {
    if steps == [] {
      if s.requests[joiner].Done? && s.requests[chooser].Done? {
        MixedMirror(content, s, x, joiner, chooser, early, late);
      }
    } else {
      assert steps[0] in steps && forall step :: step in steps[1..] ==> step in steps;
      var u := After(content, s, steps[0]);
      if steps[0] == Proceed(joiner) {
        JoinerMixes(content, s, x, joiner, chooser, early, late);
        MixedEnds(content, u, steps[1..], t, x, joiner, chooser, early, late);
      } else {
        var listed := Listed(s.requests[chooser], x.ch);
        ChooserMixes(content, s, x, joiner, chooser, early, late);
        MixedEnds(content, u, steps[1..], t, x, joiner, chooser,
                  early || (listed && !s.requests[joiner].Done?), late || (listed && s.requests[joiner].Done?));
      }
    }
  }

  /** A reader at rest subscribes to a channel and chooses languages at once. In whatever order the
      commands come, when both are through the memberships are the mirror if and only if nothing
      was to change, or the choice rewrote the channel after the subscription wrote its sets, or
      it did so before and gave up none of the languages the subscription knew. */
  lemma SubscribeAgainstLanguages(content: set<Language>, s: State, steps: seq<Step>, t: State, ch: ChannelId,
                                  wanted: set<Language>, joiner: nat, chooser: nat)
    requires joiner != chooser && s.requests == map[joiner := Subscribing(ch, s.languages), chooser := Choosing(wanted, s.languages)]
    requires s.languages <= content && wanted <= content && Mirrored(s)
    requires Leads(content, s, steps, t) && (forall step :: step in steps ==> OfPair(step, joiner, chooser)) && Idle(t)
    ensures Mirrored(t) <==>
              || wanted == s.languages
              || RewritesIt(content, s, steps, ch, joiner, chooser, true)
              || (RewritesIt(content, s, steps, ch, joiner, chooser, false) && s.languages <= wanted)
  {
    var x := Choice(ch, s.languages, wanted, ch in s.subs);
    forall k: AudienceKey ensures ChoosingRight(content, s, x, s.requests[joiner], s.requests[chooser], false, false, k) {
      assert Right(s, k);
    }
    MixedEnds(content, s, steps, t, x, joiner, chooser, false, false);
  }

  // ----- runs that go wrong -----

  function TwoPcs(p: Pc, q: Pc): map<nat, Pc> {
    map[0 := p, 1 := q]
  }

  lemma OneStep(content: set<Language>, s: State, id: nat, rest: seq<Step>, u: State, t: State) returns (steps: seq<Step>)
    requires id in s.requests && After(content, s, Proceed(id)) == u && Leads(content, u, rest, t)
    ensures steps == [Proceed(id)] + rest && Leads(content, s, steps, t)
  {
    steps := [Proceed(id)] + rest;
    assert steps[1..] == rest;
    LeadsBack(content, s, steps, u, t);
  }

  lemma JoinsInto(ch: ChannelId, l: Language)
    ensures {} + {Everyone(ch)} + Slices(ch, {l}) == {Everyone(ch), Slice(ch, l)}
    ensures {} - {Everyone(ch)} - Slices(ch, {l}) == {}
  {
    SliceIn(ch, {l}, Slice(ch, l));
  }

  /** A subscription's row is deleted and its sets cleared before the subscription writes them:
      the reader is in every set of a channel they are not subscribed to. */
  lemma JoinsAChannelLeft(ch: ChannelId, l: Language) returns (s: State, steps: seq<Step>, t: State)
    ensures Mirrored(s) && s.requests == TwoPcs(Subscribing(ch, s.languages), Unsubscribing(ch))
    ensures Leads({l}, s, steps, t) && Idle(t) && ch !in t.subs && Everyone(ch) in t.members && !Mirrored(t)
  {
    s := State({}, {l}, {}, TwoPcs(Subscribing(ch, {l}), Unsubscribing(ch)));
    var s1 := s.(requests := TwoPcs(Inserting(ch, {l}, true), Unsubscribing(ch)));
    var s2 := State({ch}, {l}, {}, TwoPcs(Joining(ch, {l}), Unsubscribing(ch)));
    var s3 := s2.(requests := TwoPcs(Joining(ch, {l}), Deleting(ch, true)));
    var s4 := State({}, {l}, {}, TwoPcs(Joining(ch, {l}), Leaving(ch)));
    var s5 := s4.(requests := TwoPcs(Joining(ch, {l}), Done));
    t := State({}, {l}, {Everyone(ch), Slice(ch, l)}, TwoPcs(Done, Done));
    JoinsInto(ch, l);
    steps := OneStep({l}, s5, 0, [], t, t);
    steps := OneStep({l}, s4, 1, steps, s5, t);
    steps := OneStep({l}, s3, 1, steps, s4, t);
    steps := OneStep({l}, s2, 1, steps, s3, t);
    steps := OneStep({l}, s1, 0, steps, s2, t);
    steps := OneStep({l}, s, 0, steps, s1, t);
    assert !Right(t, Everyone(ch));
  }

  lemma RewritesToOther(ch: ChannelId, a: Language, b: Language)
    requires a != b
    ensures Rewritten({}, {a, b}, {b}, {ch}) == {Slice(ch, b)}
    ensures {Slice(ch, b)} + {Everyone(ch)} + Slices(ch, {a}) == {Everyone(ch), Slice(ch, a), Slice(ch, b)}
  {
    SliceIn(ch, {a}, Slice(ch, a));
    forall k: AudienceKey ensures k in Rewritten({}, {a, b}, {b}, {ch}) <==> k == Slice(ch, b) {
      RewrittenAt({}, {a, b}, {b}, {ch}, k);
    }
  }

  /** A subscription loaded before a change of languages writes its sets after it: the reader stays
      in a slice of a language they gave up. */
  lemma OldLanguageStays(ch: ChannelId, a: Language, b: Language) returns (s: State, steps: seq<Step>, t: State)
    requires a != b
    ensures Mirrored(s) && s.requests == TwoPcs(Subscribing(ch, s.languages), Choosing({b}, s.languages))
    ensures Leads({a, b}, s, steps, t) && Idle(t) && t.languages == {b} && Slice(ch, a) in t.members && !Mirrored(t)
  {
    s := State({}, {a}, {}, TwoPcs(Subscribing(ch, {a}), Choosing({b}, {a})));
    var s1 := s.(requests := TwoPcs(Inserting(ch, {a}, true), Choosing({b}, {a})));
    var s2 := State({ch}, {a}, {}, TwoPcs(Joining(ch, {a}), Choosing({b}, {a})));
    var s3 := State({ch}, {b}, {}, TwoPcs(Joining(ch, {a}), Gathering({b})));
    var s4 := s3.(requests := TwoPcs(Joining(ch, {a}), Rewriting({b}, {ch})));
    var s5 := State({ch}, {b}, {Slice(ch, b)}, TwoPcs(Joining(ch, {a}), Done));
    t := State({ch}, {b}, {Everyone(ch), Slice(ch, a), Slice(ch, b)}, TwoPcs(Done, Done));
    RewritesToOther(ch, a, b);
    steps := OneStep({a, b}, s5, 0, [], t, t);
    steps := OneStep({a, b}, s4, 1, steps, s5, t);
    steps := OneStep({a, b}, s3, 1, steps, s4, t);
    steps := OneStep({a, b}, s2, 1, steps, s3, t);
    steps := OneStep({a, b}, s1, 0, steps, s2, t);
    steps := OneStep({a, b}, s, 0, steps, s1, t);
    assert b != a && !(a in t.languages) && !Right(t, Slice(ch, a));
  }
}
