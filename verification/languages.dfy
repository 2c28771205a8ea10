/** The language axis: what a reader may accept, in canonical and never-empty form. */
module Languages {
  import opened FeedTypes

  /** The configured content languages: some, each once, without the reserved value. */
  predicate ValidContent(content: seq<Language>) {
    content != [] && Distinct(content) && UNSPECIFIED !in content
  }

  /** The configured languages among `wanted`, in configured order. */
  function Chosen(content: seq<Language>, wanted: set<Language>): seq<Language> {
    if content == [] then []
    else (if content[0] in wanted then [content[0]] else []) + Chosen(content[1..], wanted)
  }

  /** One language: the default locale if it is configured, or the first one that is. */
  function DefaultReading(content: seq<Language>, fallback: Language): seq<Language>
    requires content != []
  {
    if fallback in content then [fallback] else [content[0]]
  }

  function Wanted(values: seq<Language>, normal: Language -> Language): set<Language> {
    set v | v in values && normal(v) != "" :: normal(v)
  }

  /** `normal` trims and lowercases a code; blank codes normalise to the empty string. */
  function Sanitized(content: seq<Language>, values: seq<Language>, normal: Language -> Language, fallback: Language): seq<Language>
    requires content != []
  {
    var cleaned := Chosen(content, Wanted(values, normal));
    if cleaned != [] then cleaned else DefaultReading(content, fallback)
  }

  lemma {:induction false} ChosenIsExact(content: seq<Language>, wanted: set<Language>)
    requires Distinct(content)
    ensures Distinct(Chosen(content, wanted))
    ensures forall l :: l in Chosen(content, wanted) <==> l in content && l in wanted
  {
    if content != [] {
      var rest := content[1..];
      assert content == [content[0]] + rest;
      assert forall i :: 0 <= i < |rest| ==> rest[i] == content[i + 1];
      assert content[0] !in rest;
      ChosenIsExact(rest, wanted);
    }
  }

  /** Sanitising never leaves a reader without a language, repeats or invents none. */
  lemma SanitizedIsUsable(content: seq<Language>, values: seq<Language>, normal: Language -> Language, fallback: Language)
    requires ValidContent(content)
    ensures
      var r := Sanitized(content, values, normal, fallback);
      r != [] && Distinct(r) && forall l :: l in r ==> l in content
  {
    ChosenIsExact(content, Wanted(values, normal));
  }

  /** One who asks for nothing configured reads one language: the default one if it still is. */
  lemma SanitizedFallsBack(content: seq<Language>, values: seq<Language>, normal: Language -> Language, fallback: Language)
    requires ValidContent(content) && forall v :: v in values ==> normal(v) !in content
    ensures fallback in content ==> Sanitized(content, values, normal, fallback) == [fallback]
    ensures fallback !in content ==> Sanitized(content, values, normal, fallback) == content[..1]
  {
    ChosenNone(content, Wanted(values, normal));
  }

  lemma {:induction false} ChosenNone(content: seq<Language>, wanted: set<Language>)
    requires forall l :: l in content ==> l !in wanted
    ensures Chosen(content, wanted) == []
  {
    if content != [] {
      ChosenNone(content[1..], wanted);
    }
  }

  /** It is a canonical form: it depends only on which configured languages were asked for. */
  lemma SanitizedIsCanonical(content: seq<Language>, values: seq<Language>, others: seq<Language>,
                             normal: Language -> Language, fallback: Language)
    requires ValidContent(content)
    requires forall l :: l in content ==> (l in Wanted(values, normal) <==> l in Wanted(others, normal))
    ensures Sanitized(content, values, normal, fallback) == Sanitized(content, others, normal, fallback)
  {
    ChosenAgrees(content, Wanted(values, normal), Wanted(others, normal));
  }

  lemma {:induction false} ChosenAgrees(content: seq<Language>, x: set<Language>, y: set<Language>)
    requires forall l :: l in content ==> (l in x <==> l in y)
    ensures Chosen(content, x) == Chosen(content, y)
  {
    if content != [] {
      ChosenAgrees(content[1..], x, y);
    }
  }

  /** A request for configured languages only is kept as asked, in configured order. */
  lemma SanitizedKeepsRequest(content: seq<Language>, values: seq<Language>, normal: Language -> Language, fallback: Language)
    requires ValidContent(content) && values != []
    requires forall l :: l in content ==> normal(l) == l && l != ""
    requires forall v :: v in values ==> v in content
    ensures forall l :: l in Sanitized(content, values, normal, fallback) <==> l in values
  {
    assert forall l :: l in Wanted(values, normal) <==> l in values;
    ChosenIsExact(content, Wanted(values, normal));
    assert values[0] in Chosen(content, Wanted(values, normal));
  }
}
