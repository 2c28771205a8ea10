/** Reviewer Trust: the score, its bands, and the reach of a forward. */
module Trust {
  import opened FeedTypes
  import opened Rounding

  /** The counts over the window, and the deployment's own forward rate when it has one. */
  datatype TrustInputs = TrustInputs(
    probesAnswered: nat, probesCorrect: nat, reviews: nat, forwards: nat,
    pacedReviews: nat, hastyReviews: nat, population: Option<real>)

  datatype TrustSettings = TrustSettings(
    chance: real, confidenceN: int, volumeNeutral: int, volumeFull: int,
    paceTolerance: real, skewTolerance: real, anomalyN: int, weightProbe: real, weightVolume: real,
    lowMax: int, highMin: int, lowMultiplier: real, highMultiplier: real, enabled: bool, fanout: int)

  const NEUTRAL := 0.5

  predicate WellFormed(x: TrustInputs) {
    && x.probesCorrect <= x.probesAnswered && x.forwards <= x.reviews && x.hastyReviews <= x.pacedReviews
    && (x.population.Some? ==> 0.0 <= x.population.value <= 1.0)
  }

  predicate ValidTrust(c: TrustSettings) {
    && c.chance >= 0.0 && c.confidenceN >= 1 && c.anomalyN >= 1
    && c.paceTolerance >= 0.0 && c.skewTolerance >= 0.0
    && c.weightProbe >= 0.0 && c.weightVolume >= 0.0
  }

  function Clamp01(x: real): (r: real)
    ensures 0.0 <= r <= 1.0
  {
    Clamp(0.0, x, 1.0)
  }

  function Shrink(value: real, confidence: real): real {
    var sure := Clamp01(confidence);
    Times(sure, value) + Times(1.0 - sure, NEUTRAL)
  }

  // ----- the components -----

  /** Accuracy rescaled so that chance earns nothing. */
  function Accuracy(correct: nat, answered: nat, chance: real): (r: real)
    requires answered > 0
    ensures 0.0 <= r <= 1.0
    ensures chance >= 1.0 ==> r == 0.0
  {
    if chance < 1.0 then Clamp01((correct as real / answered as real - chance) / (1.0 - chance)) else 0.0
  }

  function ProbeOf(correct: nat, answered: nat, c: TrustSettings): real
    requires c.confidenceN >= 1
  {
    if answered == 0 then NEUTRAL
    else Shrink(Accuracy(correct, answered, c.chance), answered as real / c.confidenceN as real)
  }

  function ProbeComponent(x: TrustInputs, c: TrustSettings): real
    requires c.confidenceN >= 1
  {
    ProbeOf(x.probesCorrect, x.probesAnswered, c)
  }

  function VolumeComponent(x: TrustInputs, c: TrustSettings): (r: real)
    ensures NEUTRAL <= r <= 1.0
  {
    var span := c.volumeFull - c.volumeNeutral;
    if span <= 0 then NEUTRAL
    else NEUTRAL + (1.0 - NEUTRAL) * Clamp01((x.reviews - c.volumeNeutral) as real / span as real)
  }

  /** A share beyond its tolerance, rescaled to what is left above it. */
  function Beyond(share: real, tolerance: real): (r: real)
    ensures 0.0 <= r <= 1.0
  {
    if tolerance >= 1.0 then 0.0 else Clamp01((share - tolerance) / (1.0 - tolerance))
  }

  function PacePenalty(x: TrustInputs, c: TrustSettings): real {
    if x.pacedReviews == 0 then 0.0 else Beyond(x.hastyReviews as real / x.pacedReviews as real, c.paceTolerance)
  }

  /** How far a forward rate lies from the population's, relative to the room on that side. */
  function SkewDistance(rate: real, mean: real): (r: real)
    ensures 0.0 <= r <= 1.0
  {
    var room := if rate < mean then mean else 1.0 - mean;
    var gap := if rate < mean then mean - rate else rate - mean;
    if room <= 0.0 then 0.0 else Clamp01(gap / room)
  }

  function SkewOf(rate: real, mean: real, tolerance: real): real {
    var room := if rate < mean then mean else 1.0 - mean;
    if room <= 0.0 then 0.0 else Beyond(SkewDistance(rate, mean), tolerance)
  }

  function SkewPenalty(x: TrustInputs, c: TrustSettings): real {
    if x.population.None? || x.reviews == 0 then 0.0
    else SkewOf(x.forwards as real / x.reviews as real, x.population.value, c.skewTolerance)
  }

  function AnomalyCeiling(x: TrustInputs, c: TrustSettings): (r: real)
    requires c.anomalyN >= 1
    ensures 0.0 <= r <= 1.0
  {
    var raw := Clamp01(PacePenalty(x, c) + SkewPenalty(x, c));
    var confidence := Clamp01(x.reviews as real / c.anomalyN as real);
    ProductOfShares(raw, confidence);
    1.0 - Times(raw, confidence)
  }

  lemma ProductOfShares(x: real, y: real)
    requires 0.0 <= x <= 1.0 && 0.0 <= y <= 1.0
    ensures 0.0 <= Times(x, y) <= 1.0
  {
    TimesInOrder(0.0, x, 0.0, y);
    TimesInOrder(x, 1.0, y, 1.0);
  }

  // ----- the score -----

  /** The two additive components, weighted. */
  function Base(x: TrustInputs, c: TrustSettings): real
    requires c.confidenceN >= 1 && c.weightProbe + c.weightVolume > 0.0
  {
    (Times(c.weightProbe, ProbeComponent(x, c)) + Times(c.weightVolume, VolumeComponent(x, c))) / (c.weightProbe + c.weightVolume)
  }

  /** The ceiling scales only what lies above neutral. */
  function Capped(base: real, ceiling: real): real {
    if base > NEUTRAL then NEUTRAL + Times(base - NEUTRAL, ceiling) else base
  }

  function Points(base: real): int {
    Max(0, Min(100, Round(base * 100.0)))
  }

  function ComputeScore(x: TrustInputs, c: TrustSettings): int
    requires c.confidenceN >= 1 && c.anomalyN >= 1
  {
    if c.weightProbe + c.weightVolume <= 0.0 then Round(NEUTRAL * 100.0)
    else Points(Capped(Base(x, c), AnomalyCeiling(x, c)))
  }

  datatype Band = Low | Normal | High

  function BandFor(score: int, c: TrustSettings): Band {
    if score < c.lowMax then Low else if score >= c.highMin then High else Normal
  }

  function ReachMultiplier(band: Band, c: TrustSettings): real {
    match band
    case Low => c.lowMultiplier
    case High => c.highMultiplier
    case Normal => 1.0
  }

  /** Conversion to an integer, towards zero. */
  function Truncate(x: real): int {
    if x >= 0.0 then x.Floor else -((-x).Floor)
  }

  function FanoutFor(band: Band, c: TrustSettings): int {
    if !c.enabled then c.fanout
    else Max(1, Truncate(Times(c.fanout as real, ReachMultiplier(band, c)) + 0.5))
  }

  // ----- weighted means -----

  /** A weighted mean lies between bounds both terms respect. */
  lemma MeanBetween(w: real, p: real, v: real, u: real, low: real, high: real)
    requires w >= 0.0 && v >= 0.0 && w + v > 0.0 && 0.0 <= low <= p <= high && low <= u <= high
    ensures low <= (Times(w, p) + Times(v, u)) / (w + v) <= high
  {
    var total := w + v;
    TimesInOrder(w, w, low, p);
    TimesInOrder(v, v, low, u);
    TimesInOrder(w, w, p, high);
    TimesInOrder(v, v, u, high);
    assert Times(w, low) + Times(v, low) == low * total;
    assert Times(w, high) + Times(v, high) == high * total;
    QuotientBetween(Times(w, p) + Times(v, u), total, low, high);
  }

  lemma QuotientBetween(x: real, d: real, low: real, high: real)
    requires d > 0.0 && low * d <= x <= high * d
    ensures low <= x / d <= high
  {
    var q := x / d;
    assert Times(d, q) == x && Times(d, low) <= x <= Times(d, high);
    ScaledOrder(d, low, q);
    ScaledOrder(d, q, high);
  }

  lemma QuotientInOrder(x: real, y: real, d: real)
    requires d > 0.0 && x <= y
    ensures x / d <= y / d
  {
    assert Times(d, x / d) == x && Times(d, y / d) == y;
    ScaledOrder(d, x / d, y / d);
  }

  lemma ShrinkBetween(value: real, confidence: real)
    requires 0.0 <= value <= 1.0
    ensures 0.0 <= Shrink(value, confidence) <= 1.0
  {
    var sure := Clamp01(confidence);
    ProductOfShares(sure, value);
    ProductOfShares(1.0 - sure, NEUTRAL);
    TimesInOrder(sure, sure, value, 1.0);
    TimesInOrder(1.0 - sure, 1.0 - sure, NEUTRAL, 1.0);
    assert Times(sure, 1.0) + Times(1.0 - sure, 1.0) == 1.0;
  }

  lemma ComponentsBetween(x: TrustInputs, c: TrustSettings)
    requires ValidTrust(c)
    ensures 0.0 <= ProbeComponent(x, c) <= 1.0
    ensures c.weightProbe + c.weightVolume > 0.0 ==> 0.0 <= Base(x, c) <= 1.0
  {
    if x.probesAnswered > 0 {
      ShrinkBetween(Accuracy(x.probesCorrect, x.probesAnswered, c.chance), x.probesAnswered as real / c.confidenceN as real);
    }
    if c.weightProbe + c.weightVolume > 0.0 {
      MeanBetween(c.weightProbe, ProbeComponent(x, c), c.weightVolume, VolumeComponent(x, c), 0.0, 1.0);
    }
  }

  lemma CappedBetween(base: real, ceiling: real)
    requires 0.0 <= base <= 1.0 && 0.0 <= ceiling <= 1.0
    ensures MinReal(NEUTRAL, base) <= Capped(base, ceiling) <= base
  {
    if base > NEUTRAL {
      TimesInOrder(0.0, base - NEUTRAL, 0.0, ceiling);
      TimesInOrder(base - NEUTRAL, base - NEUTRAL, ceiling, 1.0);
      TimesOne(base - NEUTRAL);
    }
  }

  lemma CappedInOrder(base: real, better: real, ceiling: real)
    requires base <= better && 0.0 <= ceiling
    ensures Capped(base, ceiling) <= Capped(better, ceiling)
  {
    if base > NEUTRAL {
      TimesInOrder(base - NEUTRAL, better - NEUTRAL, ceiling, ceiling);
    } else if better > NEUTRAL {
      TimesInOrder(0.0, better - NEUTRAL, 0.0, ceiling);
    }
  }

  lemma PointsInOrder(base: real, better: real)
    requires base <= better
    ensures Points(base) <= Points(better)
  {
    RoundIsMonotone(base * 100.0, better * 100.0);
  }

  // ----- what the score guarantees -----

  /** The score needs no clamping: on every input it is between 0 and 100 by itself. */
  lemma ScoreInRange(x: TrustInputs, c: TrustSettings)
    requires WellFormed(x) && ValidTrust(c)
    ensures 0 <= ComputeScore(x, c) <= 100
    ensures c.weightProbe + c.weightVolume > 0.0 ==>
              ComputeScore(x, c) == Round(Capped(Base(x, c), AnomalyCeiling(x, c)) * 100.0)
  {
    if c.weightProbe + c.weightVolume > 0.0 {
      ComponentsBetween(x, c);
      CappedBetween(Base(x, c), AnomalyCeiling(x, c));
    }
  }

  /** The same reader with nothing anomalous about them. */
  function Calm(x: TrustInputs): TrustInputs {
    x.(hastyReviews := 0, population := None)
  }

  /** No evidence is neutral: no probes and little reviewing score 50, however strange the
      little reviewing looks. */
  lemma NoEvidenceIsNeutral(x: TrustInputs, c: TrustSettings)
    requires ValidTrust(c) && x.probesAnswered == 0 && x.reviews <= c.volumeNeutral
    ensures ComputeScore(x, c) == 50
  {
    if c.weightProbe + c.weightVolume > 0.0 {
      var span := c.volumeFull - c.volumeNeutral;
      if span > 0 {
        QuotientInOrder((x.reviews - c.volumeNeutral) as real, 0.0, span as real);
        assert 0.0 / span as real == 0.0;
      }
      assert VolumeComponent(x, c) == NEUTRAL;
      MeanBetween(c.weightProbe, NEUTRAL, c.weightVolume, NEUTRAL, NEUTRAL, NEUTRAL);
    }
    RoundOfInt(50);
  }

  lemma CalmIsUncapped(x: TrustInputs, c: TrustSettings)
    requires ValidTrust(c)
    ensures AnomalyCeiling(Calm(x), c) == 1.0
  {
    var calm := Calm(x);
    if calm.pacedReviews > 0 {
      assert 0.0 / calm.pacedReviews as real == 0.0;
      if c.paceTolerance < 1.0 {
        QuotientInOrder(0.0 - c.paceTolerance, 0.0, 1.0 - c.paceTolerance);
        assert 0.0 / (1.0 - c.paceTolerance) == 0.0;
      }
    }
    assert PacePenalty(calm, c) == 0.0;
  }

  /** Anomaly is a ceiling: it never raises a score and never takes one below neutral that
      was not below it already. */
  lemma AnomalyOnlyPullsToNeutral(x: TrustInputs, c: TrustSettings)
    requires WellFormed(x) && ValidTrust(c)
    ensures
      var calm := ComputeScore(Calm(x), c);
      Min(50, calm) <= ComputeScore(x, c) <= calm
  {
    if c.weightProbe + c.weightVolume > 0.0 {
      ComponentsBetween(x, c);
      CalmIsUncapped(x, c);
      var base, ceiling := Base(x, c), AnomalyCeiling(x, c);
      assert Base(Calm(x), c) == base;
      TimesOne(base - NEUTRAL);
      assert Capped(base, 1.0) == base;
      CappedBetween(base, ceiling);
      PointsInOrder(Capped(base, ceiling), base);
      PointsInOrder(MinReal(NEUTRAL, base), Capped(base, ceiling));
      RoundOfInt(50);
    }
  }

  lemma ProbeInOrder(correct: nat, better: nat, answered: nat, c: TrustSettings)
    requires ValidTrust(c) && correct <= better
    ensures ProbeOf(correct, answered, c) <= ProbeOf(better, answered, c)
  {
    if answered > 0 {
      if c.chance < 1.0 {
        QuotientInOrder(correct as real, better as real, answered as real);
        QuotientInOrder(correct as real / answered as real - c.chance, better as real / answered as real - c.chance, 1.0 - c.chance);
      }
      var sure := Clamp01(answered as real / c.confidenceN as real);
      TimesInOrder(sure, sure, Accuracy(correct, answered, c.chance), Accuracy(better, answered, c.chance));
    }
  }

  /** A better probe component, all else equal, never lowers the score. */
  lemma ScoreFollowsProbes(x: TrustInputs, y: TrustInputs, c: TrustSettings)
    requires ValidTrust(c)
    requires y == x.(probesAnswered := y.probesAnswered, probesCorrect := y.probesCorrect)
    requires ProbeComponent(x, c) <= ProbeComponent(y, c)
    ensures ComputeScore(x, c) <= ComputeScore(y, c)
  {
    if c.weightProbe + c.weightVolume > 0.0 {
      ComponentsBetween(x, c);
      TimesInOrder(c.weightProbe, c.weightProbe, ProbeComponent(x, c), ProbeComponent(y, c));
      QuotientInOrder(Times(c.weightProbe, ProbeComponent(x, c)) + Times(c.weightVolume, VolumeComponent(x, c)),
                      Times(c.weightProbe, ProbeComponent(y, c)) + Times(c.weightVolume, VolumeComponent(y, c)),
                      c.weightProbe + c.weightVolume);
      assert AnomalyCeiling(x, c) == AnomalyCeiling(y, c);
      CappedInOrder(Base(x, c), Base(y, c), AnomalyCeiling(x, c));
      PointsInOrder(Capped(Base(x, c), AnomalyCeiling(x, c)), Capped(Base(y, c), AnomalyCeiling(y, c)));
    }
  }

  /** More correct among as many answered never lowers the score. */
  lemma ScoreRisesWithCorrect(x: TrustInputs, better: nat, c: TrustSettings)
    requires ValidTrust(c) && x.probesCorrect <= better
    ensures ComputeScore(x, c) <= ComputeScore(x.(probesCorrect := better), c)
  {
    ProbeInOrder(x.probesCorrect, better, x.probesAnswered, c);
    ScoreFollowsProbes(x, x.(probesCorrect := better), c);
  }

  /** Only failed probes cost reach: the low band means a probe component below neutral. */
  lemma LowBandMeansFailedProbes(x: TrustInputs, c: TrustSettings)
    requires WellFormed(x) && ValidTrust(c) && c.lowMax <= 50
    ensures BandFor(ComputeScore(x, c), c) == Low ==> x.probesAnswered > 0 && ProbeComponent(x, c) < NEUTRAL
  {
    if ProbeComponent(x, c) >= NEUTRAL {
      RoundOfInt(50);
      if c.weightProbe + c.weightVolume > 0.0 {
        ComponentsBetween(x, c);
        MeanBetween(c.weightProbe, ProbeComponent(x, c), c.weightVolume, VolumeComponent(x, c), NEUTRAL, 1.0);
        CappedBetween(Base(x, c), AnomalyCeiling(x, c));
        PointsInOrder(NEUTRAL, Capped(Base(x, c), AnomalyCeiling(x, c)));
      }
    }
  }

  /** The best that volume alone can score. */
  function VolumeTop(c: TrustSettings): int
    requires c.weightProbe + c.weightVolume > 0.0
  {
    Round((Times(c.weightProbe, NEUTRAL) + Times(c.weightVolume, 1.0)) / (c.weightProbe + c.weightVolume) * 100.0)
  }

  /** Without a probe answered no amount of reviewing scores more than that. */
  lemma VolumeAloneIsCapped(x: TrustInputs, c: TrustSettings)
    requires WellFormed(x) && ValidTrust(c) && x.probesAnswered == 0 && c.weightProbe + c.weightVolume > 0.0
    ensures ComputeScore(x, c) <= VolumeTop(c)
  {
    ScoreInRange(x, c);
    ComponentsBetween(x, c);
    CappedBetween(Base(x, c), AnomalyCeiling(x, c));
    TimesInOrder(c.weightVolume, c.weightVolume, VolumeComponent(x, c), 1.0);
    var top := Times(c.weightProbe, NEUTRAL) + Times(c.weightVolume, 1.0);
    QuotientInOrder(Times(c.weightProbe, NEUTRAL) + Times(c.weightVolume, VolumeComponent(x, c)), top, c.weightProbe + c.weightVolume);
    RoundIsMonotone(Capped(Base(x, c), AnomalyCeiling(x, c)) * 100.0, top / (c.weightProbe + c.weightVolume) * 100.0);
  }

  function Defaults(): TrustSettings {
    TrustSettings(0.5, 6, 20, 150, 0.3, 0.7, 20, 0.7, 0.3, 35, 70, 2.0 / 3.0, 4.0 / 3.0, true, 3)
  }

  /** At the default weights that is 65, below the high band. */
  lemma VolumeAloneIsNormal(x: TrustInputs)
    requires WellFormed(x) && x.probesAnswered == 0
    ensures ComputeScore(x, Defaults()) <= 65 && BandFor(ComputeScore(x, Defaults()), Defaults()) == Normal
  {
    var c := Defaults();
    VolumeAloneIsCapped(x, c);
    assert Times(0.7, NEUTRAL) + Times(0.3, 1.0) == 0.65;
    RoundOfInt(65);
    LowBandMeansFailedProbes(x, c);
  }

  /** Volume earns nothing up to its neutral count, everything from its full count on, and a share
      in proportion between. */
  lemma VolumeIsProportional(x: TrustInputs, c: TrustSettings)
    ensures x.reviews <= c.volumeNeutral || c.volumeFull <= c.volumeNeutral ==> VolumeComponent(x, c) == NEUTRAL
    ensures c.volumeNeutral < c.volumeFull <= x.reviews ==> VolumeComponent(x, c) == 1.0
    ensures c.volumeNeutral <= x.reviews <= c.volumeFull && c.volumeNeutral < c.volumeFull ==>
              Times((c.volumeFull - c.volumeNeutral) as real, VolumeComponent(x, c) - NEUTRAL)
              == (x.reviews - c.volumeNeutral) as real * 0.5
  {
    var span, over := (c.volumeFull - c.volumeNeutral) as real, (x.reviews - c.volumeNeutral) as real;
    if span > 0.0 {
      var q := over / span;
      assert Times(span, q) == over;
      TimesOne(span);
      ScaledOrder(span, 0.0, q);
      ScaledOrder(span, q, 0.0);
      ScaledOrder(span, 1.0, q);
      ScaledOrder(span, q, 1.0);
      HalfOf(span, q);
    }
  }

  lemma HalfOf(d: real, q: real)
    ensures Times(d, (1.0 - NEUTRAL) * q) == Times(d, q) * 0.5
  {
    assert d * (0.5 * q) == d * q * 0.5;
  }

  // ----- one more correct probe -----

  /** Correct answers beyond what chance would give, in units of a fully earned answer. */
  function Excess(correct: nat, answered: nat, chance: real): real
    requires chance < 1.0
  {
    (correct as real - Times(chance, answered as real)) / (1.0 - chance)
  }

  lemma AccuracyIsExcess(correct: nat, answered: nat, chance: real)
    requires 0.0 <= chance < 1.0 && correct <= answered && answered > 0
    ensures Times(answered as real, Accuracy(correct, answered, chance)) == MaxReal(0.0, Excess(correct, answered, chance))
  {
    var n, k, room := answered as real, correct as real, 1.0 - chance;
    var raw := (k / n - chance) / room;
    assert raw * room == k / n - chance;
    assert k / n * n == k;
    assert raw * room * n == k - chance * n;
    var excess := Excess(correct, answered, chance);
    assert excess * room == k - Times(chance, n);
    assert (n * raw - excess) * room == 0.0;
    assert n * raw == excess;
    QuotientBetween(k, n, 0.0, 1.0);
    QuotientBetween(k / n - chance, room, 0.0 - chance / room, 1.0);
    if raw >= 0.0 {
      TimesInOrder(0.0, n, 0.0, raw);
    } else {
      assert n * raw < 0.0;
    }
  }

  /** What the probe component adds to neutral, before full confidence. */
  lemma ProbeBelowConfidence(correct: nat, answered: nat, c: TrustSettings)
    requires ValidTrust(c) && c.chance < 1.0 && correct <= answered <= c.confidenceN
    ensures Times(c.confidenceN as real, ProbeOf(correct, answered, c) - NEUTRAL)
            == MaxReal(0.0, Excess(correct, answered, c.chance)) - Times(answered as real, NEUTRAL)
  {
    var total, n := c.confidenceN as real, answered as real;
    if answered == 0 {
      NoExcess(c.chance);
    } else {
      AccuracyIsExcess(correct, answered, c.chance);
      ShrinkGap(Accuracy(correct, answered, c.chance), n, total);
    }
  }

  lemma NoExcess(chance: real)
    requires chance < 1.0
    ensures Excess(0, 0, chance) == 0.0 && Times(0.0, NEUTRAL) == 0.0
  {
    assert Times(chance, 0.0) == 0.0;
    assert 0.0 / (1.0 - chance) == 0.0;
  }

  /** Below full confidence the gap to neutral is shrunk in proportion. */
  lemma ShrinkGap(value: real, n: real, total: real)
    requires 0.0 < n <= total
    ensures Times(total, Shrink(value, n / total) - NEUTRAL) == Times(n, value) - Times(n, NEUTRAL)
  {
    var sure := n / total;
    QuotientBetween(n, total, 0.0, 1.0);
    ScaledShrink(total, sure, n, value);
  }

  lemma ScaledShrink(total: real, sure: real, n: real, value: real)
    requires Times(total, sure) == n
    ensures Times(total, Times(sure, value) + Times(1.0 - sure, NEUTRAL) - NEUTRAL) == Times(n, value) - Times(n, NEUTRAL)
  {
    assert Times(sure, value) + Times(1.0 - sure, NEUTRAL) - NEUTRAL == sure * (value - NEUTRAL);
    assert total * (sure * (value - NEUTRAL)) == n * (value - NEUTRAL);
  }

  lemma ExcessGrows(correct: nat, answered: nat, chance: real)
    requires 0.0 <= chance < 1.0
    ensures Excess(correct + 1, answered + 1, chance) == Excess(correct, answered, chance) + 1.0
  {
    var room := 1.0 - chance;
    var k, n := correct as real, answered as real;
    assert (answered + 1) as real == n + 1.0 && (correct + 1) as real == k + 1.0;
    assert Times(chance, n + 1.0) == Times(chance, n) + chance;
    QuotientGrows(k - Times(chance, n), room);
    assert k + 1.0 - Times(chance, n + 1.0) == k - Times(chance, n) + room;
  }

  lemma QuotientGrows(x: real, d: real)
    requires d > 0.0
    ensures (x + d) / d == x / d + 1.0
  {
    var q := x / d;
    assert q * d == x && (q + 1.0) * d == q * d + d;
    QuotientBetween(x + d, d, q + 1.0, q + 1.0);
  }

  /** One more correct probe can lower the component. It does not exactly when the reader is
      at full confidence already, or no more than half an answer below chance so far. */
  lemma OneMoreCorrect(correct: nat, answered: nat, c: TrustSettings)
    requires ValidTrust(c) && c.chance < 1.0 && correct <= answered
    ensures ProbeOf(correct, answered, c) <= ProbeOf(correct + 1, answered + 1, c) <==>
              answered >= c.confidenceN || Excess(correct, answered, c.chance) >= -0.5
  {
    if answered >= c.confidenceN {
      AtFullConfidence(correct, answered, c);
    } else {
      ProbeBelowConfidence(correct, answered, c);
      ProbeBelowConfidence(correct + 1, answered + 1, c);
      ExcessGrows(correct, answered, c.chance);
      assert Times((answered + 1) as real, NEUTRAL) == Times(answered as real, NEUTRAL) + NEUTRAL;
      var before, after := ProbeOf(correct, answered, c) - NEUTRAL, ProbeOf(correct + 1, answered + 1, c) - NEUTRAL;
      ScaledOrder(c.confidenceN as real, before, after);
    }
  }

  lemma ScaledOrder(d: real, x: real, y: real)
    requires d > 0.0
    ensures x <= y <==> Times(d, x) <= Times(d, y)
  {
    assert Times(d, y) - Times(d, x) == d * (y - x);
  }

  lemma AtFullConfidence(correct: nat, answered: nat, c: TrustSettings)
    requires ValidTrust(c) && c.chance < 1.0 && correct <= answered && answered >= c.confidenceN
    ensures ProbeOf(correct, answered, c) <= ProbeOf(correct + 1, answered + 1, c)
  {
    FullConfidence(correct, answered, c);
    FullConfidence(correct + 1, answered + 1, c);
    RateGrows(correct as real, answered as real);
    var rate, next := correct as real / answered as real, (correct + 1) as real / (answered + 1) as real;
    assert (correct + 1) as real == correct as real + 1.0 && (answered + 1) as real == answered as real + 1.0;
    QuotientInOrder(rate - c.chance, next - c.chance, 1.0 - c.chance);
  }

  lemma FullConfidence(correct: nat, answered: nat, c: TrustSettings)
    requires ValidTrust(c) && answered >= c.confidenceN
    ensures ProbeOf(correct, answered, c) == Accuracy(correct, answered, c.chance)
  {
    QuotientInOrder(c.confidenceN as real, answered as real, c.confidenceN as real);
    assert c.confidenceN as real / c.confidenceN as real == 1.0;
    TimesOne(Accuracy(correct, answered, c.chance));
  }

  lemma RateGrows(k: real, n: real)
    requires 0.0 <= k <= n && n > 0.0
    ensures k / n <= (k + 1.0) / (n + 1.0)
  {
    var q := k / n;
    assert q * n == k;
    QuotientBetween(k, n, 0.0, 1.0);
    assert q * (n + 1.0) <= k + 1.0;
    QuotientInOrder(q * (n + 1.0), k + 1.0, n + 1.0);
    assert q * (n + 1.0) / (n + 1.0) == q;
  }

  /** So for a reader within half an answer of chance a correct probe never lowers the score. */
  lemma CorrectProbeHelps(x: TrustInputs, c: TrustSettings)
    requires WellFormed(x) && ValidTrust(c) && c.chance < 1.0
    requires x.probesAnswered >= c.confidenceN || Excess(x.probesCorrect, x.probesAnswered, c.chance) >= -0.5
    ensures ComputeScore(x, c) <= ComputeScore(x.(probesAnswered := x.probesAnswered + 1, probesCorrect := x.probesCorrect + 1), c)
  {
    OneMoreCorrect(x.probesCorrect, x.probesAnswered, c);
    ScoreFollowsProbes(x, x.(probesAnswered := x.probesAnswered + 1, probesCorrect := x.probesCorrect + 1), c);
  }

  /** A reader who answered this many probes and did nothing else. */
  function OnlyProbes(answered: nat, correct: nat): TrustInputs {
    TrustInputs(answered, correct, 0, 0, 0, 0, None)
  }

  lemma ScoreOfOnlyProbes(answered: nat, correct: nat, component: real)
    requires 0 < answered && component == ProbeOf(correct, answered, Defaults()) <= NEUTRAL
    ensures ComputeScore(OnlyProbes(answered, correct), Defaults()) == Points(0.7 * component + 0.15)
  {
    assert VolumeComponent(OnlyProbes(answered, correct), Defaults()) == NEUTRAL;
    assert 0.7 + 0.3 == 1.0;
  }

  /** And for one further below it can: after one failure, a success takes 44 to 38. */
  lemma CorrectProbeCanHurt()
    ensures ComputeScore(OnlyProbes(1, 0), Defaults()) == 44
    ensures ComputeScore(OnlyProbes(2, 1), Defaults()) == 38
  {
    ProbeBelowConfidence(0, 1, Defaults());
    ProbeBelowConfidence(1, 2, Defaults());
    assert Excess(0, 1, 0.5) == -1.0 && Excess(1, 2, 0.5) == 0.0;
    ScoreOfOnlyProbes(1, 0, 5.0 / 12.0);
    ScoreOfOnlyProbes(2, 1, 1.0 / 3.0);
  }

  // ----- skew -----

  /** No penalty exactly within the tolerance, which is relative to the room on each side. */
  lemma NoSkewWithinTolerance(rate: real, mean: real, tolerance: real)
    requires 0.0 <= rate <= 1.0 && 0.0 <= mean <= 1.0 && 0.0 <= tolerance
    ensures SkewOf(rate, mean, tolerance) == 0.0 <==> SkewDistance(rate, mean) <= tolerance
  {
    if tolerance < 1.0 {
      BeyondIsZero(SkewDistance(rate, mean), tolerance);
    }
  }

  lemma BeyondIsZero(share: real, tolerance: real)
    requires tolerance < 1.0
    ensures Beyond(share, tolerance) == 0.0 <==> share <= tolerance
  {
    var q := (share - tolerance) / (1.0 - tolerance);
    assert Times(1.0 - tolerance, q) == share - tolerance;
    ScaledOrder(1.0 - tolerance, q, 0.0);
    ScaledOrder(1.0 - tolerance, 0.0, q);
  }

  lemma BeyondInOrder(share: real, more: real, tolerance: real)
    requires share <= more <= 1.0
    ensures Beyond(share, tolerance) <= Beyond(more, tolerance)
    ensures tolerance < 1.0 && share < more && tolerance < more ==> Beyond(share, tolerance) < Beyond(more, tolerance)
  {
    if tolerance < 1.0 {
      var room := 1.0 - tolerance;
      QuotientInOrder(share - tolerance, more - tolerance, room);
      QuotientInOrder(more - tolerance, room, room);
      var x, y := (share - tolerance) / room, (more - tolerance) / room;
      assert x * room == share - tolerance && y * room == more - tolerance;
      if share < more && tolerance < more {
        assert (y - x) * room > 0.0;
        assert y > x && y > 0.0;
        assert room / room == 1.0;
      }
    }
  }

  /** Never forwarding is penalised in full unless nobody ever forwards, and always forwarding
      unless everybody does; otherwise, and with a tolerance of the whole room, not at all. */
  lemma ExtremesAreFull(mean: real, tolerance: real)
    requires 0.0 <= mean <= 1.0 && 0.0 <= tolerance
    ensures SkewOf(0.0, mean, tolerance) == if mean > 0.0 && tolerance < 1.0 then 1.0 else 0.0
    ensures SkewOf(1.0, mean, tolerance) == if mean < 1.0 && tolerance < 1.0 then 1.0 else 0.0
  {
    if mean > 0.0 {
      SelfQuotient(mean);
      assert SkewDistance(0.0, mean) == 1.0;
    } else {
      BeyondIsZero(0.0, if tolerance < 1.0 then tolerance else 0.0);
    }
    if mean < 1.0 {
      SelfQuotient(1.0 - mean);
      assert SkewDistance(1.0, mean) == 1.0;
    }
    if tolerance < 1.0 {
      SelfQuotient(1.0 - tolerance);
    }
  }

  lemma SelfQuotient(x: real)
    requires x > 0.0
    ensures x / x == 1.0
  {
  }

  /** Among readers who lean one way by the same share, at least half, forwarding lies at
      least as far from a population that mostly drops as dropping does. */
  lemma ForwardingIsFarther(share: real, mean: real)
    requires 0.5 <= share <= 1.0 && 0.0 <= mean <= 0.5
    ensures SkewDistance(1.0 - share, mean) <= SkewDistance(share, mean)
    ensures share > 0.5 && mean < 0.5 && (share < 1.0 || mean == 0.0) ==> SkewDistance(1.0 - share, mean) < SkewDistance(share, mean)
  {
    var drop, room := 1.0 - share, 1.0 - mean;
    AboveMean(share, mean);
    if drop < mean {
      BelowMean(drop, mean);
      OppositeSides(share, mean);
    } else {
      AboveMean(drop, mean);
      QuotientInOrder(drop - mean, share - mean, room);
      if drop < share {
        QuotientsDiffer(drop - mean, share - mean, room);
      }
    }
  }

  lemma AboveMean(rate: real, mean: real)
    requires 0.0 <= mean <= rate <= 1.0 && mean < 1.0
    ensures SkewDistance(rate, mean) == (rate - mean) / (1.0 - mean)
  {
    QuotientBetween(rate - mean, 1.0 - mean, 0.0, 1.0);
  }

  lemma BelowMean(rate: real, mean: real)
    requires 0.0 <= rate < mean
    ensures SkewDistance(rate, mean) == (mean - rate) / mean
  {
    QuotientBetween(mean - rate, mean, 0.0, 1.0);
  }

  lemma QuotientsDiffer(x: real, y: real, d: real)
    requires d > 0.0 && x < y
    ensures x / d < y / d
  {
    var p, q := x / d, y / d;
    assert p * d == x && q * d == y;
    assert (q - p) * d > 0.0;
  }

  /** The two distances on opposite sides of the mean, compared without dividing. */
  lemma OppositeSides(share: real, mean: real)
    requires 0.5 <= share <= 1.0 && 0.0 < mean <= 0.5 && 1.0 - share < mean
    ensures (mean - (1.0 - share)) / mean <= (share - mean) / (1.0 - mean)
    ensures share < 1.0 && mean < 0.5 ==> (mean - (1.0 - share)) / mean < (share - mean) / (1.0 - mean)
  {
    var drop, room := 1.0 - share, 1.0 - mean;
    var near, far := (mean - drop) / mean, (share - mean) / room;
    assert near * mean == mean - drop && far * room == share - mean;
    CrossGap(share, mean, drop, room, 1.0 - 2.0 * mean);
    ProductSign(drop, 1.0 - 2.0 * mean);
    CrossOrder(near, mean, mean - drop, far, room, share - mean);
  }

  lemma CrossGap(share: real, mean: real, drop: real, room: real, rest: real)
    requires drop == 1.0 - share && room == 1.0 - mean && rest == 1.0 - 2.0 * mean
    ensures Times(share - mean, mean) - Times(mean - drop, room) == Times(drop, rest)
  {
    var both, square := share * mean, mean * mean;
    assert (share - mean) * mean == both - square;
    assert (mean - 1.0 + share) * (1.0 - mean) == 2.0 * mean - square - 1.0 + share - both;
    assert (1.0 - share) * (1.0 - 2.0 * mean) == 1.0 - 2.0 * mean - share + 2.0 * both;
  }

  lemma ProductSign(x: real, y: real)
    requires x >= 0.0 && y >= 0.0
    ensures Times(x, y) >= 0.0
    ensures x > 0.0 && y > 0.0 ==> Times(x, y) > 0.0
  {
  }

  lemma CrossOrder(x: real, a: real, p: real, y: real, b: real, q: real)
    requires a > 0.0 && b > 0.0 && x * a == p && y * b == q
    ensures Times(p, b) <= Times(q, a) <==> x <= y
    ensures Times(p, b) < Times(q, a) <==> x < y
  {
    assert p * b == x * (a * b) && q * a == y * (a * b);
    assert a * b > 0.0;
  }

  /** In a population that mostly drops, forwarding a share is penalised at least as hard as
      dropping the same share exactly when that share is at least half, or when there is
      nothing to compare: dropping it is within tolerance, or both are full. */
  lemma ForwardingIsPenalisedHarder(share: real, mean: real, tolerance: real)
    requires 0.0 <= share <= 1.0 && 0.0 <= mean <= 0.5 && 0.0 <= tolerance
    ensures SkewOf(share, mean, tolerance) >= SkewOf(1.0 - share, mean, tolerance) <==>
              || share >= 0.5 || (share == 0.0 && mean > 0.0) || mean == 0.5
              || SkewDistance(1.0 - share, mean) <= tolerance
  {
    var drop := 1.0 - share;
    if tolerance < 1.0 {
      if share >= 0.5 {
        ForwardingIsFarther(share, mean);
        BeyondInOrder(SkewDistance(drop, mean), SkewDistance(share, mean), tolerance);
      } else {
        ForwardingIsFarther(drop, mean);
        BeyondInOrder(SkewDistance(share, mean), SkewDistance(drop, mean), tolerance);
        BeyondIsZero(SkewDistance(drop, mean), tolerance);
        if share == 0.0 {
          ExtremesAreFull(mean, tolerance);
        } else if mean == 0.5 {
          assert (0.5 - share) / 0.5 == (drop - 0.5) / 0.5;
        }
      }
    }
  }

  // ----- anomaly -----

  /** The share of hasty reviews is within the tolerance, or there is nothing to take a share of. */
  predicate PaceWithin(x: TrustInputs, c: TrustSettings) {
    x.pacedReviews == 0 || c.paceTolerance >= 1.0 || x.hastyReviews as real <= Times(c.paceTolerance, x.pacedReviews as real)
  }

  /** The forward rate is within the tolerance of the population's, or there is nothing to compare. */
  predicate SkewWithin(x: TrustInputs, c: TrustSettings) {
    x.population.None? || x.reviews == 0 || c.skewTolerance >= 1.0
    || SkewDistance(x.forwards as real / x.reviews as real, x.population.value) <= c.skewTolerance
  }

  lemma ShareBetween(part: nat, whole: nat)
    requires part <= whole && whole > 0
    ensures 0.0 <= part as real / whole as real <= 1.0
    ensures part as real / whole as real == 1.0 <==> part == whole
  {
    var share := part as real / whole as real;
    QuotientBetween(part as real, whole as real, 0.0, 1.0);
    assert share * whole as real == part as real;
  }

  /** No penalty for pace exactly within the tolerance, and the whole of it exactly when every
      paced review is hasty. */
  lemma PacePenaltyIsExact(x: TrustInputs, c: TrustSettings)
    requires WellFormed(x) && ValidTrust(c)
    ensures PacePenalty(x, c) == 0.0 <==> PaceWithin(x, c)
    ensures PacePenalty(x, c) == 1.0 <==> x.pacedReviews > 0 && c.paceTolerance < 1.0 && x.hastyReviews == x.pacedReviews
  {
    if x.pacedReviews > 0 && c.paceTolerance < 1.0 {
      var whole := x.pacedReviews as real;
      var share := x.hastyReviews as real / whole;
      ShareBetween(x.hastyReviews, x.pacedReviews);
      BeyondIsZero(share, c.paceTolerance);
      assert Times(whole, share) == x.hastyReviews as real;
      ScaledOrder(whole, share, c.paceTolerance);
      SelfQuotient(1.0 - c.paceTolerance);
      BeyondInOrder(share, 1.0, c.paceTolerance);
    }
  }

  lemma SkewPenaltyIsExact(x: TrustInputs, c: TrustSettings)
    requires WellFormed(x) && ValidTrust(c)
    ensures 0.0 <= SkewPenalty(x, c) && (SkewPenalty(x, c) == 0.0 <==> SkewWithin(x, c))
  {
    if x.population.Some? && x.reviews > 0 {
      ShareBetween(x.forwards, x.reviews);
      NoSkewWithinTolerance(x.forwards as real / x.reviews as real, x.population.value, c.skewTolerance);
    }
  }

  lemma ProductIsZero(x: real, y: real)
    ensures Times(x, y) == 0.0 <==> x == 0.0 || y == 0.0
  {
  }

  lemma Confidence(reviews: nat, n: int)
    requires n >= 1
    ensures 0.0 <= reviews as real / n as real
    ensures reviews as real / n as real == 0.0 <==> reviews == 0
    ensures reviews as real / n as real >= 1.0 <==> reviews >= n
  {
    var q := reviews as real / n as real;
    assert Times(n as real, q) == reviews as real;
    ScaledOrder(n as real, 0.0, q);
    ScaledOrder(n as real, q, 0.0);
    ScaledOrder(n as real, 1.0, q);
    TimesOne(n as real);
  }

  lemma ProductIsOne(x: real, y: real)
    requires 0.0 <= x <= 1.0 && 0.0 <= y <= 1.0
    ensures Times(x, y) == 1.0 <==> x == 1.0 && y == 1.0
  {
    TimesInOrder(x, x, y, 1.0);
    TimesInOrder(x, 1.0, y, y);
    TimesOne(x);
    TimesOne(y);
  }

  /** There is a ceiling exactly when there are reviews and their pace or their forward rate lies
      beyond its tolerance, and it takes the whole bonus exactly at full confidence and with the
      two penalties making up a whole one. */
  lemma CeilingIsExact(x: TrustInputs, c: TrustSettings)
    requires WellFormed(x) && ValidTrust(c)
    ensures AnomalyCeiling(x, c) < 1.0 <==> x.reviews > 0 && !(PaceWithin(x, c) && SkewWithin(x, c))
    ensures AnomalyCeiling(x, c) == 0.0 <==> x.reviews >= c.anomalyN && PacePenalty(x, c) + SkewPenalty(x, c) >= 1.0
  {
    PacePenaltyIsExact(x, c);
    SkewPenaltyIsExact(x, c);
    Confidence(x.reviews, c.anomalyN);
    var raw, sure := Clamp01(PacePenalty(x, c) + SkewPenalty(x, c)), Clamp01(x.reviews as real / c.anomalyN as real);
    ProductIsZero(raw, sure);
    ProductIsOne(raw, sure);
  }

  /** So a base above neutral is lowered exactly then, and one at or below neutral never. */
  lemma BonusIsWithheldExactly(x: TrustInputs, c: TrustSettings)
    requires WellFormed(x) && ValidTrust(c) && c.weightProbe + c.weightVolume > 0.0
    ensures Capped(Base(x, c), AnomalyCeiling(x, c)) < Base(x, c) <==>
              Base(x, c) > NEUTRAL && x.reviews > 0 && !(PaceWithin(x, c) && SkewWithin(x, c))
  {
    CeilingIsExact(x, c);
    var bonus, ceiling := Base(x, c) - NEUTRAL, AnomalyCeiling(x, c);
    if bonus > 0.0 {
      TimesOne(bonus);
      ScaledOrder(bonus, ceiling, 1.0);
      ScaledOrder(bonus, 1.0, ceiling);
    }
  }

  lemma CappedByLess(base: real, ceiling: real, lower: real)
    requires 0.0 <= lower <= ceiling
    ensures Capped(base, lower) <= Capped(base, ceiling)
  {
    if base > NEUTRAL {
      TimesInOrder(base - NEUTRAL, base - NEUTRAL, lower, ceiling);
    }
  }

  /** More hasty reviews among as many paced ones never raise a score. */
  lemma HasteNeverHelps(x: TrustInputs, more: nat, c: TrustSettings)
    requires WellFormed(x) && ValidTrust(c) && x.hastyReviews <= more <= x.pacedReviews
    ensures ComputeScore(x.(hastyReviews := more), c) <= ComputeScore(x, c)
  {
    var y := x.(hastyReviews := more);
    if x.pacedReviews > 0 {
      QuotientInOrder(x.hastyReviews as real, more as real, x.pacedReviews as real);
      ShareBetween(more, x.pacedReviews);
      BeyondInOrder(x.hastyReviews as real / x.pacedReviews as real, more as real / x.pacedReviews as real, c.paceTolerance);
    }
    var sure := Clamp01(x.reviews as real / c.anomalyN as real);
    TimesInOrder(Clamp01(PacePenalty(x, c) + SkewPenalty(x, c)), Clamp01(PacePenalty(y, c) + SkewPenalty(y, c)), sure, sure);
    if c.weightProbe + c.weightVolume > 0.0 {
      assert Base(y, c) == Base(x, c);
      CappedByLess(Base(x, c), AnomalyCeiling(x, c), AnomalyCeiling(y, c));
      PointsInOrder(Capped(Base(x, c), AnomalyCeiling(y, c)), Capped(Base(x, c), AnomalyCeiling(x, c)));
    }
  }

  /** Every paced review was hasty, or the forward rate lies at an extreme that the population
      does not share, and no tolerance covers it. */
  predicate Anomalous(x: TrustInputs, c: TrustSettings) {
    || (x.pacedReviews > 0 && c.paceTolerance < 1.0 && x.hastyReviews == x.pacedReviews)
    || (x.population.Some? && c.skewTolerance < 1.0
        && ((x.forwards == 0 && x.population.value > 0.0) || (x.forwards == x.reviews && x.population.value < 1.0)))
  }

  lemma AnomalousIsCapped(x: TrustInputs, c: TrustSettings)
    requires WellFormed(x) && ValidTrust(c) && x.reviews >= c.anomalyN && Anomalous(x, c)
    ensures AnomalyCeiling(x, c) == 0.0
  {
    PacePenaltyIsExact(x, c);
    SkewPenaltyIsExact(x, c);
    CeilingIsExact(x, c);
    if x.population.Some? {
      ShareBetween(x.forwards, x.reviews);
      ExtremesAreFull(x.population.value, c.skewTolerance);
      assert 0.0 / x.reviews as real == 0.0;
    }
  }

  /** With enough reviews behind it, such an anomaly leaves nothing above neutral. */
  lemma AnomalousIsNeutralAtBest(x: TrustInputs, c: TrustSettings)
    requires WellFormed(x) && ValidTrust(c) && x.reviews >= c.anomalyN && Anomalous(x, c)
    ensures ComputeScore(x, c) == Min(50, ComputeScore(Calm(x), c))
  {
    AnomalousIsCapped(x, c);
    CalmIsUncapped(x, c);
    RoundOfInt(50);
    if c.weightProbe + c.weightVolume > 0.0 {
      var base := Base(x, c);
      assert Base(Calm(x), c) == base;
      assert Times(base - NEUTRAL, 0.0) == 0.0;
      TimesOne(base - NEUTRAL);
      if base > NEUTRAL {
        PointsInOrder(NEUTRAL, base);
      } else {
        PointsInOrder(base, NEUTRAL);
      }
    }
  }

  /** A reader of 200 posts who answered all twelve tests and forwarded every fourth post. */
  function Spotter(hasty: nat): TrustInputs {
    TrustInputs(12, 12, 200, 50, 150, hasty, None)
  }

  lemma SpotterBase(hasty: nat)
    requires hasty <= 150
    ensures Base(Spotter(hasty), Defaults()) == 1.0
  {
    var c := Defaults();
    FullConfidence(12, 12, c);
    assert 12.0 / 12.0 == 1.0 && (1.0 - 0.5) / (1.0 - 0.5) == 1.0;
    assert VolumeComponent(Spotter(hasty), c) == 1.0;
    assert Times(0.7, 1.0) + Times(0.3, 1.0) == 1.0;
  }

  /** At the defaults they score 100 and reach four if they took their time, and 50 and three if
      they rushed every post. */
  lemma SpottingTestsIsNotEnough()
    ensures ComputeScore(Spotter(0), Defaults()) == 100 && FanoutFor(BandFor(100, Defaults()), Defaults()) == 4
    ensures ComputeScore(Spotter(150), Defaults()) == 50 && FanoutFor(BandFor(50, Defaults()), Defaults()) == 3
  {
    var c := Defaults();
    SpotterBase(0);
    SpotterBase(150);
    CalmIsUncapped(Spotter(150), c);
    assert Calm(Spotter(150)) == Spotter(0);
    TimesOne(0.5);
    RoundOfInt(100);
    AnomalousIsNeutralAtBest(Spotter(150), c);
    DefaultReach(50);
    DefaultReach(100);
  }

  // ----- reach -----

  predicate OrderedReach(c: TrustSettings) {
    c.lowMax <= c.highMin && 0.0 <= c.lowMultiplier <= 1.0 <= c.highMultiplier && c.fanout >= 0
  }

  /** A better score never reaches fewer, and every forward reaches someone. */
  lemma ReachFollowsScore(score: int, better: int, c: TrustSettings)
    requires OrderedReach(c) && score <= better
    ensures FanoutFor(BandFor(score, c), c) <= FanoutFor(BandFor(better, c), c)
    ensures c.enabled || c.fanout >= 1 ==> FanoutFor(BandFor(score, c), c) >= 1
  {
    var low, high := ReachMultiplier(BandFor(score, c), c), ReachMultiplier(BandFor(better, c), c);
    TimesInOrder(c.fanout as real, c.fanout as real, low, high);
    FloorIsMonotone(Times(c.fanout as real, low) + 0.5, Times(c.fanout as real, high) + 0.5);
  }

  /** Reach is the scaled default to the nearest whole reader, a half counting up, and at least one. */
  lemma ReachIsNearest(band: Band, c: TrustSettings)
    requires c.enabled && OrderedReach(c)
    ensures
      var exact := Times(c.fanout as real, ReachMultiplier(band, c));
      if exact < 0.5 then FanoutFor(band, c) == 1 else exact - 0.5 < FanoutFor(band, c) as real <= exact + 0.5
  {
    TimesInOrder(0.0, c.fanout as real, 0.0, ReachMultiplier(band, c));
  }

  /** At the defaults a forward goes to two readers below 35, to four from 70, to three between. */
  lemma DefaultReach(score: int)
    ensures FanoutFor(BandFor(score, Defaults()), Defaults()) == if score < 35 then 2 else if score < 70 then 3 else 4
  {
    assert Times(3.0, 2.0 / 3.0) == 2.0 && Times(3.0, 4.0 / 3.0) == 4.0 && Times(3.0, 1.0) == 3.0;
  }

  /** The normal band reaches exactly the default, as with trust switched off. */
  lemma NormalReachIsDefault(c: TrustSettings)
    requires c.fanout >= 1
    ensures FanoutFor(Normal, c) == c.fanout
  {
    TimesOne(c.fanout as real);
  }
}
