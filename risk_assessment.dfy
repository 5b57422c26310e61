/**
 * The decision layer of the dashboard (app.py, lines 83-102): a predicted CPU
 * temperature is mapped to one of three risk tiers, each with a fixed cooling
 * recommendation, and to a cooling-demand score clamped to 0..100.
 * The prediction itself comes from the loaded regressor and is an arbitrary
 * real here.
 */
module RiskAssessment {

  datatype Tier = Safe | HighLoad | CriticalOverheatRisk

  /** Position of a tier in ascending order of risk. */
  function Rank(t: Tier): nat {
    match t
    case Safe => 0
    case HighLoad => 1
    case CriticalOverheatRisk => 2
  }

  /** The status line shown for a tier. */
  function Status(t: Tier): string {
    match t
    case Safe => "Status: SAFE"
    case HighLoad => "Status: HIGH LOAD"
    case CriticalOverheatRisk => "Status: CRITICAL OVERHEAT RISK"
  }

  /** The cooling recommendation shown for a tier. */
  function Recommendation(t: Tier): string {
    match t
    case Safe => "Cooling Recommendation: Normal airflow is sufficient."
    case HighLoad =>
      "Cooling Recommendation: Increase fan speed to 60\U{2013}70% and monitor temperature closely."
    case CriticalOverheatRisk =>
      "Cooling Recommendation: Activate secondary cooling and reduce CPU frequency immediately."
  }

  datatype Thresholds = Thresholds(safe: real, critical: real)

  /** SAFE_THRESHOLD and CRITICAL_THRESHOLD as the dashboard sets them. */
  const AppThresholds: Thresholds := Thresholds(75.0, 85.0)

  /** The `if / elif / else` chain of app.py:88-98. */
  function Classify(p: real, th: Thresholds): (r: (Tier, string))
    ensures r.1 == Recommendation(r.0)
    ensures r.0 == Safe <==> p < th.safe
    ensures r.0 == HighLoad <==> th.safe <= p < th.critical
    ensures r.0 == CriticalOverheatRisk <==> th.safe <= p && th.critical <= p
  {
    if p < th.safe then (Safe, Recommendation(Safe))
    else if th.safe <= p < th.critical then (HighLoad, Recommendation(HighLoad))
    else (CriticalOverheatRisk, Recommendation(CriticalOverheatRisk))
  }

  /** A higher prediction never gives a lower tier. */
  lemma TierMonotone(p: real, q: real, th: Thresholds)
    requires p <= q
    ensures Rank(Classify(p, th).0) <= Rank(Classify(q, th).0)
  {}

  /** With ordered thresholds the tier's rank is the number of thresholds reached. */
  lemma TierCountsThresholdsReached(p: real, th: Thresholds)
    requires th.safe <= th.critical
    ensures Rank(Classify(p, th).0)
            == (if th.safe <= p then 1 else 0) + (if th.critical <= p then 1 else 0)
  {}

  /** The tier boundaries of the dashboard are half-open: each threshold belongs to the tier above. */
  lemma AppTierBoundaries()
    ensures Classify(74.99, AppThresholds).0 == Safe
    ensures Classify(75.0, AppThresholds).0 == HighLoad
    ensures Classify(84.99, AppThresholds).0 == HighLoad
    ensures Classify(85.0, AppThresholds).0 == CriticalOverheatRisk
  {}

  /** The recommendation alone tells which tier was chosen. */
  lemma RecommendationDeterminesTier(s: Tier, t: Tier)
    requires Recommendation(s) == Recommendation(t)
    ensures s == t
  {}

  /** The status line alone tells which tier was chosen. */
  lemma StatusDeterminesTier(s: Tier, t: Tier)
    requires Status(s) == Status(t)
    ensures s == t
  {}

  /** Python's `int()` on a float: truncation toward zero. */
  function TruncateTowardZero(x: real): (n: int)
    ensures 0.0 <= x ==> n as real <= x < n as real + 1.0
    ensures x < 0.0 ==> n as real - 1.0 < x <= n as real
  {
    if 0.0 <= x then x.Floor else -((-x).Floor)
  }

  lemma TruncateMonotone(x: real, y: real)
    requires x <= y
    ensures TruncateTowardZero(x) <= TruncateTowardZero(y)
  {
    if 0.0 <= x {
      assert x.Floor as real <= y;
    } else if y < 0.0 {
      assert (-y).Floor as real <= -x;
    }
  }

  function Clamp(n: int, lo: int, hi: int): int {
    if n < lo then lo else if hi < n then hi else n
  }

  /** `min(max(int((p - SAFE) / 20 * 100), 0), 100)`, app.py:101-102. */
  function CoolingScore(p: real, th: Thresholds): (s: int)
    ensures 0 <= s <= 100
  {
    Clamp(TruncateTowardZero((p - th.safe) / 20.0 * 100.0), 0, 100)
  }

  /** No cooling demand at or below the safe threshold. */
  lemma CoolingScoreZeroUpToSafe(p: real, th: Thresholds)
    requires p <= th.safe
    ensures CoolingScore(p, th) == 0
  {}

  /** Full cooling demand from 20 degrees above the safe threshold on. */
  lemma CoolingScoreFullFrom20Above(p: real, th: Thresholds)
    requires th.safe + 20.0 <= p
    ensures CoolingScore(p, th) == 100
  {}

  lemma CoolingScoreMonotone(p: real, q: real, th: Thresholds)
    requires p <= q
    ensures CoolingScore(p, th) <= CoolingScore(q, th)
  {
    TruncateMonotone((p - th.safe) / 20.0 * 100.0, (q - th.safe) / 20.0 * 100.0);
  }

  /** Between the safe threshold and 20 degrees above it the score is 5 points per degree, rounded down. */
  lemma CoolingScoreTruncates(p: real, th: Thresholds)
    requires th.safe <= p <= th.safe + 20.0
    ensures CoolingScore(p, th) == ((p - th.safe) * 5.0).Floor
  {
    assert (p - th.safe) / 20.0 * 100.0 == (p - th.safe) * 5.0;
  }

  /** At the dashboard's thresholds the score truncates: it never rounds up. */
  lemma AppCoolingScoreExamples()
    ensures CoolingScore(80.0, AppThresholds) == 25
    ensures CoolingScore(75.19, AppThresholds) == 0
    ensures CoolingScore(94.99, AppThresholds) == 99
    ensures CoolingScore(60.0, AppThresholds) == 0
    ensures CoolingScore(120.0, AppThresholds) == 100
  {
    CoolingScoreTruncates(80.0, AppThresholds);
    CoolingScoreTruncates(75.19, AppThresholds);
    CoolingScoreTruncates(94.99, AppThresholds);
  }

  /**
   * The score agrees with the tier: zero for a safe prediction, at most the
   * score at the critical threshold for a high-load one and at least that for a
   * critical one.
   */
  lemma CoolingScoreAgreesWithTier(p: real, th: Thresholds)
    requires th.safe <= th.critical
    ensures Classify(p, th).0 == Safe ==> CoolingScore(p, th) == 0
    ensures Classify(p, th).0 == HighLoad ==> CoolingScore(p, th) <= CoolingScore(th.critical, th)
    ensures Classify(p, th).0 == CriticalOverheatRisk
            ==> CoolingScore(th.critical, th) <= CoolingScore(p, th)
  {
    if p < th.critical {
      CoolingScoreMonotone(p, th.critical, th);
    } else {
      CoolingScoreMonotone(th.critical, p, th);
    }
  }

  /** At the dashboard's thresholds: high load scores below 50, critical at least 50. */
  lemma AppCoolingScoreByTier(p: real)
    ensures Classify(p, AppThresholds).0 == HighLoad ==> CoolingScore(p, AppThresholds) < 50
    ensures Classify(p, AppThresholds).0 == CriticalOverheatRisk ==> 50 <= CoolingScore(p, AppThresholds)
  {
    var th := AppThresholds;
    if 75.0 <= p < 85.0 {
      CoolingScoreTruncates(p, th);
    } else if 85.0 <= p {
      CoolingScoreMonotone(85.0, p, th);
      CoolingScoreTruncates(85.0, th);
    }
  }
}
