/**
 * scripts/release-confidence.ts: the two additive scores, the threshold
 * chain that turns them into a recommendation, and the process exit code.
 * The simulated factors the script hard-codes are parameters here, with the
 * script's values in `BaselineStability` and `BaselineRisk`.
 */
module ReleaseConfidence {

  datatype Recommendation = ReadyForRelease | ReleaseWithMonitoring | NeedsReview | DoNotRelease

  /** Math.round: the nearest integer, halves rounded up. */
  function RoundHalfUp(x: real): (n: int)
    ensures x - 0.5 < n as real <= x + 0.5
  {
    (x + 0.5).Floor
  }

  /** The factors of calculateStabilityScore (release-confidence.ts:51-65), rates in 0..1. */
  datatype StabilityFactors = StabilityFactors(
    testPassRate: real,
    invariantCompliance: real,
    noRegressions: bool,
    aiSafe: bool)

  const BaselineStability: StabilityFactors := StabilityFactors(1.0, 1.0, true, true)

  /** The weighting of release-confidence.ts:43-47: 40% tests, 30% invariants, 20% regressions, 10% AI safety. */
  function Weighted(f: StabilityFactors): real
  {
    40.0 * f.testPassRate + 30.0 * f.invariantCompliance
    + (if f.noRegressions then 20.0 else 0.0) + (if f.aiSafe then 10.0 else 0.0)
  }

  predicate RatesInRange(f: StabilityFactors)
  {
    0.0 <= f.testPassRate <= 1.0 && 0.0 <= f.invariantCompliance <= 1.0
  }

  /** calculateStabilityScore (release-confidence.ts:42-68): a score out of 100. */
  method CalculateStabilityScore(f: StabilityFactors) returns (score: int)
    ensures score == RoundHalfUp(Weighted(f))
    ensures RatesInRange(f) ==> 0 <= score <= 100
  {
    var acc := 0.0;
    acc := acc + f.testPassRate * 40.0;
    acc := acc + f.invariantCompliance * 30.0;
    acc := acc + (if f.noRegressions then 20.0 else 0.0);
    acc := acc + (if f.aiSafe then 10.0 else 0.0);
    score := RoundHalfUp(acc);
  }

  /** The contributions of calculateRegressionRiskScore (release-confidence.ts:80-90). */
  datatype RiskFactors = RiskFactors(baseRisk: real, crossBundle: real, security: real, aiChanges: real)

  const BaselineRisk: RiskFactors := RiskFactors(5.0, 0.0, 0.0, 0.0)

  function TotalRisk(f: RiskFactors): real
  {
    f.baseRisk + f.crossBundle + f.security + f.aiChanges
  }

  /** calculateRegressionRiskScore (release-confidence.ts:70-93): lower is better. */
  method CalculateRegressionRiskScore(f: RiskFactors) returns (risk: int)
    ensures risk == RoundHalfUp(TotalRisk(f))
    ensures 0.0 <= f.baseRisk && 0.0 <= f.crossBundle && 0.0 <= f.security && 0.0 <= f.aiChanges ==> 0 <= risk
  {
    var acc := 0.0;
    acc := acc + f.baseRisk;
    acc := acc + f.crossBundle;
    acc := acc + f.security;
    acc := acc + f.aiChanges;
    risk := RoundHalfUp(acc);
  }

  /** getRecommendation (release-confidence.ts:117-127). */
  function GetRecommendation(stability: int, risk: int): (r: Recommendation)
    ensures r == ReadyForRelease <==> stability >= 90 && risk <= 20
    ensures r == ReleaseWithMonitoring <==> !(stability >= 90 && risk <= 20) && stability >= 70 && risk <= 40
    ensures r == NeedsReview <==> stability >= 50 && !(stability >= 70 && risk <= 40)
    ensures r == DoNotRelease <==> stability < 50
  {
    if stability >= 90 && risk <= 20 then ReadyForRelease
    else if stability >= 70 && risk <= 40 then ReleaseWithMonitoring
    else if stability >= 50 then NeedsReview
    else DoNotRelease
  }

  /** The tiers from best (0) to worst (3). */
  function Tier(r: Recommendation): nat
  {
    match r
    case ReadyForRelease => 0
    case ReleaseWithMonitoring => 1
    case NeedsReview => 2
    case DoNotRelease => 3
  }

  /** Raising stability never moves the recommendation to a worse tier. */
  lemma StabilityMonotone(s1: int, s2: int, risk: int)
    requires s1 <= s2
    ensures Tier(GetRecommendation(s2, risk)) <= Tier(GetRecommendation(s1, risk))
  {
  }

  /** Raising risk never moves the recommendation to a better tier. */
  lemma RiskMonotone(stability: int, r1: int, r2: int)
    requires r1 <= r2
    ensures Tier(GetRecommendation(stability, r1)) <= Tier(GetRecommendation(stability, r2))
  {
  }

  /** The exit code of main (release-confidence.ts:164-172): 1 when the report could not be written, or for DO_NOT_RELEASE. */
  function ExitCode(r: Recommendation, reportWritten: bool): (code: int)
    ensures code == 0 || code == 1
    ensures code == 1 <==> !reportWritten || r == DoNotRelease
  {
    if !reportWritten then 1 else if r == DoNotRelease then 1 else 0
  }

  /** One test category of the coverage summary. */
  datatype Tally = Tally(total: nat, passing: nat)

  /** TestCoverage (release-confidence.ts:20-28). */
  datatype TestCoverage = TestCoverage(
    unit: Tally, integration: Tally, e2e: Tally, security: Tally, chaos: Tally, aiRegression: Tally,
    overallPercentage: real)

  datatype RiskLevel = Low | Medium | High | Critical

  /** AIRiskSummary (release-confidence.ts:30-36). */
  datatype AIRiskSummary = AIRiskSummary(
    changesPending: nat, appliedLast24h: nat, rollbacksLast24h: nat, validationFailuresLast24h: nat,
    riskLevel: RiskLevel)

  /** What getTestCoverage returns (release-confidence.ts:95-105). */
  const ReportedCoverage: TestCoverage :=
    TestCoverage(Tally(2, 2), Tally(15, 15), Tally(5, 5), Tally(2, 2), Tally(20, 20), Tally(15, 15), 84.6)

  /** What getAIRiskSummary returns (release-confidence.ts:107-115). */
  const ReportedAIRisk: AIRiskSummary := AIRiskSummary(0, 0, 0, 0, Low)

  /** ConfidenceReport (release-confidence.ts:11-18), as main fills it in and writes it to disk. */
  datatype Report = Report(
    timestamp: string,
    stability: int,
    risk: int,
    coverage: TestCoverage,
    aiRisk: AIRiskSummary,
    recommendation: Recommendation)

  /** main without its console output: the report written and the exit code. */
  method RunReleaseConfidence(sf: StabilityFactors, rf: RiskFactors, now: string, reportWritten: bool)
    returns (report: Report, code: int)
    ensures report == Report(now, RoundHalfUp(Weighted(sf)), RoundHalfUp(TotalRisk(rf)),
                             ReportedCoverage, ReportedAIRisk,
                             GetRecommendation(RoundHalfUp(Weighted(sf)), RoundHalfUp(TotalRisk(rf))))
    ensures code == ExitCode(report.recommendation, reportWritten)
    ensures reportWritten ==> (code == 1 <==> report.stability < 50)
  {
    var stability := CalculateStabilityScore(sf);
    var risk := CalculateRegressionRiskScore(rf);
    var coverage := ReportedCoverage;
    var aiRisk := ReportedAIRisk;
    var recommendation := GetRecommendation(stability, risk);
    report := Report(now, stability, risk, coverage, aiRisk, recommendation);
    code := ExitCode(recommendation, reportWritten);
  }

  /** The script's own factors give stability 100 and risk 5: ready for release, exit code 0. */
  lemma BaselineIsReady()
    ensures RoundHalfUp(Weighted(BaselineStability)) == 100
    ensures RoundHalfUp(TotalRisk(BaselineRisk)) == 5
    ensures GetRecommendation(100, 5) == ReadyForRelease
    ensures ExitCode(ReadyForRelease, true) == 0
  {
    assert Weighted(BaselineStability) == 100.0;
    assert TotalRisk(BaselineRisk) == 5.0;
  }
}
