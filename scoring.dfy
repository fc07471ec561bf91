/** utils/scoring.py: the scoring entry points main.py calls, delegating to
    utils/confidence.py and utils/risk.py. */
module Scoring {
  import opened Schema
  import opened Confidence
  import opened Risk

  /** `score_confidence`: the confidence score, which always lies in
      [0.0, 0.90]. */
  method ScoreConfidence(r: Report) returns (confidence: int)
    ensures confidence == Score(r)
    ensures 0 <= confidence <= 90
  {
    confidence := CalculateConfidence(r);
    ScoreAtMostNinety(r);
  }

  /** `grade_risk`: the grade `calculate_risk` gives. */
  function GradeRisk(r: Report): (risk: (string, string))
    ensures risk == CalculateRisk(r)
    ensures risk.0 == "LOW" || risk.0 == "MEDIUM" || risk.0 == "HIGH"
  {
    CalculateRisk(r)
  }

  /** `grade_risk` depends on the report only through its confidence. */
  lemma GradeRiskReadsOnlyConfidence(r1: Report, r2: Report)
    requires ConfidenceOf(r1) == ConfidenceOf(r2)
    ensures GradeRisk(r1) == GradeRisk(r2)
  {
  }
}
