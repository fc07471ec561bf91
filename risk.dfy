/** utils/risk.py: the confidence-to-grade thresholds. */
module Risk {
  import opened Probe
  import opened Schema

  /** `report.get("confidence", 0.0)`, in hundredths. */
  function ConfidenceOf(r: Report): int
  {
    match r.confidence
    case Some(c) => c
    case None => 0
  }

  /** `calculate_risk`: the grade and its fixed explanation. */
  function CalculateRisk(r: Report): (risk: (string, string))
    ensures risk.0 == "HIGH" <==> ConfidenceOf(r) >= 75
    ensures risk.0 == "MEDIUM" <==> 45 <= ConfidenceOf(r) < 75
    ensures risk.0 == "LOW" <==> ConfidenceOf(r) < 45
    ensures risk.0 == "HIGH" ==> risk.1 == "Strong identity correlation across platforms and signals"
    ensures risk.0 == "MEDIUM" ==> risk.1 == "Partial correlation across platforms"
    ensures risk.0 == "LOW" ==> risk.1 == "Minimal public correlation found"
  {
    var confidence := ConfidenceOf(r);
    if confidence >= 75 then
      ("HIGH", "Strong identity correlation across platforms and signals")
    else if confidence >= 45 then
      ("MEDIUM", "Partial correlation across platforms")
    else
      ("LOW", "Minimal public correlation found")
  }

  /** The ordinal position of a grade: LOW < MEDIUM < HIGH. */
  function Rank(grade: string): int
  {
    if grade == "HIGH" then 2 else if grade == "MEDIUM" then 1 else 0
  }

  /** A higher confidence never gets a lower grade. */
  lemma RiskMonotone(r1: Report, r2: Report)
    requires ConfidenceOf(r1) <= ConfidenceOf(r2)
    ensures Rank(CalculateRisk(r1).0) <= Rank(CalculateRisk(r2).0)
  {
  }

  /** Only the confidence field is read: equal confidence, equal grade and
      explanation. */
  lemma RiskReadsOnlyConfidence(r1: Report, r2: Report)
    requires ConfidenceOf(r1) == ConfidenceOf(r2)
    ensures CalculateRisk(r1) == CalculateRisk(r2)
  {
  }

  /** A report without a confidence key grades as 0.0 does: LOW. */
  lemma MissingConfidenceIsLow(r: Report)
    requires r.confidence == None
    ensures CalculateRisk(r) == ("LOW", "Minimal public correlation found")
  {
  }
}
