/** The three risk bands of the percentage, as the colour class of the result
    box (`updateColorCoding`, app.js:233-241) and as the clinical guidance
    shown (`updateClinicalGuidance`, app.js:244-254, with the guidance table
    of app.js:58-89). */
module Tiers {

  datatype Tier = Low | Moderate | High

  /** The bands by which both chains classify a percentage: below 1, from 1
      up to 5, and 5 or more. */
  function RiskTier(pct: real): (t: Tier)
    ensures t == Low <==> pct < 1.0
    ensures t == Moderate <==> 1.0 <= pct < 5.0
    ensures t == High <==> 5.0 <= pct
  {
    if pct < 1.0 then Low else if pct < 5.0 then Moderate else High
  }

  /** The bands in increasing order of risk. */
  function Rank(t: Tier): nat
  {
    match t
    case Low => 0
    case Moderate => 1
    case High => 2
  }

  /** A higher percentage never falls in a lower band. */
  lemma TierMonotone(a: real, b: real)
    requires a <= b
    ensures Rank(RiskTier(a)) <= Rank(RiskTier(b))
  {
  }

  /** Each threshold belongs to the band above it: exactly 1% is moderate
      and exactly 5% is high. */
  lemma TierBoundaries()
    ensures RiskTier(1.0) == Moderate && RiskTier(5.0) == High
    ensures forall pct :: pct < 1.0 ==> RiskTier(pct) == Low
    ensures forall pct :: 1.0 <= pct < 5.0 ==> RiskTier(pct) == Moderate
  {
  }

  /** The colour classes of the result box (`results success`, `results
      warning`, `results error`). */
  datatype ColourClass = Success | Warning | Error

  /** The CSS class name of a colour. */
  function ClassName(c: ColourClass): (s: string)
    ensures |s| > 8 && s[..8] == "results "
  {
    match c
    case Success => "results success"
    case Warning => "results warning"
    case Error => "results error"
  }

  /** The colour that stands for each band. */
  function TierColour(t: Tier): ColourClass
  {
    match t
    case Low => Success
    case Moderate => Warning
    case High => Error
  }

  /** `updateColorCoding`, with its redundant test `riskPercentage >= 1` in
      the middle branch: the class is always the colour of the percentage's
      band, so it agrees with the guidance tier. */
  function ColorCoding(riskPercentage: real): (c: ColourClass)
    ensures c == TierColour(RiskTier(riskPercentage))
  {
    if riskPercentage < 1.0 then Success
    else if riskPercentage >= 1.0 && riskPercentage < 5.0 then Warning
    else Error
  }

  /** The band `updateClinicalGuidance` picks for a probability: that of the
      percentage `probability * 100`. */
  function GuidanceTier(probability: real): (t: Tier)
    ensures t == RiskTier(probability * 100.0)
  {
    var pct := probability * 100.0;
    if pct < 1.0 then Low else if pct < 5.0 then Moderate else High
  }

  /** The colour shown and the guidance shown for one probability belong to
      the same band: success with low, warning with moderate, error with
      high. */
  lemma ColourMatchesGuidance(probability: real)
    ensures ColorCoding(probability * 100.0) == TierColour(GuidanceTier(probability))
    ensures ColorCoding(probability * 100.0) == Success <==> GuidanceTier(probability) == Low
    ensures ColorCoding(probability * 100.0) == Warning <==> GuidanceTier(probability) == Moderate
    ensures ColorCoding(probability * 100.0) == Error <==> GuidanceTier(probability) == High
  {
  }

  /** One entry of the guidance table: a heading and its list of
      recommendations. */
  datatype Guidance = Guidance(title: string, recommendations: seq<string>)

  const LowGuidance: Guidance := Guidance(
    "Low Risk (< 1%)",
    [ "Standard perioperative monitoring is appropriate",
      "Routine preoperative evaluation sufficient",
      "No additional stroke-specific precautions required",
      "Consider standard ASA monitoring guidelines" ])

  const ModerateGuidance: Guidance := Guidance(
    "Moderate Risk (1-5%)",
    [ "Enhanced perioperative monitoring recommended",
      "Consider preoperative neurology consultation",
      "Implement stroke-specific monitoring protocols",
      "Monitor blood pressure closely during procedure",
      "Consider extended post-operative observation" ])

  const HighGuidance: Guidance := Guidance(
    "High Risk (≥ 5%)",
    [ "Intensive perioperative monitoring required",
      "Preoperative neurology consultation strongly recommended",
      "Consider postponing elective procedures if possible",
      "Implement comprehensive stroke prevention protocols",
      "Extended post-operative monitoring in ICU setting",
      "Multidisciplinary team consultation recommended" ])

  /** The guidance table `clinicalGuidance`: the entry of each band. */
  function GuidanceFor(t: Tier): (g: Guidance)
    ensures |g.recommendations| == 4 + Rank(t)
  {
    match t
    case Low => LowGuidance
    case Moderate => ModerateGuidance
    case High => HighGuidance
  }

  /** The three entries are distinct, so the heading shown identifies the
      band. */
  lemma GuidanceDistinct(s: Tier, t: Tier)
    requires GuidanceFor(s).title == GuidanceFor(t).title
    ensures s == t
  {
  }
}
