/** `calculateRisk` (app.js:101-115): validate the form, then either show
    the message or compute the risk and show it with its colour and its
    guidance. */
module Calculator {
  import opened Validation
  import opened Design
  import opened Predictor
  import opened Tiers

  /** What the results panel ends up showing. */
  datatype Display =
    | ErrorShown(message: string)
    | ResultShown(result: RiskResult, colour: ColourClass, className: string, guidance: Guidance)

  /** One run of `calculateRisk` on a form. A rejected age shows exactly the
      validation message; an accepted one shows the risk of the validated
      inputs, coloured and explained by the band of its percentage, which
      lies strictly between 0 and 100. */
  method CalculateRisk(form: Form, sqrt: real -> real, exp: real -> real) returns (d: Display)
    requires IsSquareRoot(sqrt) && IsExponential(exp)
    ensures d.ErrorShown? <==> CollectAndValidateInputs(form).Invalid?
    ensures d.ErrorShown? ==> d.message == CollectAndValidateInputs(form).message
    ensures d.ResultShown? ==>
      var tier := RiskTier(d.result.probability * 100.0);
      && d.result == RiskOf(CollectAndValidateInputs(form).inputs, sqrt, exp)
      && 0.0 < d.result.probability * 100.0 < 100.0
      && d.colour == TierColour(tier)
      && d.className == ClassName(TierColour(tier))
      && d.guidance == GuidanceFor(tier)
  {
    var inputs := CollectAndValidateInputs(form);
    if !inputs.Valid? {
      return ErrorShown(inputs.message);
    }
    var riskResult := CalculateRiskProbability(inputs.inputs, sqrt, exp);
    var pct := riskResult.probability * 100.0;
    var colour := ColorCoding(pct);
    var guidance := GuidanceFor(GuidanceTier(riskResult.probability));
    d := ResultShown(riskResult, colour, ClassName(colour), guidance);
  }
}
