# Perioperative stroke risk calculator — verified model of the scoring engine

The calculator estimates the risk of a perioperative stroke for a patient
having major surgery. It uses a fitted logistic regression. The form supplies:

- an age;
- a payer code;
- a procedure code;
- fifteen yes/no risk factors.

The engine then:

1. checks the age (18 to 120);
2. builds a covariate vector of 22 entries (intercept, age, three payer
   dummies, fifteen risk-factor indicators, two procedure dummies);
3. accumulates the linear predictor `xb` over the coefficient table and the
   diagonal delta-method variance `var_xb` over the standard-error table;
4. forms the 95% interval `xb ∓ 1.96·sqrt(var_xb)`;
5. turns `xb` and both bounds into probabilities with `1 / (1 + exp(-t))`;
6. classifies the percentage into a low, moderate or high band. The band
   decides the colour of the result box and the clinical guidance shown.

This project models that engine in Dafny, with numbers as exact reals:

- `sums.dfy` defines left-to-right totals over an ordered key list and proves
  facts about them.
- `tables.dfy` holds the two tables. Each is an ordered object whose `for…in`
  order is the order in which the literal writes its keys.
- `validation.dfy` models the age check.
- `design.dfy` builds the covariate vector.
- `predictor.dfy` has the two accumulating loops (as methods with loop
  invariants), the interval, the logistic transform and
  `calculateRiskProbability`.
- `tiers.dfy` has the band, colour and guidance logic.
- `calculator.dfy` has the top-level `calculateRisk`.

`Math.sqrt` and `Math.exp` are parameters, not implementations. Each comes
with the only properties the proofs use:

- the square root is non-negative and squares back to its argument;
- the exponential is positive and strictly increasing.

The age arrives already parsed: `None` stands for an entry that `parseFloat`
could not read, which the code turns into 0.

At age 65 and the reference levels the tables give
`xb = -4.783163 + 0.009141·65 = -4.188998`; ticking history of stroke adds
0.9639001, giving `-3.2250979`. `Predictor.ReferenceAtSixtyFive` and
`Predictor.HistoryStrokeAtSixtyFive` prove these values.

## Model

| member | source | states |
|---|---|---|
| Tables.AllKeysComplete | app.js:6-29 | every covariate key is one of the 22 keys the tables list |
| Tables.DeclarationOrderComplete | app.js:6-29 | the `for…in` order of the literal has 22 keys, none repeated, and contains every key |
| Tables.TablesAgree | app.js:6-55 | `coefs` and `ses` are well formed (each key visited once, only their keys visited), are visited in the same order, and have the same 22 keys |
| Tables.TableValues | app.js:6-55 | each table maps every key to the value its literal writes for it |
| Tables.NameInjective | app.js:6-29 | each key has its own property name (`intercept`, `age`, `pay1_2`, …, `procedure_2`, the names `coefs`, `ses` and the covariate literal all use), and distinct keys have distinct names |
| Tables.StandardErrorsPositive | app.js:32-55 | every standard error is strictly positive |
| Validation.CollectAndValidateInputs | app.js:119-127 | accepted iff a number with 18 ≤ age ≤ 120 was entered (a missing entry counts as 0); then the record carries that age and the answers; a rejection says "Age must be 18 or older" exactly when the entry is missing or under 18, and "Please enter a valid age (18-120 years)" exactly when it is over 120 |
| Design.DesignVector | app.js:156-180 | the vector has an entry for every key, equal to that key's entry of the object literal; intercept 1, age as given |
| Design.KeySetsAgree | app.js:6-55 | the design vector, `coefs` and `ses` have the same 22 keys, so neither loop reads an undefined entry |
| Design.BinaryEntries | app.js:162-176 | each risk factor's entry is 1 iff its box is ticked, and every entry except the age is 0 or 1 |
| Design.PayerDummies | app.js:159-161 | `pay1_k` is 1 iff the payer code is k, so at most one is 1; the three sum to 1 for codes "2", "3", "4" and to 0 for the reference "1" or any unrecognised code |
| Design.ProcedureDummies | app.js:177-178 | `procedure_k` is 1 iff the code is k; the two sum to 1 for "1" or "2" and to 0 for any other code |
| Design.ReferenceVector | app.js:156-180 | with no factor ticked and both codes at reference, every entry but the intercept and the age is 0 |
| Design.TickOneFlag | app.js:162-176 | ticking one more factor, all else unchanged, switches exactly that factor's entry from 0 to 1 |
| Design.SetPayer | app.js:159-161 | moving the payer from a non-dummy code to level c switches exactly `pay1_c` from 0 to 1 |
| Design.SetProcedure | app.js:177-178 | moving the procedure from a non-dummy code to level c switches exactly `procedure_c` from 0 to 1 |
| Predictor.LinearPredictor | app.js:183-186 | the first loop leaves `xb` equal to the left-to-right total, over the table's key order, of `coefs[key] * x[key]` |
| Predictor.PredictorVariance | app.js:189-192 | the second loop leaves `var_xb` equal to the left-to-right total of `ses[key]² · x[key]²` |
| Predictor.SquaredProducts | app.js:191 | the variance terms are defined at exactly the keys of both maps, each is `ses[key]² · x[key]²`, and none is negative |
| Predictor.VarianceAtLeastIntercept | app.js:189-192 | `var_xb` ≥ `ses.intercept²` > 0 for every validated record |
| Predictor.PositiveRoot | app.js:193 | a positive variance has a positive `se_xb` |
| Predictor.ConfidenceBounds | app.js:196-198 | the bounds are symmetric about `xb` with half-width `1.96·se_xb`; they enclose `xb`, strictly iff `se_xb` > 0 |
| Predictor.Probability | app.js:201-203 | `1 / (1 + exp(-t))` lies strictly between 0 and 1 |
| Predictor.ProbabilityOrder | app.js:201-203 | a larger exponential never gives a larger probability, and a strictly larger one gives a strictly smaller probability, so the transform is increasing in `t` |
| Predictor.Transform | app.js:196-212 | the result carries `xb`, its transform and the transformed bounds; 0 < lower ≤ probability ≤ upper < 1, with strict inequalities when `se_xb` > 0 |
| Predictor.RiskOf | app.js:154-213 | the risk of a validated record has 0 < lower < probability < upper < 1 |
| Predictor.CalculateRiskProbability | app.js:154-213 | builds the vector, runs both loops, takes the root and transforms; the result is the risk of the record, its linear predictor is that of the design vector, and its interval lies strictly around the probability, inside (0, 1) |
| Predictor.PredictorStep | app.js:183-192 | switching one entry of the vector from 0 to 1 raises `xb` by exactly that key's coefficient and `var_xb` by exactly its squared standard error |
| Predictor.FlagRaisesPredictor | app.js:162-186 | ticking one risk factor, all else fixed, adds exactly its coefficient to `xb` (and its squared SE to `var_xb`) |
| Predictor.PayerRaisesPredictor | app.js:159-186 | moving the payer from a non-dummy code (the reference "1" or an unrecognised one) to level c adds exactly the coefficient of `pay1_c` to `xb` and its squared SE to `var_xb` |
| Predictor.ProcedureRaisesPredictor | app.js:177-186 | moving the procedure from a non-dummy code (any code but "1" and "2") to level c adds exactly the coefficient of `procedure_c` to `xb` and its squared SE to `var_xb` |
| Predictor.InterceptAndAgeOnly | app.js:7-8 | a vector that is 0 except at the intercept and the age has `xb = -4.783163·x.intercept + 0.009141·x.age` |
| Predictor.ReferenceNeutrality | app.js:156-186 | at the reference levels `xb = -4.783163 + 0.009141·age` |
| Predictor.InterceptAndAgeOnlyVariance | app.js:33-34 | a vector that is 0 except at the intercept and the age has `var_xb = 0.0271225²·x.intercept² + 0.0003674²·x.age²` |
| Predictor.VarianceAtReference | app.js:189-192 | at the reference levels `var_xb = 0.0271225² + 0.0003674²·age²`; with `PredictorStep`, each further entry at 1 adds exactly its squared standard error |
| Predictor.ReferenceAtSixtyFive | app.js:7-8 | at age 65 and the reference levels `xb = -4.188998` |
| Predictor.HistoryStrokeAtSixtyFive | app.js:16 | ticking history of stroke from there gives `xb = -3.2250979` |
| Tiers.RiskTier | app.js:248-254 | low iff pct < 1, moderate iff 1 ≤ pct < 5, high iff pct ≥ 5 |
| Tiers.TierMonotone | app.js:248-254 | a larger percentage never gets a lower band |
| Tiers.TierBoundaries | app.js:248-254 | exactly 1% is moderate and exactly 5% is high; everything below 1 is low |
| Tiers.ClassName | app.js:235-239 | each colour class `updateColorCoding` applies starts with `results ` |
| Tiers.ColorCoding | app.js:233-241 | the colour class is the colour of the percentage's band: success for low, warning for moderate, error for high |
| Tiers.GuidanceTier | app.js:244-254 | the guidance band of a probability is the band of its percentage `probability·100` |
| Tiers.ColourMatchesGuidance | app.js:233-254 | for every probability the colour shown and the guidance shown belong to the same band, in both directions |
| Tiers.GuidanceFor | app.js:58-89 | the low, moderate and high entries have 4, 5 and 6 recommendations |
| Tiers.GuidanceDistinct | app.js:58-89 | the three guidance headings differ, so the heading identifies the band |
| Calculator.CalculateRisk | app.js:101-115 | a rejected age shows exactly the validation message; otherwise the result shown is the risk of the validated record, its percentage lies in (0, 100), and the colour, the class name written to the result box and the guidance are those of its band |

## Left out

- Reading the form and writing to the page are not modelled: the `getElementById` reads, the `textContent`/`innerHTML`/`style`/`className` writes, and `displayError`. The model returns, as a value, what would be displayed.
- Event listeners, keyboard navigation and the blur-time `setCustomValidity` check are not modelled; they are user-interface wiring.
- The `window.BrownStrokeRiskCalculator` export is not modelled; it only exposes the tables.
- String parsing by `parseFloat` is not modelled: the age comes in already parsed, as an optional number.
- Floating point is replaced by exact reals: IEEE rounding, NaN and Infinity, and the `toFixed(1)` formatting of the percentages are not modelled.
- `Math.sqrt` and `Math.exp` are parameters: the model assumes the square root is exact and the exponential positive and strictly increasing, and computes neither.
- The second model variant (with sex, income-quartile and severity fields) is not part of this model; only `app.js` is.
