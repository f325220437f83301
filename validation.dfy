/** Reading and checking the form (`collectAndValidateInputs`,
    app.js:118-151). */
module Validation {
  import opened Wrappers
  import opened Tables

  /** The fifteen checkboxes of the form, in the order `collectAndValidateInputs` reads them. */
  datatype Checkboxes = Checkboxes(
    elective: bool,
    diabetesMellitus: bool,
    hypertension: bool,
    hyperlipidemia: bool,
    historyStroke: bool,
    carotidStenosis: bool,
    intracranialAthero: bool,
    cad: bool,
    chf: bool,
    afib: bool,
    chronicLungDisease: bool,
    ckd: bool,
    activeCancer: bool,
    coagulopathy: bool,
    substanceAbuse: bool)

  /** Everything the form supplies besides the age: the payer and procedure
      select values, as code strings, and the checkboxes. */
  datatype Answers = Answers(pay1: string, boxes: Checkboxes, procedure: string)

  /** The raw form. `age` is what parsing the age field produced: `None` when
      `parseFloat` yields NaN. */
  datatype Form = Form(age: Option<real>, answers: Answers)

  /** The record handed to the risk calculation. */
  datatype Inputs = Inputs(age: real, answers: Answers)

  /** The outcome of validation: a message for the user, or the record. */
  datatype Validated = Invalid(message: string) | Valid(inputs: Inputs)

  const TooYoung: string := "Age must be 18 or older"
  const OutOfRange: string := "Please enter a valid age (18-120 years)"

  /** Whether the checkbox of a risk factor is ticked. */
  function Checked(a: Answers, f: Flag): bool
  {
    var b := a.boxes;
    match f
    case Elective => b.elective
    case DiabetesMellitus => b.diabetesMellitus
    case Hypertension => b.hypertension
    case Hyperlipidemia => b.hyperlipidemia
    case HistoryStroke => b.historyStroke
    case CarotidStenosis => b.carotidStenosis
    case IntracranialAthero => b.intracranialAthero
    case Cad => b.cad
    case Chf => b.chf
    case Afib => b.afib
    case ChronicLungDisease => b.chronicLungDisease
    case Ckd => b.ckd
    case ActiveCancer => b.activeCancer
    case Coagulopathy => b.coagulopathy
    case SubstanceAbuse => b.substanceAbuse
  }

  /** `parseFloat(…) || 0`: a value that did not parse (NaN) counts as 0. */
  function AgeOf(parsed: Option<real>): real
  {
    match parsed
    case None => 0.0
    case Some(v) => v
  }

  /** The form is accepted exactly when a number between 18 and 120 (both
      included) was entered; a missing entry or any age under 18 is answered
      with the "18 or older" message, any other rejected age with the range
      message. */
  function CollectAndValidateInputs(form: Form): (r: Validated)
    ensures r.Valid? <==> form.age.Some? && 18.0 <= form.age.value <= 120.0
    ensures r.Valid? ==> r.inputs == Inputs(form.age.value, form.answers)
    ensures r.Invalid? ==> (r.message == TooYoung <==> form.age.None? || form.age.value < 18.0)
    ensures r.Invalid? ==> (r.message == OutOfRange <==> form.age.Some? && form.age.value > 120.0)
  {
    var age := AgeOf(form.age);
    if age == 0.0 || age < 18.0 || age > 120.0 then
      Invalid(if age < 18.0 then TooYoung else OutOfRange)
    else
      Valid(Inputs(age, form.answers))
  }
}
