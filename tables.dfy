/** The fitted model: the coefficient table and the standard-error table of
    the logistic regression for major surgery (app.js:6-55). */
module Tables {
  import opened Sums

  /** The fifteen yes/no risk factors of the form; each is one checkbox. */
  datatype Flag =
    | Elective | DiabetesMellitus | Hypertension | Hyperlipidemia | HistoryStroke
    | CarotidStenosis | IntracranialAthero | Cad | Chf | Afib
    | ChronicLungDisease | Ckd | ActiveCancer | Coagulopathy | SubstanceAbuse

  /** The covariate keys shared by `coefs`, `ses` and the design vector:
      `intercept`, `age`, the payer dummies `pay1_2`..`pay1_4`, one key per
      risk factor (`elective`, `diabetes_mellitus`, …) and the procedure
      dummies `procedure_1`, `procedure_2`. */
  datatype Key =
    | Intercept | Age | Pay1_2 | Pay1_3 | Pay1_4 | Indicator(flag: Flag)
    | Procedure_1 | Procedure_2

  /** A number-valued object literal: the order in which `for…in` visits its
      keys (the order in which they are written) and its entries. */
  datatype Table = Table(order: seq<Key>, entries: map<Key, real>)

  /** Each key of the object is visited once, and only its keys are visited. */
  predicate WellFormed(t: Table)
  {
    Distinct(t.order) && (forall k <- t.order :: k in t.entries) && (forall k <- t.entries :: k in t.order)
  }

  /** The order in which both literals list their keys. */
  const DeclarationOrder: seq<Key> := [
    Intercept, Age, Pay1_2, Pay1_3, Pay1_4,
    Indicator(Elective), Indicator(DiabetesMellitus), Indicator(Hypertension),
    Indicator(Hyperlipidemia), Indicator(HistoryStroke), Indicator(CarotidStenosis),
    Indicator(IntracranialAthero), Indicator(Cad), Indicator(Chf), Indicator(Afib),
    Indicator(ChronicLungDisease), Indicator(Ckd), Indicator(ActiveCancer),
    Indicator(Coagulopathy), Indicator(SubstanceAbuse),
    Procedure_1, Procedure_2
  ]

  /** Every key, as a set. */
  const AllKeys: set<Key> := {
    Intercept, Age, Pay1_2, Pay1_3, Pay1_4,
    Indicator(Elective), Indicator(DiabetesMellitus), Indicator(Hypertension),
    Indicator(Hyperlipidemia), Indicator(HistoryStroke), Indicator(CarotidStenosis),
    Indicator(IntracranialAthero), Indicator(Cad), Indicator(Chf), Indicator(Afib),
    Indicator(ChronicLungDisease), Indicator(Ckd), Indicator(ActiveCancer),
    Indicator(Coagulopathy), Indicator(SubstanceAbuse),
    Procedure_1, Procedure_2
  }

  /** The coefficient table `coefs`. */
  const Coefs: Table := Table(DeclarationOrder, map k | k in AllKeys :: Coefficient(k))

  /** The coefficient β̂ of each key, as `coefs` lists them. */
  function Coefficient(k: Key): real
  {
    match k
    case Intercept => -4.783163
    case Age => 0.009141
    case Pay1_2 => 0.2209998
    case Pay1_3 => 0.0695964
    case Pay1_4 => 0.2176763
    case Indicator(Elective) => -1.619188
    case Indicator(DiabetesMellitus) => 0.1663859
    case Indicator(Hypertension) => 0.1770938
    case Indicator(Hyperlipidemia) => 0.0393305
    case Indicator(HistoryStroke) => 0.9639001
    case Indicator(CarotidStenosis) => 0.2989306
    case Indicator(IntracranialAthero) => 2.307316
    case Indicator(Cad) => -0.0514714
    case Indicator(Chf) => 0.3429653
    case Indicator(Afib) => 0.3415837
    case Indicator(ChronicLungDisease) => -0.1621339
    case Indicator(Ckd) => -0.0669556
    case Indicator(ActiveCancer) => -0.4788068
    case Indicator(Coagulopathy) => 0.673191
    case Indicator(SubstanceAbuse) => 0.2373642
    case Procedure_1 => 1.733389
    case Procedure_2 => -0.1090445
  }

  /** The standard-error table `ses`. */
  const Ses: Table := Table(DeclarationOrder, map k | k in AllKeys :: StandardError(k))

  /** The standard error of each coefficient, as `ses` lists them; only the
      diagonal of the covariance is used. */
  function StandardError(k: Key): real
  {
    match k
    case Intercept => 0.0271225
    case Age => 0.0003674
    case Pay1_2 => 0.0139064
    case Pay1_3 => 0.0109248
    case Pay1_4 => 0.0264467
    case Indicator(Elective) => 0.0135811
    case Indicator(DiabetesMellitus) => 0.008057
    case Indicator(Hypertension) => 0.0112507
    case Indicator(Hyperlipidemia) => 0.0092474
    case Indicator(HistoryStroke) => 0.0112624
    case Indicator(CarotidStenosis) => 0.0182209
    case Indicator(IntracranialAthero) => 0.0595952
    case Indicator(Cad) => 0.0091841
    case Indicator(Chf) => 0.010377
    case Indicator(Afib) => 0.0094638
    case Indicator(ChronicLungDisease) => 0.0097578
    case Indicator(Ckd) => 0.009337
    case Indicator(ActiveCancer) => 0.0119971
    case Indicator(Coagulopathy) => 0.0142159
    case Indicator(SubstanceAbuse) => 0.0097368
    case Procedure_1 => 0.0145644
    case Procedure_2 => 0.0119013
  }

  /** The property name under which `coefs`, `ses` and the covariate
      literal all write each key. */
  function Name(k: Key): string
  {
    match k
    case Intercept => "intercept"
    case Age => "age"
    case Pay1_2 => "pay1_2"
    case Pay1_3 => "pay1_3"
    case Pay1_4 => "pay1_4"
    case Indicator(Elective) => "elective"
    case Indicator(DiabetesMellitus) => "diabetes_mellitus"
    case Indicator(Hypertension) => "hypertension"
    case Indicator(Hyperlipidemia) => "hyperlipidemia"
    case Indicator(HistoryStroke) => "history_stroke"
    case Indicator(CarotidStenosis) => "carotid_stenosis"
    case Indicator(IntracranialAthero) => "intracranial_athero"
    case Indicator(Cad) => "cad"
    case Indicator(Chf) => "chf"
    case Indicator(Afib) => "afib"
    case Indicator(ChronicLungDisease) => "chronic_lung_disease"
    case Indicator(Ckd) => "ckd"
    case Indicator(ActiveCancer) => "active_cancer"
    case Indicator(Coagulopathy) => "coagulopathy"
    case Indicator(SubstanceAbuse) => "substance_abuse"
    case Procedure_1 => "procedure_1"
    case Procedure_2 => "procedure_2"
  }

  /** Distinct keys have distinct property names, so one `Key` stands for
      exactly one property of the three object literals. */
  lemma NameInjective(k: Key, j: Key)
    requires Name(k) == Name(j)
    ensures k == j
  {
  }

  /** Where a key stands in the declaration order. */
  function Position(k: Key): nat
  {
    match k
    case Intercept => 0
    case Age => 1
    case Pay1_2 => 2
    case Pay1_3 => 3
    case Pay1_4 => 4
    case Indicator(f) => 5 + FlagPosition(f)
    case Procedure_1 => 20
    case Procedure_2 => 21
  }

  function FlagPosition(f: Flag): nat
  {
    match f
    case Elective => 0
    case DiabetesMellitus => 1
    case Hypertension => 2
    case Hyperlipidemia => 3
    case HistoryStroke => 4
    case CarotidStenosis => 5
    case IntracranialAthero => 6
    case Cad => 7
    case Chf => 8
    case Afib => 9
    case ChronicLungDisease => 10
    case Ckd => 11
    case ActiveCancer => 12
    case Coagulopathy => 13
    case SubstanceAbuse => 14
  }

  /** Every key there is belongs to the set of all keys. */
  lemma AllKeysComplete()
    ensures forall k: Key :: k in AllKeys
  {
    forall k: Key ensures k in AllKeys {
      if k.Indicator? {
        match k.flag {
          case Elective =>
          case DiabetesMellitus =>
          case Hypertension =>
          case Hyperlipidemia =>
          case HistoryStroke =>
          case CarotidStenosis =>
          case IntracranialAthero =>
          case Cad =>
          case Chf =>
          case Afib =>
          case ChronicLungDisease =>
          case Ckd =>
          case ActiveCancer =>
          case Coagulopathy =>
          case SubstanceAbuse =>
        }
      }
    }
  }

  /** Every key there is, once each, in the declaration order. */
  lemma DeclarationOrderComplete()
    ensures |DeclarationOrder| == 22 && Distinct(DeclarationOrder)
    ensures forall k: Key :: k in DeclarationOrder
  {
    assert forall n :: 0 <= n < |DeclarationOrder| ==> Position(DeclarationOrder[n]) == n;
    forall k: Key ensures k in DeclarationOrder {
      assert DeclarationOrder[Position(k)] == k;
    }
  }

  /** The two tables have the same 22 keys, and each `for…in` loop over them
      visits every key exactly once. */
  lemma TablesAgree()
    ensures WellFormed(Coefs) && WellFormed(Ses)
    ensures Coefs.order == Ses.order
    ensures forall k: Key :: k in Coefs.entries && k in Ses.entries
    ensures Coefs.entries.Keys == Ses.entries.Keys
    ensures |Coefs.entries.Keys| == |Coefs.order| == 22
  {
    DeclarationOrderComplete();
    DistinctCardinality(DeclarationOrder);
    assert Coefs.entries.Keys == set k | k in DeclarationOrder;
  }

  /** Each table holds, for every key, the value listed for it. */
  lemma TableValues()
    ensures forall k: Key :: k in Coefs.entries && Coefs.entries[k] == Coefficient(k)
    ensures forall k: Key :: k in Ses.entries && Ses.entries[k] == StandardError(k)
  {
    AllKeysComplete();
  }

  /** Every standard error is strictly positive; the intercept's underlies the
      strict ordering of the interval bounds. */
  lemma StandardErrorsPositive()
    ensures forall k :: k in Ses.entries ==> Ses.entries[k] > 0.0
  {
  }
}
