/** The covariate vector `x` built at the start of
    `calculateRiskProbability` (app.js:156-180). */
module Design {
  import opened Tables
  import opened Validation

  /** The code strings that set a payer dummy and a procedure dummy. */
  const PayerLevels: set<string> := {"2", "3", "4"}
  const ProcedureLevels: set<string> := {"1", "2"}

  /** A yes/no answer as the number 1 or 0. */
  function Bit(b: bool): (v: real)
    ensures v == 1.0 <==> b
    ensures v == 0.0 <==> !b
  {
    if b then 1.0 else 0.0
  }

  /** The dummy for level `level` of a select field: 1 exactly when the
      field holds that code (`code === level ? 1 : 0`). */
  function Dummy(code: string, level: string): (v: real)
    ensures v == Bit(code == level)
  {
    if code == level then 1.0 else 0.0
  }

  /** One entry of the covariate object literal: the value written for key
      `k`. */
  function Entry(i: Inputs, k: Key): real
  {
    var a := i.answers;
    match k
    case Intercept => 1.0
    case Age => i.age
    case Pay1_2 => Dummy(a.pay1, "2")
    case Pay1_3 => Dummy(a.pay1, "3")
    case Pay1_4 => Dummy(a.pay1, "4")
    case Indicator(f) => Bit(Checked(a, f))
    case Procedure_1 => Dummy(a.procedure, "1")
    case Procedure_2 => Dummy(a.procedure, "2")
  }

  /** The design vector: an entry for every key (so for exactly the keys of
      both tables), 1 for the intercept and the age as given. */
  function DesignVector(i: Inputs): (x: map<Key, real>)
    ensures forall k: Key :: k in x && x[k] == Entry(i, k)
    ensures x[Intercept] == 1.0 && x[Age] == i.age
  {
    AllKeysComplete();
    map k | k in AllKeys :: Entry(i, k)
  }

  /** The design vector, `coefs` and `ses` have the same 22 keys, so both
      loops read a defined entry of `x` for every key they visit. */
  lemma KeySetsAgree(i: Inputs)
    ensures DesignVector(i).Keys == Coefs.entries.Keys == Ses.entries.Keys
    ensures |DesignVector(i).Keys| == 22
  {
    TablesAgree();
  }

  /** Each risk factor's entry is 1 exactly when its box is ticked, and every
      entry other than the age is 0 or 1. */
  lemma BinaryEntries(i: Inputs)
    ensures forall f :: DesignVector(i)[Indicator(f)] == Bit(Checked(i.answers, f))
    ensures forall k: Key | k != Age :: DesignVector(i)[k] == 0.0 || DesignVector(i)[k] == 1.0
  {
  }

  /** The payer dummies: the one named by the code is 1, so at most one is 1,
      and all are 0 for the reference code "1" or any unrecognised code. */
  lemma PayerDummies(i: Inputs)
    ensures var x, c := DesignVector(i), i.answers.pay1;
      && (x[Pay1_2] == 1.0 <==> c == "2")
      && (x[Pay1_3] == 1.0 <==> c == "3")
      && (x[Pay1_4] == 1.0 <==> c == "4")
      && x[Pay1_2] + x[Pay1_3] + x[Pay1_4] == (if c in PayerLevels then 1.0 else 0.0)
  {
  }

  /** The procedure dummies, likewise: at most one is 1, and both are 0 for
      every code other than "1" and "2". */
  lemma ProcedureDummies(i: Inputs)
    ensures var x, c := DesignVector(i), i.answers.procedure;
      && (x[Procedure_1] == 1.0 <==> c == "1")
      && (x[Procedure_2] == 1.0 <==> c == "2")
      && x[Procedure_1] + x[Procedure_2] == (if c in ProcedureLevels then 1.0 else 0.0)
  {
  }

  /** Every risk factor unticked and both select fields at their reference
      (or an unrecognised) code. */
  predicate AtReference(i: Inputs)
  {
    && (forall f :: !Checked(i.answers, f))
    && i.answers.pay1 !in PayerLevels
    && i.answers.procedure !in ProcedureLevels
  }

  /** At the reference levels only the intercept and the age are non-zero. */
  lemma ReferenceVector(i: Inputs)
    requires AtReference(i)
    ensures forall k <- DesignVector(i).Keys | k != Intercept && k != Age :: DesignVector(i)[k] == 0.0
  {
    var x := DesignVector(i);
    forall k <- x.Keys | k != Intercept && k != Age ensures x[k] == 0.0 {
      if k.Indicator? {
        assert !Checked(i.answers, k.flag);
      }
    }
  }

  /** Ticking one more risk factor, all else unchanged, sets that factor's
      key from 0 to 1 and changes nothing else in the vector. */
  lemma TickOneFlag(i: Inputs, j: Inputs, f: Flag)
    requires j.age == i.age
    requires j.answers.pay1 == i.answers.pay1 && j.answers.procedure == i.answers.procedure
    requires forall g | g != f :: Checked(j.answers, g) == Checked(i.answers, g)
    requires !Checked(i.answers, f) && Checked(j.answers, f)
    ensures OneStep(DesignVector(i), DesignVector(j), Indicator(f))
  {
    forall k: Key | k != Indicator(f) ensures DesignVector(j)[k] == DesignVector(i)[k] {
      if k.Indicator? {
        assert Checked(j.answers, k.flag) == Checked(i.answers, k.flag);
      }
    }
  }

  /** `y` is `x` with the entry of `k` switched from 0 to 1. */
  predicate OneStep(x: map<Key, real>, y: map<Key, real>, k: Key)
  {
    && x.Keys == y.Keys && k in x
    && x[k] == 0.0 && y[k] == 1.0
    && forall j <- x.Keys | j != k :: y[j] == x[j]
  }

  /** Moving the payer from a non-dummy code to level `c`, all else
      unchanged, sets exactly that level's dummy from 0 to 1. */
  lemma SetPayer(i: Inputs, c: string)
    requires i.answers.pay1 !in PayerLevels && c in PayerLevels
    ensures OneStep(DesignVector(i), DesignVector(i.(answers := i.answers.(pay1 := c))), PayerKey(c))
  {
    var j := i.(answers := i.answers.(pay1 := c));
    forall k: Key | k != PayerKey(c) ensures Entry(j, k) == Entry(i, k) {
      if k.Indicator? {
        assert Checked(j.answers, k.flag) == Checked(i.answers, k.flag);
      }
    }
    assert Entry(i, PayerKey(c)) == 0.0 && Entry(j, PayerKey(c)) == 1.0;
  }

  /** The dummy key of payer level `c`. */
  function PayerKey(c: string): Key
    requires c in PayerLevels
  {
    if c == "2" then Pay1_2 else if c == "3" then Pay1_3 else Pay1_4
  }

  /** Moving the procedure from a non-dummy code to level `c`, all else
      unchanged, sets exactly that level's dummy from 0 to 1. */
  lemma SetProcedure(i: Inputs, c: string)
    requires i.answers.procedure !in ProcedureLevels && c in ProcedureLevels
    ensures OneStep(DesignVector(i), DesignVector(i.(answers := i.answers.(procedure := c))), ProcedureKey(c))
  {
    var j := i.(answers := i.answers.(procedure := c));
    forall k: Key | k != ProcedureKey(c) ensures Entry(j, k) == Entry(i, k) {
      if k.Indicator? {
        assert Checked(j.answers, k.flag) == Checked(i.answers, k.flag);
      }
    }
    assert Entry(i, ProcedureKey(c)) == 0.0 && Entry(j, ProcedureKey(c)) == 1.0;
  }

  /** The dummy key of procedure level `c`. */
  function ProcedureKey(c: string): Key
    requires c in ProcedureLevels
  {
    if c == "1" then Procedure_1 else Procedure_2
  }
}
