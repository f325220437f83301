/** The linear predictor, its diagonal delta-method variance, the 95%
    interval and the logistic transform of `calculateRiskProbability`
    (app.js:154-213). */
module Predictor {
  import opened Sums
  import opened Tables
  import opened Validation
  import opened Design

  /** `v ** 2`. */
  function Square(v: real): (r: real)
    ensures 0.0 <= r
  {
    v * v
  }

  /** The terms `coefs[key] * x[key]` the first loop adds up. */
  function Products<K(!new)>(c: map<K, real>, x: map<K, real>): (t: map<K, real>)
    ensures forall k :: k in t <==> k in c && k in x
    ensures forall k <- t :: t[k] == c[k] * x[k]
  {
    map k | k in c && k in x :: c[k] * x[k]
  }

  /** The terms `(ses[key] ** 2) * (x[key] ** 2)` the second loop adds up;
      none is negative. */
  function SquaredProducts<K(!new)>(se: map<K, real>, x: map<K, real>): (t: map<K, real>)
    ensures forall k :: k in t <==> k in se && k in x
    ensures forall k <- t :: t[k] == VarianceTerm(se[k], x[k])
  {
    map k | k in se && k in x :: VarianceTerm(se[k], x[k])
  }

  /** One key's share `(se ** 2) * (v ** 2)` of the variance; never
      negative. */
  function VarianceTerm(se: real, v: real): (r: real)
    ensures 0.0 <= r
  {
    Square(se) * Square(v)
  }

  /** The first loop, `for (const key in coefs) xb += coefs[key] * x[key]`
      (app.js:183-186): visiting the keys in `order`, it accumulates the
      left-to-right total of the products. */
  method LinearPredictor<K(!new)>(order: seq<K>, coefs: map<K, real>, x: map<K, real>) returns (xb: real)
    requires forall k <- order :: k in coefs && k in x
    ensures xb == Sum(order, Products(coefs, x))
  {
    ghost var terms := Products(coefs, x);
    xb := 0.0;
    for n := 0 to |order|
      invariant xb == Sum(order[..n], terms)
    {
      var key := order[n];
      SumStep(order, terms, n);
      xb := xb + coefs[key] * x[key];
    }
    assert order[..|order|] == order;
  }

  /** The second loop, `for (const key in ses) var_xb += (ses[key] ** 2) *
      (x[key] ** 2)` (app.js:189-192), likewise. */
  method PredictorVariance<K(!new)>(order: seq<K>, ses: map<K, real>, x: map<K, real>) returns (varXb: real)
    requires forall k <- order :: k in ses && k in x
    ensures varXb == Sum(order, SquaredProducts(ses, x))
  {
    ghost var terms := SquaredProducts(ses, x);
    varXb := 0.0;
    for n := 0 to |order|
      invariant varXb == Sum(order[..n], terms)
    {
      var key := order[n];
      SumStep(order, terms, n);
      varXb := varXb + VarianceTerm(ses[key], x[key]);
    }
    assert order[..|order|] == order;
  }

  /** The linear predictor `xb` of a covariate vector: its products with
      `coefs`, totalled in the order of `coefs`. */
  function LinearPredictorOf(x: map<Key, real>): real
    requires Coefs.entries.Keys <= x.Keys
  {
    TablesAgree();
    Sum(Coefs.order, Products(Coefs.entries, x))
  }

  /** The variance `var_xb`: the squared products with `ses`, totalled in the
      order of `ses`. */
  function VarianceOf(x: map<Key, real>): real
    requires Ses.entries.Keys <= x.Keys
  {
    TablesAgree();
    Sum(Ses.order, SquaredProducts(Ses.entries, x))
  }

  /** Raising one listed entry of `x` from 0 to 1, all else unchanged, adds
      that key's coefficient to the weighted total. */
  lemma {:induction false} ProductsChangeOne<K(!new)>(order: seq<K>, c: map<K, real>, x: map<K, real>, y: map<K, real>, k: K)
    requires forall j <- order :: j in c && j in x && j in y
    requires Distinct(order) && k in order
    requires x[k] == 0.0 && y[k] == 1.0
    requires forall j <- order | j != k :: y[j] == x[j]
    ensures Sum(order, Products(c, y)) == Sum(order, Products(c, x)) + c[k]
  {
    SumChangeOne(order, Products(c, x), Products(c, y), k);
  }

  /** The same step adds that key's squared standard error to the total of
      squared products. */
  lemma {:induction false} SquaredProductsChangeOne<K(!new)>(order: seq<K>, se: map<K, real>, x: map<K, real>, y: map<K, real>, k: K)
    requires forall j <- order :: j in se && j in x && j in y
    requires Distinct(order) && k in order
    requires x[k] == 0.0 && y[k] == 1.0
    requires forall j <- order | j != k :: y[j] == x[j]
    ensures Sum(order, SquaredProducts(se, y)) == Sum(order, SquaredProducts(se, x)) + Square(se[k])
  {
    SumChangeOne(order, SquaredProducts(se, x), SquaredProducts(se, y), k);
  }

  /** When every entry of `x` but those of two distinct listed keys is 0, the
      weighted total is made of those two products alone. */
  lemma {:induction false} ProductsOfTwo<K(!new)>(order: seq<K>, c: map<K, real>, x: map<K, real>, a: K, b: K)
    requires forall j <- order :: j in c && j in x
    requires Distinct(order) && a in order && b in order && a != b
    requires forall j <- order | j != a && j != b :: x[j] == 0.0
    ensures Sum(order, Products(c, x)) == c[a] * x[a] + c[b] * x[b]
  {
    SumOfTwo(order, Products(c, x), a, b);
  }

  /** When every entry of `x` but those of two distinct listed keys is 0, the
      total of squared products is made of those two terms alone. */
  lemma {:induction false} SquaredProductsOfTwo<K(!new)>(order: seq<K>, se: map<K, real>, x: map<K, real>, a: K, b: K)
    requires forall j <- order :: j in se && j in x
    requires Distinct(order) && a in order && b in order && a != b
    requires forall j <- order | j != a && j != b :: x[j] == 0.0
    ensures Sum(order, SquaredProducts(se, x)) == VarianceTerm(se[a], x[a]) + VarianceTerm(se[b], x[b])
  {
    SumOfTwo(order, SquaredProducts(se, x), a, b);
  }

  /** Switching one entry of a covariate vector from 0 to 1 raises `xb` by
      exactly that key's coefficient and `var_xb` by exactly the square of its
      standard error. */
  lemma PredictorStep(x: map<Key, real>, y: map<Key, real>, k: Key)
    requires OneStep(x, y, k)
    requires Coefs.entries.Keys <= x.Keys
    ensures Coefs.entries.Keys <= y.Keys
    ensures LinearPredictorOf(y) == LinearPredictorOf(x) + Coefficient(k)
    ensures VarianceOf(y) == VarianceOf(x) + Square(StandardError(k))
  {
    TablesAgree();
    TableValues();
    ProductsChangeOne(Coefs.order, Coefs.entries, x, y, k);
    SquaredProductsChangeOne(Ses.order, Ses.entries, x, y, k);
  }

  /** Ticking one more risk factor, all else unchanged, adds exactly that
      factor's coefficient to `xb`. */
  lemma FlagRaisesPredictor(i: Inputs, j: Inputs, f: Flag)
    requires j.age == i.age
    requires j.answers.pay1 == i.answers.pay1 && j.answers.procedure == i.answers.procedure
    requires forall g | g != f :: Checked(j.answers, g) == Checked(i.answers, g)
    requires !Checked(i.answers, f) && Checked(j.answers, f)
    ensures LinearPredictorOf(DesignVector(j)) == LinearPredictorOf(DesignVector(i)) + Coefficient(Indicator(f))
    ensures VarianceOf(DesignVector(j)) == VarianceOf(DesignVector(i)) + Square(StandardError(Indicator(f)))
  {
    TickOneFlag(i, j, f);
    PredictorStep(DesignVector(i), DesignVector(j), Indicator(f));
  }

  /** Moving the payer from the reference (or an unrecognised) code to level
      `c` adds exactly that level's coefficient to `xb`. */
  lemma PayerRaisesPredictor(i: Inputs, c: string)
    requires i.answers.pay1 !in PayerLevels && c in PayerLevels
    ensures var j := i.(answers := i.answers.(pay1 := c));
      && LinearPredictorOf(DesignVector(j)) == LinearPredictorOf(DesignVector(i)) + Coefficient(PayerKey(c))
      && VarianceOf(DesignVector(j)) == VarianceOf(DesignVector(i)) + Square(StandardError(PayerKey(c)))
  {
    var j := i.(answers := i.answers.(pay1 := c));
    SetPayer(i, c);
    PredictorStep(DesignVector(i), DesignVector(j), PayerKey(c));
  }

  /** Moving the procedure from a non-dummy code to level `c` adds exactly
      that level's coefficient to `xb`. */
  lemma ProcedureRaisesPredictor(i: Inputs, c: string)
    requires i.answers.procedure !in ProcedureLevels && c in ProcedureLevels
    ensures var j := i.(answers := i.answers.(procedure := c));
      && LinearPredictorOf(DesignVector(j)) == LinearPredictorOf(DesignVector(i)) + Coefficient(ProcedureKey(c))
      && VarianceOf(DesignVector(j)) == VarianceOf(DesignVector(i)) + Square(StandardError(ProcedureKey(c)))
  {
    var j := i.(answers := i.answers.(procedure := c));
    SetProcedure(i, c);
    PredictorStep(DesignVector(i), DesignVector(j), ProcedureKey(c));
  }

  /** A covariate vector that is zero except at the intercept and the age
      has as `xb` just the intercept's and the age's products. */
  lemma InterceptAndAgeOnly(x: map<Key, real>)
    requires forall k: Key :: k in x
    requires forall k: Key | k != Intercept && k != Age :: x[k] == 0.0
    ensures LinearPredictorOf(x) == -4.783163 * x[Intercept] + 0.009141 * x[Age]
  {
    TablesAgree();
    assert Coefs.entries[Intercept] == -4.783163 && Coefs.entries[Age] == 0.009141;
    ProductsOfTwo(Coefs.order, Coefs.entries, x, Intercept, Age);
  }

  /** With no risk factor ticked and both select fields at reference, `xb` is
      the intercept plus the age term. */
  lemma ReferenceNeutrality(i: Inputs)
    requires AtReference(i)
    ensures LinearPredictorOf(DesignVector(i)) == -4.783163 + 0.009141 * i.age
  {
    ReferenceVector(i);
    InterceptAndAgeOnly(DesignVector(i));
  }

  /** A covariate vector that is zero except at the intercept and the age
      has as `var_xb` just the intercept's and the age's squared products. */
  lemma InterceptAndAgeOnlyVariance(x: map<Key, real>)
    requires forall k: Key :: k in x
    requires forall k: Key | k != Intercept && k != Age :: x[k] == 0.0
    ensures VarianceOf(x) == VarianceTerm(0.0271225, x[Intercept]) + VarianceTerm(0.0003674, x[Age])
  {
    TablesAgree();
    assert Ses.entries[Intercept] == 0.0271225 && Ses.entries[Age] == 0.0003674;
    SquaredProductsOfTwo(Ses.order, Ses.entries, x, Intercept, Age);
  }

  /** At the reference levels `var_xb` is the intercept's squared standard
      error plus the age's squared standard error times the squared age;
      with the step lemmas, each further entry at 1 adds its own squared
      standard error. */
  lemma VarianceAtReference(i: Inputs)
    requires AtReference(i)
    ensures VarianceOf(DesignVector(i)) == Square(0.0271225) + Square(0.0003674) * Square(i.age)
  {
    ReferenceVector(i);
    InterceptAndAgeOnlyVariance(DesignVector(i));
  }

  /** At age 65 and the reference levels, `xb` is -4.188998. */
  lemma ReferenceAtSixtyFive(i: Inputs)
    requires AtReference(i) && i.age == 65.0
    ensures LinearPredictorOf(DesignVector(i)) == -4.188998
  {
    ReferenceNeutrality(i);
  }

  /** Ticking history of stroke at age 65, from the reference levels, adds
      0.9639001 and gives `xb` = -3.2250979. */
  lemma HistoryStrokeAtSixtyFive(i: Inputs)
    requires AtReference(i) && i.age == 65.0
    ensures var j := i.(answers := i.answers.(boxes := i.answers.boxes.(historyStroke := true)));
      LinearPredictorOf(DesignVector(j)) == -3.2250979
  {
    var j := i.(answers := i.answers.(boxes := i.answers.boxes.(historyStroke := true)));
    forall g | g != HistoryStroke ensures Checked(j.answers, g) == Checked(i.answers, g) {
    }
    ReferenceAtSixtyFive(i);
    FlagRaisesPredictor(i, j, HistoryStroke);
  }

  /** The critical value of the 95% interval. */
  const Z: real := 1.96

  /** The bounds `xb ∓ z * se_xb` (app.js:196-198): symmetric about `xb`,
      with half-width `z * se_xb`, and strictly around `xb` exactly when the
      standard error is positive. */
  function ConfidenceBounds(xb: real, seXb: real): (b: (real, real))
    requires 0.0 <= seXb
    ensures xb - b.0 == b.1 - xb == Z * seXb
    ensures b.0 <= xb <= b.1
    ensures b.0 < xb < b.1 <==> 0.0 < seXb
  {
    (xb - Z * seXb, xb + Z * seXb)
  }

  /** `1 / (1 + e)` where `e` is `Math.exp(-t)`: the logistic transform of
      `t`, strictly between 0 and 1. */
  function Probability(e: real): (p: real)
    requires 0.0 < e
    ensures 0.0 < p < 1.0
  {
    1.0 / (1.0 + e)
  }

  /** A larger exponential gives a smaller probability, and a strictly
      larger one a strictly smaller probability. */
  lemma ProbabilityOrder(a: real, b: real)
    requires 0.0 < a <= b
    ensures Probability(b) <= Probability(a)
    ensures a < b ==> Probability(b) < Probability(a)
  {
    var pa, pb := Probability(a), Probability(b);
    assert pa * (1.0 + a) == 1.0;
    assert pb * (1.0 + b) == 1.0;
    assert pb * (1.0 + a) <= 1.0;
    assert a < b ==> pb * (1.0 + a) < 1.0;
  }

  /** What `Math.sqrt` is needed to deliver: the non-negative square root of
      every non-negative number. */
  ghost predicate IsSquareRoot(sqrt: real -> real)
  {
    forall v :: 0.0 <= v ==> 0.0 <= sqrt(v) && sqrt(v) * sqrt(v) == v
  }

  /** What `Math.exp` is needed to deliver: positive and strictly
      increasing. */
  ghost predicate IsExponential(exp: real -> real)
  {
    && (forall t :: 0.0 < exp(t))
    && (forall s, t :: s < t ==> exp(s) < exp(t))
  }

  /** The interval on the probability scale. */
  datatype Interval = Interval(lower: real, upper: real)

  /** What `calculateRiskProbability` returns. */
  datatype RiskResult = RiskResult(probability: real, confidenceInterval: Interval, linearPredictor: real)

  /** The variance is at least the intercept's share `ses.intercept ** 2`,
      since the intercept's entry is 1 and no term is negative. */
  lemma VarianceAtLeastIntercept(i: Inputs)
    ensures VarianceOf(DesignVector(i)) >= Square(StandardError(Intercept)) > 0.0
  {
    TablesAgree();
    var x := DesignVector(i);
    SquaredProductBound(Ses.order, Ses.entries, x, Intercept);
    assert Ses.entries[Intercept] == StandardError(Intercept);
  }

  /** Each squared product is at most the total of them all. */
  lemma SquaredProductBound<K(!new)>(order: seq<K>, se: map<K, real>, x: map<K, real>, k: K)
    requires forall j <- order :: j in se && j in x
    requires k in order
    ensures VarianceTerm(se[k], x[k]) <= Sum(order, SquaredProducts(se, x))
  {
    SumAtLeastTerm(order, SquaredProducts(se, x), k);
  }

  /** A positive number has a positive square root. */
  lemma PositiveRoot(sqrt: real -> real, v: real)
    requires IsSquareRoot(sqrt) && 0.0 < v
    ensures 0.0 < sqrt(v)
  {
    var r := sqrt(v);
    assert 0.0 <= r && r * r == v;
  }

  /** The tail of `calculateRiskProbability` (app.js:194-212): the interval
      `xb ∓ 1.96 * se_xb` and the logistic transform of `xb` and of both
      bounds. The transformed interval lies around the probability, strictly
      between 0 and 1, and strictly around it when the standard error is
      positive. */
  function Transform(xb: real, seXb: real, exp: real -> real): (r: RiskResult)
    requires 0.0 <= seXb && IsExponential(exp)
    ensures r.linearPredictor == xb
    ensures r.probability == Probability(exp(-xb))
    ensures r.confidenceInterval.lower == Probability(exp(-(xb - Z * seXb)))
    ensures r.confidenceInterval.upper == Probability(exp(-(xb + Z * seXb)))
    ensures 0.0 < r.confidenceInterval.lower <= r.probability <= r.confidenceInterval.upper < 1.0
    ensures 0.0 < seXb ==> r.confidenceInterval.lower < r.probability < r.confidenceInterval.upper
  {
    var bounds := ConfidenceBounds(xb, seXb);
    var xbLo, xbHi := bounds.0, bounds.1;
    ProbabilityOrder(exp(-xb), exp(-xbLo));
    ProbabilityOrder(exp(-xbHi), exp(-xb));
    RiskResult(Probability(exp(-xb)), Interval(Probability(exp(-xbLo)), Probability(exp(-xbHi))), xb)
  }

  /** The risk of a validated record: the transform of its linear predictor
      with the square root of its variance as standard error. */
  ghost function RiskOf(i: Inputs, sqrt: real -> real, exp: real -> real): (r: RiskResult)
    requires IsSquareRoot(sqrt) && IsExponential(exp)
    ensures 0.0 < r.confidenceInterval.lower < r.probability < r.confidenceInterval.upper < 1.0
  {
    var x := DesignVector(i);
    VarianceAtLeastIntercept(i);
    PositiveRoot(sqrt, VarianceOf(x));
    Transform(LinearPredictorOf(x), sqrt(VarianceOf(x)), exp)
  }

  /** The whole of `calculateRiskProbability` (app.js:154-213): it builds the
      design vector, runs both loops, takes the square root and transforms.
      The result carries the linear predictor of the inputs, its logistic
      transform, and the transformed bounds `xb ∓ 1.96 * sqrt(var_xb)`, in
      strict order between 0 and 1. */
  method CalculateRiskProbability(inputs: Inputs, sqrt: real -> real, exp: real -> real) returns (r: RiskResult)
    requires IsSquareRoot(sqrt) && IsExponential(exp)
    ensures r == RiskOf(inputs, sqrt, exp)
    ensures r.linearPredictor == LinearPredictorOf(DesignVector(inputs))
    ensures 0.0 < r.confidenceInterval.lower < r.probability < r.confidenceInterval.upper < 1.0
  {
    var x := DesignVector(inputs);
    TablesAgree();
    VarianceAtLeastIntercept(inputs);
    var xb := LinearPredictor(Coefs.order, Coefs.entries, x);
    var varXb := PredictorVariance(Ses.order, Ses.entries, x);
    PositiveRoot(sqrt, varXb);
    var seXb := sqrt(varXb);
    r := Transform(xb, seXb, exp);
  }
}
