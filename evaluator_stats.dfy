/** The statistics BasicClassificationPerformanceEvaluator reports, as
    functions of its state: accuracy, the Kappa family, precision, recall,
    F1 and G-mean, for the learner and against the no-change and majority
    baselines. None of them changes the state. */
module EvaluatorStatistics {
  import opened Estimators
  import opened EvaluatorSpec

  /** Whose predictions a per-class bank scores. */
  datatype Baseline = NoChange | Majority
  datatype Predictor = Learner | Baseline(baseline: Baseline)
  datatype Measure = Precision | Recall

  /** The per-class bank holding the given measure of the given predictor. */
  function BankOf(s: EvalState, m: Measure, p: Predictor): (bank: seq<Estimator>)
    requires s.WellFormed()
    ensures |bank| == s.numClasses
  {
    match (m, p)
    case (Precision, Learner) => s.precision
    case (Precision, Baseline(NoChange)) => s.precisionNoChange
    case (Precision, Baseline(Majority)) => s.precisionMajority
    case (Recall, Learner) => s.recall
    case (Recall, Baseline(NoChange)) => s.recallNoChange
    case (Recall, Baseline(Majority)) => s.recallMajority
  }

  /** The scalar estimator scoring the baseline on every record. */
  function BaselineEstimator(s: EvalState, b: Baseline): Estimator {
    match b
    case NoChange => s.weightCorrectNoChange
    case Majority => s.weightMajority
  }

  /** getFractionCorrectlyClassified. */
  function Accuracy(s: EvalState): Option<real> {
    Estimation(s.weightCorrect)
  }

  /** getFractionIncorrectlyClassified. */
  function ErrorRate(s: EvalState): Option<real> {
    Minus(Some(1.0), Accuracy(s))
  }

  /** The shape every Kappa statistic shares: 0 before any weight was
      observed, otherwise (p0 - pc) / (1 - pc). */
  function KappaOf(totalWeight: real, p0: Option<real>, pc: Option<real>): Option<real> {
    if totalWeight > 0.0 then Ratio(Minus(p0, pc), Minus(Some(1.0), pc)) else Some(0.0)
  }

  /** getKappaStatistic's chance agreement after its loop has summed classes
      0..n-1: the products of the predicted-class and true-class rates. */
  function ChanceAgreement(rows: seq<Estimator>, cols: seq<Estimator>, n: nat): Option<real>
    requires n <= |rows| && n <= |cols|
  {
    if n == 0 then Some(0.0)
    else Plus(ChanceAgreement(rows, cols, n - 1), Times(Estimation(rows[n - 1]), Estimation(cols[n - 1])))
  }

  /** getKappaStatistic. */
  function Kappa(s: EvalState): Option<real>
    requires s.WellFormed()
  {
    KappaOf(s.totalWeightObserved, Accuracy(s), ChanceAgreement(s.rowKappa, s.columnKappa, s.numClasses))
  }

  /** getKappaTemporalStatistic (NoChange) and getKappaMStatistic (Majority). */
  function KappaAgainst(s: EvalState, b: Baseline): Option<real> {
    KappaOf(s.totalWeightObserved, Accuracy(s), Estimation(BaselineEstimator(s, b)))
  }

  /** getPrecisionStatistic(i), getRecallStatistic(i) and their no-change and
      majority counterparts. */
  function ClassStatistic(s: EvalState, m: Measure, p: Predictor, i: nat): Option<real>
    requires s.WellFormed() && i < s.numClasses
  {
    Estimation(BankOf(s, m, p)[i])
  }

  /** The sum of the first n estimations of a bank, as the averaging loops
      accumulate it. */
  function SumEstimations(bank: seq<Estimator>, n: nat): Option<real>
    requires n <= |bank|
  {
    if n == 0 then Some(0.0) else Plus(SumEstimations(bank, n - 1), Estimation(bank[n - 1]))
  }

  /** The class average of a bank: total / length, NaN for no classes. */
  function ClassAverage(bank: seq<Estimator>): Option<real> {
    Ratio(SumEstimations(bank, |bank|), Some(|bank| as real))
  }

  /** getPrecisionStatistic(), getRecallStatistic() and their no-change and
      majority counterparts. */
  function AverageStatistic(s: EvalState, m: Measure, p: Predictor): Option<real>
    requires s.WellFormed()
  {
    ClassAverage(BankOf(s, m, p))
  }

  /** 2 * ((P * R) / (P + R)). */
  function F1Of(precision: Option<real>, recall: Option<real>): Option<real> {
    Times(Some(2.0), Ratio(Times(precision, recall), Plus(precision, recall)))
  }

  /** getF1Statistic(i), getF1_weightCorrectNoChangeClassifierStatistic(i),
      getF1_weightMajorityClassifierStatistic(i). */
  function F1(s: EvalState, p: Predictor, i: nat): Option<real>
    requires s.WellFormed() && i < s.numClasses
  {
    F1Of(ClassStatistic(s, Precision, p, i), ClassStatistic(s, Recall, p, i))
  }

  /** getF1Statistic(): F1 of the class-averaged precision and recall. */
  function F1Average(s: EvalState): Option<real>
    requires s.WellFormed()
  {
    F1Of(AverageStatistic(s, Precision, Learner), AverageStatistic(s, Recall, Learner))
  }

  /** The product of the first n estimations of a bank, as the G-mean loops
      accumulate it. */
  function ProductOfEstimations(bank: seq<Estimator>, n: nat): Option<real>
    requires n <= |bank|
  {
    if n == 0 then Some(1.0) else Times(ProductOfEstimations(bank, n - 1), Estimation(bank[n - 1]))
  }

  /** getGmeanStatistic and its no-change and majority counterparts:
      Math.sqrt (passed in as `sqrt`) of the product of the per-class
      recalls. It is a square root whatever the number of classes. */
  function Gmean(s: EvalState, p: Predictor, sqrt: real -> real): Option<real>
    requires s.WellFormed()
  {
    match ProductOfEstimations(BankOf(s, Recall, p), s.numClasses)
    case None => None
    case Some(x) => Some(sqrt(x))
  }

  /** getKappaRecallTemporalStatistic(i), getKappaPrecisionTemporalStatistic(i),
      getKappaRecallMStatistic(i), getKappaPrecisionMStatistic(i). */
  function KappaClass(s: EvalState, m: Measure, b: Baseline, i: nat): Option<real>
    requires s.WellFormed() && i < s.numClasses
  {
    KappaOf(s.totalWeightObserved, ClassStatistic(s, m, Learner, i), ClassStatistic(s, m, Baseline(b), i))
  }

  /** getKappaF1TemporalStatistic(i), getKappaF1MStatistic(i). */
  function KappaF1(s: EvalState, b: Baseline, i: nat): Option<real>
    requires s.WellFormed() && i < s.numClasses
  {
    KappaOf(s.totalWeightObserved, F1(s, Learner, i), F1(s, Baseline(b), i))
  }

  /** getKappaGmeanTemporalStatistic, getKappaGmeanMStatistic. */
  function KappaGmean(s: EvalState, b: Baseline, sqrt: real -> real): Option<real>
    requires s.WellFormed()
  {
    KappaOf(s.totalWeightObserved, Gmean(s, Learner, sqrt), Gmean(s, Baseline(b), sqrt))
  }

  // ---------------------------------------------------------------------------
  // What the statistics mean

  /** Every Kappa statistic is 0 before any weight has been observed. */
  lemma KappaFamilyZeroBeforeWeight(s: EvalState, sqrt: real -> real)
    requires s.WellFormed() && s.totalWeightObserved <= 0.0
    ensures Kappa(s) == Some(0.0)
    ensures forall b :: KappaAgainst(s, b) == Some(0.0)
    ensures forall b :: KappaGmean(s, b, sqrt) == Some(0.0)
    ensures forall m, b, i :: 0 <= i < s.numClasses ==> KappaClass(s, m, b, i) == Some(0.0)
    ensures forall b, i :: 0 <= i < s.numClasses ==> KappaF1(s, b, i) == Some(0.0)
  {
  }

  /** Dividing by a positive number keeps the sign and the comparison with
      the divisor. */
  lemma DivByPositive(x: real, d: real)
    requires d > 0.0
    ensures x / d > 0.0 <==> x > 0.0
    ensures x / d == 0.0 <==> x == 0.0
    ensures x / d <= 1.0 <==> x <= d
    ensures x / d == 1.0 <==> x == d
  {
    var k := x / d;
    assert k * d == x;
    if k > 0.0 {
      MulMonotone(d, 0.0, k);
      assert d * k == x;
    } else {
      MulMonotone(d, k, 0.0);
      assert d * k == x;
    }
    if k <= 1.0 {
      MulMonotone(d, k, 1.0);
      assert d * k == x;
    } else {
      MulMonotone(d, 1.0, k);
      assert d * k == x;
    }
    if x == d {
      assert d / d == 1.0;
    }
  }

  /** Kappa measures the lift of p0 over the reference pc: with weight
      observed and pc below 1 it is a number, positive exactly when p0 beats
      pc, 0 exactly when they agree, at most 1 exactly when p0 is at most 1,
      and 1 exactly when p0 is 1. */
  lemma {:induction false} KappaOfMeaning(total: real, p0: real, pc: real)
    requires total > 0.0 && pc < 1.0
    ensures KappaOf(total, Some(p0), Some(pc)).Some?
    ensures KappaOf(total, Some(p0), Some(pc)).value > 0.0 <==> p0 > pc
    ensures KappaOf(total, Some(p0), Some(pc)).value == 0.0 <==> p0 == pc
    ensures KappaOf(total, Some(p0), Some(pc)).value <= 1.0 <==> p0 <= 1.0
    ensures KappaOf(total, Some(p0), Some(pc)).value == 1.0 <==> p0 == 1.0
  {
    var k := (p0 - pc) / (1.0 - pc);
    assert KappaOf(total, Some(p0), Some(pc)) == Some(k);
    DivByPositive(p0 - pc, 1.0 - pc);
    assert p0 - pc <= 1.0 - pc <==> p0 <= 1.0;
  }

  lemma MulMonotone(a: real, x: real, y: real)
    requires a >= 0.0 && x <= y
    ensures a * x <= a * y
  {
  }

  lemma DivCancel(a: real, b: real, s: real)
    requires s > 0.0 && a * s <= b * s
    ensures a <= b
  {
  }

  lemma UnitProduct(x: real, y: real)
    requires 0.0 <= x <= 1.0 && 0.0 <= y <= 1.0
    ensures 0.0 <= x * y <= 1.0
  {
    MulMonotone(x, y, 1.0);
    assert x * y <= x * 1.0;
    assert x * 1.0 == x;
    MulMonotone(x, 0.0, y);
    assert x * 0.0 == 0.0;
  }

  lemma {:induction false} HarmonicBetween(lo: real, hi: real)
    requires 0.0 <= lo <= hi && lo + hi > 0.0
    ensures lo <= 2.0 * ((lo * hi) / (lo + hi)) <= hi
  {
    var sum := lo + hi;
    var q := (lo * hi) / sum;
    assert q * sum == lo * hi;
    MulMonotone(lo, lo, hi);
    MulMonotone(hi, lo, hi);
    var lh := lo * hi;
    assert hi * lo == lh;
    assert lo * sum == lo * lo + lh;
    assert hi * sum == lh + hi * hi;
    assert (2.0 * q) * sum == 2.0 * lh;
    assert 2.0 * lh <= hi * sum;
    DivCancel(lo, 2.0 * q, sum);
    DivCancel(2.0 * q, hi, sum);
  }

  /** F1 is the harmonic mean of precision and recall: it lies between the
      smaller and the larger of the two, and is undefined when both are 0. */
  lemma F1IsHarmonicMean(precision: real, recall: real)
    requires precision >= 0.0 && recall >= 0.0
    ensures precision + recall == 0.0 ==> F1Of(Some(precision), Some(recall)).None?
    ensures precision + recall > 0.0 ==>
              && F1Of(Some(precision), Some(recall)).Some?
              && (if precision <= recall then precision else recall) <= F1Of(Some(precision), Some(recall)).value
              && F1Of(Some(precision), Some(recall)).value <= (if precision <= recall then recall else precision)
  {
    if precision + recall > 0.0 {
      var product := Times(Some(precision), Some(recall));
      assert product.Some? && product.value == precision * recall;
      var ratio := Ratio(product, Plus(Some(precision), Some(recall)));
      assert ratio.Some? && ratio.value == (precision * recall) / (precision + recall);
      assert F1Of(Some(precision), Some(recall)).value == 2.0 * ((precision * recall) / (precision + recall));
      if precision <= recall {
        HarmonicBetween(precision, recall);
      } else {
        HarmonicBetween(recall, precision);
        assert recall * precision == precision * recall;
        assert recall + precision == precision + recall;
      }
    }
  }

  // ---------------------------------------------------------------------------
  // Ranges under unit weights

  /** The estimator has only observed values between 0 and 1. */
  predicate Bounded(e: Estimator) {
    0.0 <= e.sum <= e.len as real
  }

  predicate BankBounded(bank: seq<Estimator>) {
    forall j :: 0 <= j < |bank| ==> Bounded(bank[j])
  }

  /** Every estimator of the evaluator has only observed values between 0
      and 1, as happens when every weight lies between 0 and 1. */
  predicate UnitBounded(s: EvalState) {
    && BankBounded(s.rowKappa) && BankBounded(s.columnKappa)
    && BankBounded(s.precision) && BankBounded(s.recall)
    && BankBounded(s.precisionNoChange) && BankBounded(s.precisionMajority)
    && BankBounded(s.recallNoChange) && BankBounded(s.recallMajority)
    && Bounded(s.weightCorrect) && Bounded(s.weightCorrectNoChange) && Bounded(s.weightMajority)
  }

  lemma AddKeepsBounded(e: Estimator, v: Option<real>)
    requires Bounded(e) && (v.Some? ==> 0.0 <= v.value <= 1.0)
    ensures Bounded(Add(e, v))
  {
  }

  lemma BoundedEstimation(e: Estimator)
    requires Bounded(e) && e.len > 0
    ensures Estimation(e).Some? && 0.0 <= Estimation(e).value <= 1.0
  {
    var n := e.len as real;
    assert Estimation(e).value * n == e.sum;
  }

  lemma UpdatedClassBounded(b: EvalState, r: EvalState, j: nat, p: nat, t: nat, w: real)
    requires b.WellFormed() && r.WellFormed() && j < b.numClasses == r.numClasses
    requires 0.0 <= w <= 1.0 && UnitBounded(b)
    requires ClassUpdated(b, r, j, p, t, w)
    ensures Bounded(r.rowKappa[j]) && Bounded(r.columnKappa[j])
    ensures Bounded(r.precision[j]) && Bounded(r.recall[j])
    ensures Bounded(r.precisionNoChange[j]) && Bounded(r.precisionMajority[j])
    ensures Bounded(r.recallNoChange[j]) && Bounded(r.recallMajority[j])
  {
    assert Bounded(b.rowKappa[j]) && Bounded(b.columnKappa[j]);
    assert Bounded(b.precision[j]) && Bounded(b.recall[j]);
    assert Bounded(b.precisionNoChange[j]) && Bounded(b.precisionMajority[j]);
    assert Bounded(b.recallNoChange[j]) && Bounded(b.recallMajority[j]);
  }

  lemma WeightedUpdateKeepsUnitBounded(s: EvalState, p: nat, t: nat, w: real, h: nat)
    requires s.WellFormed() && UnitBounded(s)
    requires 0.0 < w <= 1.0
    ensures UnitBounded(WeightedUpdate(s, p, t, w, h))
  {
    var b := Base(s, w, h);
    assert UnitBounded(b);
    var s1 := Counted(b, p, t, w);
    assert UnitBounded(s1);
    LoopUpToEffect(s1, s1.numClasses, p, t, w);
    var l := LoopUpTo(s1, s1.numClasses, p, t, w);
    forall j | 0 <= j < l.numClasses
      ensures Bounded(l.rowKappa[j]) && Bounded(l.columnKappa[j])
      ensures Bounded(l.precision[j]) && Bounded(l.recall[j])
      ensures Bounded(l.precisionNoChange[j]) && Bounded(l.precisionMajority[j])
      ensures Bounded(l.recallNoChange[j]) && Bounded(l.recallMajority[j])
    {
      assert ClassUpdated(s1, l, j, p, t, w);
      UpdatedClassBounded(s1, l, j, p, t, w);
    }
  }

  /** With every weight between 0 and 1, every estimator keeps observing
      only values between 0 and 1. */
  lemma AddResultKeepsUnitBounded(s: EvalState, inst: Instance, votes: seq<real>, h: nat)
    requires s.WellFormed() && UnitBounded(s)
    requires 0.0 <= inst.weight <= 1.0
    ensures UnitBounded(AddResultSpec(s, inst, votes, h))
  {
    if inst.classValue.Some? {
      var w := inst.weight;
      var p := MaxIndex(votes);
      var t := inst.classValue.value;
      var s1 := if w > 0.0 then WeightedUpdate(s, p, t, w, h) else s;
      if w > 0.0 {
        WeightedUpdateKeepsUnitBounded(s, p, t, w, h);
      }
      assert UnitBounded(s1);
      var r := AddResultSpec(s, inst, votes, h);
      assert r == Baselines(s1, t, w);
      AddKeepsBounded(s1.weightCorrectNoChange, Some(Indicator(s1.lastSeenClass == t, w)));
      AddKeepsBounded(s1.weightMajority, Some(Indicator(MajorityOf(s1.columnKappa) == t, w)));
    }
  }

  lemma {:induction false} SumEstimationsBounded(bank: seq<Estimator>, n: nat)
    requires n <= |bank| && BankBounded(bank)
    requires forall j :: 0 <= j < n ==> bank[j].len > 0
    ensures SumEstimations(bank, n).Some?
    ensures 0.0 <= SumEstimations(bank, n).value <= n as real
  {
    if n > 0 {
      SumEstimationsBounded(bank, n - 1);
      BoundedEstimation(bank[n - 1]);
    }
  }

  lemma {:induction false} ProductBounded(bank: seq<Estimator>, n: nat)
    requires n <= |bank| && BankBounded(bank)
    requires forall j :: 0 <= j < n ==> bank[j].len > 0
    ensures ProductOfEstimations(bank, n).Some?
    ensures 0.0 <= ProductOfEstimations(bank, n).value <= 1.0
  {
    if n > 0 {
      ProductBounded(bank, n - 1);
      BoundedEstimation(bank[n - 1]);
      var x := ProductOfEstimations(bank, n - 1).value;
      var y := Estimation(bank[n - 1]).value;
      assert ProductOfEstimations(bank, n - 1) == Some(x);
      assert Estimation(bank[n - 1]) == Some(y);
      assert ProductOfEstimations(bank, n) == Times(Some(x), Some(y));
      assert ProductOfEstimations(bank, n).value == x * y;
      UnitProduct(x, y);
    }
  }

  /** Under unit weights the rates the evaluator reports lie between 0 and
      1 once their estimators have observed something: accuracy, the class
      averages of precision and recall, and the product of the recalls under
      the G-mean's square root (their F1 is F1AverageBounded). */
  lemma UnitBoundedStatistics(s: EvalState, m: Measure, p: Predictor)
    requires s.WellFormed() && UnitBounded(s)
    ensures s.weightCorrect.len > 0 ==> Accuracy(s).Some? && 0.0 <= Accuracy(s).value <= 1.0
    ensures s.numClasses > 0 && (forall j :: 0 <= j < s.numClasses ==> BankOf(s, m, p)[j].len > 0) ==>
              AverageStatistic(s, m, p).Some? && 0.0 <= AverageStatistic(s, m, p).value <= 1.0
    ensures (forall j :: 0 <= j < s.numClasses ==> BankOf(s, Recall, p)[j].len > 0) ==>
              var product := ProductOfEstimations(BankOf(s, Recall, p), s.numClasses);
              product.Some? && 0.0 <= product.value <= 1.0
  {
    var bank := BankOf(s, m, p);
    assert BankBounded(bank);
    assert BankBounded(BankOf(s, Recall, p));
    if s.weightCorrect.len > 0 {
      BoundedEstimation(s.weightCorrect);
    }
    if s.numClasses > 0 && forall j :: 0 <= j < s.numClasses ==> bank[j].len > 0 {
      SumEstimationsBounded(bank, s.numClasses);
      var total := SumEstimations(bank, s.numClasses).value;
      var n := s.numClasses as real;
      assert AverageStatistic(s, m, p) == Some(total / n);
      assert (total / n) * n == total;
    }
    if forall j :: 0 <= j < s.numClasses ==> BankOf(s, Recall, p)[j].len > 0 {
      ProductBounded(BankOf(s, Recall, p), s.numClasses);
    }
  }

  /** getF1Statistic() under unit weights: once every precision and recall
      estimator of the learner has observed something, F1 of the class
      averages is undefined exactly when both averages are 0, and otherwise
      lies between 0 and 1. */
  lemma F1AverageBounded(s: EvalState)
    requires s.WellFormed() && UnitBounded(s) && s.numClasses > 0
    requires forall j :: 0 <= j < s.numClasses ==> s.precision[j].len > 0 && s.recall[j].len > 0
    ensures var precision := AverageStatistic(s, Precision, Learner);
            var recall := AverageStatistic(s, Recall, Learner);
            && precision.Some? && recall.Some?
            && (precision.value + recall.value == 0.0 ==> F1Average(s).None?)
            && (precision.value + recall.value > 0.0 ==>
                  F1Average(s).Some? && 0.0 <= F1Average(s).value <= 1.0)
  {
    assert forall j :: 0 <= j < s.numClasses ==> BankOf(s, Precision, Learner)[j].len > 0;
    assert forall j :: 0 <= j < s.numClasses ==> BankOf(s, Recall, Learner)[j].len > 0;
    UnitBoundedStatistics(s, Precision, Learner);
    UnitBoundedStatistics(s, Recall, Learner);
    var precision := AverageStatistic(s, Precision, Learner).value;
    var recall := AverageStatistic(s, Recall, Learner).value;
    F1IsHarmonicMean(precision, recall);
  }

  /** Accuracy is a weighted rate, not a plain one: a single correct record
      of weight 2 gives an accuracy of 2. */
  lemma HeavyWeightAccuracyAboveOne()
    ensures Accuracy(AddResultSpec(ResetSpec(0), Instance(Some(0), 2.0), [1.0], 1)) == Some(2.0)
  {
    var r := AddResultSpec(ResetSpec(0), Instance(Some(0), 2.0), [1.0], 1);
    assert MaxIndex([1.0]) == 0;
    assert r.weightCorrect == Estimator(2.0, 1);
  }

  /** Right after reset(n) no estimator has observed anything: accuracy and
      every class average are NaN, while every Kappa statistic is 0. */
  lemma ResetReadings(n: nat, m: Measure, p: Predictor)
    ensures Accuracy(ResetSpec(n)).None?
    ensures AverageStatistic(ResetSpec(n), m, p).None?
    ensures Kappa(ResetSpec(n)) == Some(0.0)
    ensures forall i :: 0 <= i < n ==> ClassStatistic(ResetSpec(n), m, p, i).None?
  {
    var s := ResetSpec(n);
    if n > 0 {
      assert Estimation(BankOf(s, m, p)[n - 1]).None?;
    }
  }
}
