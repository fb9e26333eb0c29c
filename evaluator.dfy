/** BasicClassificationPerformanceEvaluator as the object the task updates in
    place: eight per-class arrays of estimators and the scalar estimators,
    changed by reset and addResult. Every method is proved to do what the
    functions of EvaluatorSpec and EvaluatorStatistics say. */
module ClassificationEvaluator {
  import opened Estimators
  import opened EvaluatorSpec
  import opened EvaluatorStatistics

  /** Eight distinct arrays of length n. */
  ghost predicate Shaped(n: nat, a1: array<Estimator>, a2: array<Estimator>, a3: array<Estimator>,
                         a4: array<Estimator>, a5: array<Estimator>, a6: array<Estimator>,
                         a7: array<Estimator>, a8: array<Estimator>)
  {
    && a1.Length == n && a2.Length == n && a3.Length == n && a4.Length == n
    && a5.Length == n && a6.Length == n && a7.Length == n && a8.Length == n
    && a1 != a2 && a1 != a3 && a1 != a4 && a1 != a5 && a1 != a6 && a1 != a7 && a1 != a8
    && a2 != a3 && a2 != a4 && a2 != a5 && a2 != a6 && a2 != a7 && a2 != a8
    && a3 != a4 && a3 != a5 && a3 != a6 && a3 != a7 && a3 != a8
    && a4 != a5 && a4 != a6 && a4 != a7 && a4 != a8
    && a5 != a6 && a5 != a7 && a5 != a8
    && a6 != a7 && a6 != a8
    && a7 != a8
  }

  class BasicClassificationPerformanceEvaluator {
    var numClasses: nat
    var rowKappa: array<Estimator>
    var columnKappa: array<Estimator>
    var precision: array<Estimator>
    var recall: array<Estimator>
    var recallNoChange: array<Estimator>
    var recallMajority: array<Estimator>
    var precisionNoChange: array<Estimator>
    var precisionMajority: array<Estimator>
    var weightCorrect: Estimator
    var weightCorrectNoChange: Estimator
    var weightMajority: Estimator
    var lastSeenClass: nat
    var totalWeightObserved: real

    /** The eight per-class arrays. */
    function Banks(): set<object>
      reads this
    {
      {rowKappa, columnKappa, precision, recall,
       recallNoChange, recallMajority, precisionNoChange, precisionMajority}
    }

    /** The eight array fields still name the arrays they named before. */
    twostate predicate BanksKept()
      reads this
    {
      && rowKappa == old(rowKappa) && columnKappa == old(columnKappa)
      && precision == old(precision) && recall == old(recall)
      && recallNoChange == old(recallNoChange) && recallMajority == old(recallMajority)
      && precisionNoChange == old(precisionNoChange) && precisionMajority == old(precisionMajority)
    }

    /** Every array has one estimator per class, and the arrays are eight
        distinct objects, as reset allocates them. */
    ghost predicate Valid()
      reads this
    {
      Shaped(numClasses, rowKappa, columnKappa, precision, recall,
             recallNoChange, recallMajority, precisionNoChange, precisionMajority)
    }

    /** The evaluator's fields as a value. */
    function State(): (s: EvalState)
      reads this, rowKappa, columnKappa, precision, recall
      reads recallNoChange, recallMajority, precisionNoChange, precisionMajority
      ensures Valid() ==> s.WellFormed() && s.numClasses == numClasses
    {
      EvalState(numClasses, rowKappa[..], columnKappa[..], precision[..], recall[..],
                recallNoChange[..], recallMajority[..], precisionNoChange[..], precisionMajority[..],
                weightCorrect, weightCorrectNoChange, weightMajority, lastSeenClass, totalWeightObserved)
    }

    /** An evaluator as reset(0) leaves it: no classes, nothing observed. */
    constructor ()
      ensures Valid() && State() == ResetSpec(0) && fresh(Banks())
    {
      numClasses := 0;
      rowKappa := new Estimator[0];
      columnKappa := new Estimator[0];
      precision := new Estimator[0];
      recall := new Estimator[0];
      recallNoChange := new Estimator[0];
      recallMajority := new Estimator[0];
      precisionNoChange := new Estimator[0];
      precisionMajority := new Estimator[0];
      weightCorrect, weightCorrectNoChange, weightMajority := Fresh, Fresh, Fresh;
      lastSeenClass := 0;
      totalWeightObserved := 0.0;
    }

    /** The eight arrays reset allocates, each holding n fresh estimators. */
    static method NewBanks(n: nat)
      returns (rk: array<Estimator>, ck: array<Estimator>, pr: array<Estimator>, re: array<Estimator>,
               rm: array<Estimator>, rn: array<Estimator>, pm: array<Estimator>, pn: array<Estimator>)
      ensures fresh(rk) && fresh(ck) && fresh(pr) && fresh(re)
      ensures fresh(rm) && fresh(rn) && fresh(pm) && fresh(pn)
      ensures rk[..] == ck[..] == pr[..] == re[..] == FreshBank(n)
      ensures rm[..] == rn[..] == pm[..] == pn[..] == FreshBank(n)
      ensures Shaped(n, rk, ck, pr, re, rn, rm, pn, pm)
    {
      rk := new Estimator[n](_ => Fresh);
      ck := new Estimator[n](_ => Fresh);
      pr := new Estimator[n](_ => Fresh);
      re := new Estimator[n](_ => Fresh);
      rm := new Estimator[n](_ => Fresh);
      rn := new Estimator[n](_ => Fresh);
      pm := new Estimator[n](_ => Fresh);
      pn := new Estimator[n](_ => Fresh);
      assert rk[..] == FreshBank(n);
    }

    /** The first half of reset: the class count and the new arrays. */
    method InstallBanks(n: nat, rk: array<Estimator>, ck: array<Estimator>, pr: array<Estimator>,
                        re: array<Estimator>, rm: array<Estimator>, rn: array<Estimator>,
                        pm: array<Estimator>, pn: array<Estimator>)
      modifies this
      ensures numClasses == n && rowKappa == rk && columnKappa == ck && precision == pr && recall == re
      ensures recallMajority == rm && recallNoChange == rn && precisionMajority == pm && precisionNoChange == pn
    {
      numClasses := n;
      rowKappa := rk;
      columnKappa := ck;
      precision := pr;
      recall := re;
      recallMajority := rm;
      recallNoChange := rn;
      precisionMajority := pm;
      precisionNoChange := pn;
    }

    /** reset(numClasses): new arrays of fresh estimators for n classes, fresh
        scalar estimators, class 0 as the last seen class, no weight. */
    method Reset(n: nat)
      modifies this
      ensures Valid() && fresh(Banks())
      ensures State() == ResetSpec(n)
    {
      var rk, ck, pr, re, rm, rn, pm, pn := NewBanks(n);
      InstallBanks(n, rk, ck, pr, re, rm, rn, pm, pn);
      weightCorrect := Fresh;
      weightCorrectNoChange := Fresh;
      weightMajority := Fresh;
      lastSeenClass := 0;
      totalWeightObserved := 0.0;
    }

    /** getMajorityClass: the lowest class with the strictly greatest positive
        estimated frequency, 0 when there is none. */
    method GetMajorityClass() returns (majorityClass: nat)
      requires Valid()
      ensures majorityClass == MajorityOf(columnKappa[..])
      ensures numClasses > 0 ==> majorityClass < numClasses
    {
      majorityClass := 0;
      var maxProbClass := 0.0;
      var i := 0;
      while i < numClasses
        invariant 0 <= i <= numClasses
        invariant (majorityClass, maxProbClass) == MajorityScan(columnKappa[..], i)
      {
        var e := Estimation(columnKappa[i]);
        if e.Some? && e.value > maxProbClass {
          majorityClass := i;
          maxProbClass := e.value;
        }
        i := i + 1;
      }
      assert columnKappa[..][..numClasses] == columnKappa[..];
      MajorityIsFirstGreatest(columnKappa[..]);
    }

    /** One iteration (class i) of addResult's per-class loop (lines 150-174)
        for predicted class p, true class t and weight w. */
    method UpdateClass(i: nat, p: nat, t: nat, w: real)
      requires Valid() && i < numClasses
      modifies Banks()
      ensures State() == ClassStep(old(State()), i, p, t, w)
    {
      rowKappa[i] := Add(rowKappa[i], Some(Indicator(p == i, w)));
      columnKappa[i] := Add(columnKappa[i], Some(Indicator(t == i, w)));
      if p == i {
        precision[i] := Add(precision[i], Some(Indicator(p == t, w)));
        var majority := GetMajorityClass();
        precisionMajority[i] := Add(precisionMajority[i], Some(Indicator(majority == t, w)));
        precisionNoChange[i] := Add(precisionNoChange[i], Some(Indicator(lastSeenClass == t, w)));
      } else {
        precision[i] := Add(precision[i], None);
        precisionMajority[i] := Add(precisionMajority[i], None);
        precisionNoChange[i] := Add(precisionNoChange[i], None);
      }
      if t == i {
        recall[i] := Add(recall[i], Some(Indicator(p == t, w)));
        recallNoChange[i] := Add(recallNoChange[i], Some(Indicator(lastSeenClass == t, w)));
        var majority := GetMajorityClass();
        recallMajority[i] := Add(recallMajority[i], Some(Indicator(majority == t, w)));
      } else {
        recall[i] := Add(recall[i], None);
        recallMajority[i] := Add(recallMajority[i], None);
        recallNoChange[i] := Add(recallNoChange[i], None);
      }
    }

    /** addResult's per-class loop (lines 149-175). */
    method UpdateClasses(p: nat, t: nat, w: real)
      requires Valid()
      modifies Banks()
      ensures State() == LoopUpTo(old(State()), numClasses, p, t, w)
    {
      ghost var s0 := State();
      var i := 0;
      while i < numClasses
        invariant 0 <= i <= numClasses
        invariant State() == LoopUpTo(s0, i, p, t, w)
      {
        UpdateClass(i, p, t, w);
        i := i + 1;
      }
    }

    /** Lines 147-148: observe the weight and score the learner. */
    method CountWeight(p: nat, t: nat, w: real)
      requires Valid()
      modifies this
      ensures Valid() && BanksKept()
      ensures State() == Counted(old(State()), p, t, w)
    {
      totalWeightObserved := totalWeightObserved + w;
      weightCorrect := Add(weightCorrect, Some(Indicator(p == t, w)));
    }

    /** Lines 177-179: score the no-change and majority-class predictors
        against true class t, then remember t. */
    method ScoreBaselines(t: nat, w: real)
      requires Valid()
      modifies this
      ensures Valid() && BanksKept()
      ensures State() == Baselines(old(State()), t, w)
    {
      weightCorrectNoChange := Add(weightCorrectNoChange, Some(Indicator(lastSeenClass == t, w)));
      var majority := GetMajorityClass();
      weightMajority := Add(weightMajority, Some(Indicator(majority == t, w)));
      lastSeenClass := t;
    }

    /** The part of addResult run for a positive weight (lines 143-176):
        reset on the first weight, then count the weight and the outcome, then
        the per-class loop. */
    method AddWeighted(p: nat, t: nat, w: real, headerClasses: nat)
      requires Valid() && w > 0.0
      modifies this, Banks()
      ensures Valid()
      ensures State() == WeightedUpdate(old(State()), p, t, w, headerClasses)
    {
      ghost var s := State();
      if totalWeightObserved == 0.0 {
        Reset(headerClasses);
      }
      assert State() == Base(s, w, headerClasses);
      CountWeight(p, t, w);
      UpdateClasses(p, t, w);
    }

    /** addResult(example, classVotes), with the noise option at 0 and the
        dataset's number of classes passed as headerClasses. */
    method AddResult(inst: Instance, votes: seq<real>, headerClasses: nat)
      requires Valid()
      modifies this, Banks()
      ensures Valid()
      ensures State() == AddResultSpec(old(State()), inst, votes, headerClasses)
    {
      if inst.classValue.Some? {
        var weight := inst.weight;
        var trueClass := inst.classValue.value;
        var predictedClass := MaxIndex(votes);
        if weight > 0.0 {
          AddWeighted(predictedClass, trueClass, weight, headerClasses);
        }
        ScoreBaselines(trueClass, weight);
      }
    }

    /** getKappaStatistic: 0 before any weight, otherwise (p0 - pc) / (1 - pc)
        with p0 the accuracy and pc the chance agreement summed over the
        classes. Changes nothing. */
    method GetKappaStatistic() returns (kappa: Option<real>)
      requires Valid()
      ensures kappa == Kappa(State())
    {
      if totalWeightObserved > 0.0 {
        var p0 := Estimation(weightCorrect);
        var pc := Some(0.0);
        var i := 0;
        while i < numClasses
          invariant 0 <= i <= numClasses
          invariant pc == ChanceAgreement(rowKappa[..], columnKappa[..], i)
        {
          pc := Plus(pc, Times(Estimation(rowKappa[i]), Estimation(columnKappa[i])));
          i := i + 1;
        }
        kappa := Ratio(Minus(p0, pc), Minus(Some(1.0), pc));
      } else {
        kappa := Some(0.0);
      }
    }

    /** The array holding the given measure of the given predictor. */
    function BankArray(m: Measure, p: Predictor): (a: array<Estimator>)
      reads this
      ensures a in Banks()
    {
      match (m, p)
      case (Precision, Learner) => precision
      case (Precision, Baseline(NoChange)) => precisionNoChange
      case (Precision, Baseline(Majority)) => precisionMajority
      case (Recall, Learner) => recall
      case (Recall, Baseline(NoChange)) => recallNoChange
      case (Recall, Baseline(Majority)) => recallMajority
    }

    /** getPrecisionStatistic(), getRecallStatistic() and their no-change and
        majority counterparts: the sum of the class estimations over the
        number of classes. Changes nothing. */
    method GetAverageStatistic(m: Measure, p: Predictor) returns (average: Option<real>)
      requires Valid()
      ensures average == AverageStatistic(State(), m, p)
    {
      var bank := BankArray(m, p);
      assert bank[..] == BankOf(State(), m, p);
      var total := Some(0.0);
      var i := 0;
      while i < bank.Length
        invariant 0 <= i <= bank.Length
        invariant total == SumEstimations(bank[..], i)
      {
        total := Plus(total, Estimation(bank[i]));
        i := i + 1;
      }
      average := Ratio(total, Some(bank.Length as real));
    }

    /** getF1Statistic(): F1 of the class-averaged precision and recall.
        Changes nothing. */
    method GetF1Statistic() returns (f1: Option<real>)
      requires Valid()
      ensures f1 == F1Average(State())
    {
      var precisionAverage := GetAverageStatistic(Precision, Learner);
      var recallAverage := GetAverageStatistic(Recall, Learner);
      f1 := F1Of(precisionAverage, recallAverage);
    }

    /** getGmeanStatistic and its no-change and majority counterparts:
        Math.sqrt of the product of the per-class recalls. Changes nothing. */
    method GetGmeanStatistic(p: Predictor, sqrt: real -> real) returns (gmean: Option<real>)
      requires Valid()
      ensures gmean == Gmean(State(), p, sqrt)
    {
      var bank := BankArray(Recall, p);
      assert bank[..] == BankOf(State(), Recall, p);
      var product := Some(1.0);
      var i := 0;
      while i < numClasses
        invariant 0 <= i <= numClasses
        invariant product == ProductOfEstimations(bank[..], i)
      {
        product := Times(product, Estimation(bank[i]));
        i := i + 1;
      }
      gmean := if product.Some? then Some(sqrt(product.value)) else None;
    }

    /** getKappaGmeanTemporalStatistic and getKappaGmeanMStatistic. Changes
        nothing. */
    method GetKappaGmeanStatistic(b: Baseline, sqrt: real -> real) returns (kappa: Option<real>)
      requires Valid()
      ensures kappa == KappaGmean(State(), b, sqrt)
    {
      if totalWeightObserved > 0.0 {
        var p0 := GetGmeanStatistic(Learner, sqrt);
        var pc := GetGmeanStatistic(Baseline(b), sqrt);
        kappa := Ratio(Minus(p0, pc), Minus(Some(1.0), pc));
      } else {
        kappa := Some(0.0);
      }
    }
  }
}
