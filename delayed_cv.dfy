/** The controller of EvaluatePrequentialDelayedCVIdeal (doMainTask): per
    fold, the two delayed-label buckets kept as parallel lists of records
    and timestamps, the tested counts, the learners (as their training
    histories) and the evaluators, plus the record count and the two
    learning curves. Each method is proved to perform the step of TaskSpec
    it implements, so what FoldSpec, FoldLoop and TaskSpec prove about
    those steps holds of the controller. */
module DelayedCV {
  import opened EvaluatorSpec
  import opened FoldSpec
  import opened FoldLoop
  import opened TaskSpec

  /** The folds held by the task's parallel per-fold structures: fold j is
      made of the j-th entry of each. */
  function Zip(pos: seq<seq<Instance>>, posStamps: seq<seq<int>>, neg: seq<seq<Instance>>,
               negStamps: seq<seq<int>>, tested: seq<int>, trained: seq<seq<Release>>,
               es: seq<EvalState>): (fs: seq<Fold>)
    requires |pos| == |posStamps| == |neg| == |negStamps| == |tested| == |trained| == |es|
    ensures |fs| == |pos|
    ensures forall j :: 0 <= j < |pos| ==>
              fs[j] == Fold(pos[j], posStamps[j], neg[j], negStamps[j], tested[j], trained[j], es[j])
  {
    seq(|pos|, j requires 0 <= j < |pos| =>
      Fold(pos[j], posStamps[j], neg[j], negStamps[j], tested[j], trained[j], es[j]))
  }

  /** Writing fold g's parts at position j of every structure replaces fold
      j, and only fold j. */
  lemma ZipUpdate(pos: seq<seq<Instance>>, posStamps: seq<seq<int>>, neg: seq<seq<Instance>>,
                  negStamps: seq<seq<int>>, tested: seq<int>, trained: seq<seq<Release>>,
                  es: seq<EvalState>, j: nat, g: Fold)
    requires |pos| == |posStamps| == |neg| == |negStamps| == |tested| == |trained| == |es|
    requires j < |pos|
    ensures Zip(pos[j := g.posInstances], posStamps[j := g.posTimestamps], neg[j := g.negInstances],
                negStamps[j := g.negTimestamps], tested[j := g.tested], trained[j := g.trained],
                es[j := g.evaluator])
         == Zip(pos, posStamps, neg, negStamps, tested, trained, es)[j := g]
  {
  }

  /** Replacing one fold of valid folds by a valid fold keeps them valid. */
  lemma FoldsValidUpdate(folds: seq<Fold>, j: nat, g: Fold)
    requires FoldsValid(folds) && j < |folds| && g.Valid()
    ensures FoldsValid(folds[j := g])
  {
  }

  class DelayedCVTask {
    const cfg: Config

    /** positiveTrainInstances / positiveTrainTimestamps and the negative
        pair: per fold, the records waiting for their label and their
        timestamps, oldest first. */
    var positiveTrainInstances: seq<seq<Instance>>
    var positiveTrainTimestamps: seq<seq<int>>
    var negativeTrainInstances: seq<seq<Instance>>
    var negativeTrainTimestamps: seq<seq<int>>

    /** arrInstancesTested, evaluators and learners, one entry per fold; a
        learner is represented by the records it was trained on. */
    const arrInstancesTested: array<int>
    const evaluators: array<EvalState>
    const learners: array<seq<Release>>

    var instancesProcessed: int
    var learningFoldCurve: seq<FoldSnapshot>
    var learningCurve: seq<GlobalSnapshot>

    /** One entry per fold in every per-fold structure. */
    ghost predicate Shaped()
      reads this
    {
      && |positiveTrainInstances| == cfg.numFolds && |positiveTrainTimestamps| == cfg.numFolds
      && |negativeTrainInstances| == cfg.numFolds && |negativeTrainTimestamps| == cfg.numFolds
      && arrInstancesTested.Length == cfg.numFolds && evaluators.Length == cfg.numFolds
      && learners.Length == cfg.numFolds
    }

    /** The folds, as values. */
    ghost function Folds(): (fs: seq<Fold>)
      reads this, arrInstancesTested, evaluators, learners
      requires Shaped()
      ensures |fs| == cfg.numFolds
    {
      Zip(positiveTrainInstances, positiveTrainTimestamps, negativeTrainInstances, negativeTrainTimestamps,
          arrInstancesTested[..], learners[..], evaluators[..])
    }

    /** The whole task state, as a value. */
    ghost function State(): TaskState
      reads this, arrInstancesTested, evaluators, learners
      requires Shaped()
    {
      TaskState(Folds(), instancesProcessed, learningFoldCurve, learningCurve)
    }

    ghost predicate Valid()
      reads this, arrInstancesTested, evaluators, learners
    {
      && Shaped() && cfg.Valid() && instancesProcessed >= 0
      && State().Valid(cfg)
    }

    /** Lines 239-247 and 264-280: every fold gets a fresh copy of the base
        evaluator, a tested count of zero, an untrained learner and two empty
        buckets; nothing is processed and both curves are empty. */
    constructor (cfg: Config)
      requires cfg.Valid()
      ensures Valid() && this.cfg == cfg && State() == Initial(cfg)
    {
      this.cfg := cfg;
      arrInstancesTested := new int[cfg.numFolds];
      evaluators := new EvalState[cfg.numFolds];
      learners := new seq<Release>[cfg.numFolds];
      new;
      for i := 0 to cfg.numFolds
        invariant forall j :: 0 <= j < i ==>
          learners[j] == [] && evaluators[j] == ResetSpec(0) && arrInstancesTested[j] == 0
      {
        learners[i] := [];
        evaluators[i] := ResetSpec(0);
        arrInstancesTested[i] := 0;
      }
      positiveTrainInstances := seq(cfg.numFolds, _ => []);
      positiveTrainTimestamps := seq(cfg.numFolds, _ => []);
      negativeTrainInstances := seq(cfg.numFolds, _ => []);
      negativeTrainTimestamps := seq(cfg.numFolds, _ => []);
      instancesProcessed := 0;
      learningFoldCurve := [];
      learningCurve := [];
      assert Folds() == Initial(cfg).folds;
    }

    /** Lines 533-547: after a release from fold j, whose tested count is
        now `tested` and evaluator e, a fold snapshot holding the count, the
        fold's number, the current record's timestamp and the evaluator is
        taken when the count is a non-zero multiple of the sampling
        frequency. */
    method AddEvaluationOnFoldLevel(tested: int, j: nat, e: EvalState, ts: int) returns (entry: seq<FoldSnapshot>)
      requires cfg.Valid()
      ensures entry != [] <==> tested != 0 && tested % cfg.sampleFrequency == 0
      ensures entry != [] ==> entry == [FoldSnapshot(tested, j, ts, e)]
    {
      entry := [];
      if tested != 0 {
        if tested % cfg.sampleFrequency == 0 {
          entry := [FoldSnapshot(tested, j, ts, e)];
        }
      }
    }

    /** One of the four release blocks of lines 395-452, on fold j's parts:
        the record at position i of bucket b leaves both lists, the fold's
        evaluator scores it with the current record's votes, the learner
        trains on it, the tested count goes up and addEvaluationOnFoldLevel
        runs. */
    method ReleaseFrom(fold: Fold, b: Bucket, i: nat, cause: Cause, votes: seq<real>, j: nat, ts: int)
      returns (next: Fold, entry: seq<FoldSnapshot>)
      requires cfg.Valid() && fold.Valid() && i < |fold.Timestamps(b)|
      ensures ReleaseAt(fold, b, i, cause, votes, cfg, j, ts) == Outcome(next, entry, true)
    {
      var inst := fold.Instances(b)[i];
      var stamp := fold.Timestamps(b)[i];
      if b == Positive {
        next := fold.(posInstances := RemoveAt(fold.posInstances, i), posTimestamps := RemoveAt(fold.posTimestamps, i));
      } else {
        next := fold.(negInstances := RemoveAt(fold.negInstances, i), negTimestamps := RemoveAt(fold.negTimestamps, i));
      }
      next := next.(evaluator := AddResultSpec(next.evaluator, inst, votes, cfg.headerClasses));
      next := next.(trained := next.trained + [Release(inst, stamp, b, cause, votes)]);
      next := next.(tested := next.tested + 1);
      entry := AddEvaluationOnFoldLevel(next.tested, j, next.evaluator, ts);
    }

    /** Lines 391-420, on fold j's parts: when a waiting record's timestamp
        equals the feedback value, the first such record of the positive
        bucket is released, or failing that the first of the negative
        bucket. */
    method ReleaseByFeedback(fold: Fold, snapshots: seq<FoldSnapshot>, isEvaluated: bool,
                             feedback: int, votes: seq<real>, j: nat, ts: int)
      returns (fold': Fold, snapshots': seq<FoldSnapshot>, isEvaluated': bool)
      requires cfg.Valid() && fold.Valid()
      ensures ExplicitRelease(Outcome(fold, snapshots, isEvaluated), feedback, votes, cfg, j, ts)
           == Outcome(fold', snapshots', isEvaluated')
    {
      fold', snapshots', isEvaluated' := fold, snapshots, isEvaluated;
      var indexPos := IndexOf(fold.posTimestamps, feedback);
      var indexNeg := IndexOf(fold.negTimestamps, feedback);
      if Max(indexNeg, indexPos) != -1 {
        var entry;
        if indexPos != -1 {
          isEvaluated' := true;
          fold', entry := ReleaseFrom(fold, Positive, indexPos, Feedback, votes, j, ts);
          snapshots' := snapshots + entry;
        } else if indexNeg != -1 {
          isEvaluated' := true;
          fold', entry := ReleaseFrom(fold, Negative, indexNeg, Feedback, votes, j, ts);
          snapshots' := snapshots + entry;
        }
      }
    }

    /** Lines 426-439 (b positive) and 441-454 (b negative), on fold j's
        parts: the oldest record of bucket b is released when it has waited
        at least `window`. */
    method ReleaseOnTimeout(fold: Fold, snapshots: seq<FoldSnapshot>, isEvaluated: bool,
                            b: Bucket, window: int, votes: seq<real>, j: nat, ts: int)
      returns (fold': Fold, snapshots': seq<FoldSnapshot>, isEvaluated': bool)
      requires cfg.Valid() && fold.Valid()
      ensures TimeoutRelease(Outcome(fold, snapshots, isEvaluated), b, window, votes, cfg, j, ts)
           == Outcome(fold', snapshots', isEvaluated')
    {
      fold', snapshots', isEvaluated' := fold, snapshots, isEvaluated;
      var stamps := if b == Positive then fold.posTimestamps else fold.negTimestamps;
      if |stamps| != 0 && window <= ts - stamps[0] {
        var entry;
        isEvaluated' := true;
        fold', entry := ReleaseFrom(fold, b, 0, Timeout, votes, j, ts);
        snapshots' := snapshots + entry;
      }
    }

    /** Lines 358-458 for fold j, on its parts: the record joins the bucket
        its predicted class selects when k > 0, then the feedback release and
        the two timeout releases run; isEvaluated says whether anything was
        released. */
    method StepFold(fold: Fold, j: nat, a: Arrival, votes: seq<real>, k: nat)
      returns (fold': Fold, snapshots: seq<FoldSnapshot>, isEvaluated: bool)
      requires cfg.Valid() && fold.Valid()
      ensures FoldStep(fold, k, votes, a, cfg, j) == Outcome(fold', snapshots, isEvaluated)
    {
      FoldStepStages(fold, k, votes, a, cfg, j);
      fold' := fold;
      var predictedClass := MaxIndex(votes);
      if k > 0 {
        if predictedClass == PositiveClass {
          fold' := fold'.(posInstances := fold'.posInstances + [a.inst], posTimestamps := fold'.posTimestamps + [a.timestamp]);
        } else {
          fold' := fold'.(negInstances := fold'.negInstances + [a.inst], negTimestamps := fold'.negTimestamps + [a.timestamp]);
        }
      }
      snapshots := [];
      isEvaluated := false;
      fold', snapshots, isEvaluated := ReleaseByFeedback(fold', snapshots, isEvaluated, a.feedback, votes, j, a.timestamp);
      fold', snapshots, isEvaluated := ReleaseOnTimeout(fold', snapshots, isEvaluated, Positive, cfg.positiveWindow, votes, j, a.timestamp);
      fold', snapshots, isEvaluated := ReleaseOnTimeout(fold', snapshots, isEvaluated, Negative, cfg.negativeWindow, votes, j, a.timestamp);
    }

    /** Fold j's parts stored back from the value `fold`, and the fold
        snapshots taken during its turn appended to learningFoldCurve. */
    method StoreFold(j: nat, fold: Fold, snapshots: seq<FoldSnapshot>)
      requires Shaped() && j < cfg.numFolds
      modifies this, arrInstancesTested, evaluators, learners
      ensures Shaped() && Folds() == old(Folds())[j := fold]
      ensures learningFoldCurve == old(learningFoldCurve) + snapshots
      ensures instancesProcessed == old(instancesProcessed) && learningCurve == old(learningCurve)
    {
      ZipUpdate(positiveTrainInstances, positiveTrainTimestamps, negativeTrainInstances, negativeTrainTimestamps,
                arrInstancesTested[..], learners[..], evaluators[..], j, fold);
      positiveTrainInstances := positiveTrainInstances[j := fold.posInstances];
      positiveTrainTimestamps := positiveTrainTimestamps[j := fold.posTimestamps];
      negativeTrainInstances := negativeTrainInstances[j := fold.negInstances];
      negativeTrainTimestamps := negativeTrainTimestamps[j := fold.negTimestamps];
      arrInstancesTested[j] := fold.tested;
      learners[j] := fold.trained;
      evaluators[j] := fold.evaluator;
      learningFoldCurve := learningFoldCurve + snapshots;
    }

    /** Fold j's turn of the fold loop: its lists, count, learner and
        evaluator are taken out, worked on by StepFold and stored back, and
        the fold snapshots taken are appended to learningFoldCurve. */
    method ProcessFold(j: nat, a: Arrival, votes: seq<real>, k: nat) returns (isEvaluated: bool)
      requires Valid() && j < cfg.numFolds
      modifies this, arrInstancesTested, evaluators, learners
      ensures Valid()
      ensures var o := FoldStep(old(Folds())[j], k, votes, a, cfg, j);
              && Folds() == old(Folds())[j := o.fold]
              && learningFoldCurve == old(learningFoldCurve) + o.snapshots
              && isEvaluated == o.evaluated
      ensures instancesProcessed == old(instancesProcessed) && learningCurve == old(learningCurve)
    {
      hide FoldStep, StepOf, Zip;
      ghost var folds := Folds();
      var fold := Fold(positiveTrainInstances[j], positiveTrainTimestamps[j],
                       negativeTrainInstances[j], negativeTrainTimestamps[j],
                       arrInstancesTested[j], learners[j], evaluators[j]);
      assert fold == folds[j];
      var snapshots;
      fold, snapshots, isEvaluated := StepFold(fold, j, a, votes, k);
      StoreFold(j, fold, snapshots);
      FoldsValidUpdate(folds, j, fold);
    }

    /** Lines 584-590: the evaluators that have seen a class, in fold order. */
    method IncludedEvaluators() returns (es: seq<EvalState>)
      ensures es == Included(evaluators[..])
    {
      es := [];
      var i := 0;
      while i < evaluators.Length
        invariant 0 <= i <= evaluators.Length
        invariant es == Included(evaluators[..i])
      {
        assert evaluators[..i + 1][..i] == evaluators[..i];
        if evaluators[i].numClasses != 0 {
          es := es + [evaluators[i]];
        }
        i := i + 1;
      }
      assert evaluators[..i] == evaluators[..];
    }

    /** Lines 358-459, fold i's turn for the record numbered
        instancesProcessed: its membership k is chosen by the validation
        methodology (lines 358-371, Membership) and the fold takes its step. Stated as
        one more turn of the fold loop over `folds`, the folds as the record
        arrived. */
    method FoldTurn(i: nat, a: Arrival, votes: seq<seq<real>>, draws: seq<nat>,
                    ghost folds: seq<Fold>, ghost curve: seq<FoldSnapshot>)
      returns (isEvaluated: bool)
      requires Valid() && Inputs(folds, votes, draws, cfg) && FoldsValid(folds) && i < cfg.numFolds
      requires var r := Sweep(folds, i, instancesProcessed, a, votes, draws, cfg);
               Folds() == r.folds && learningFoldCurve == curve + r.snapshots
      modifies this, arrInstancesTested, evaluators, learners
      ensures Valid()
      ensures instancesProcessed == old(instancesProcessed) && learningCurve == old(learningCurve)
      ensures var r := Sweep(folds, i + 1, instancesProcessed, a, votes, draws, cfg);
              && Folds() == r.folds && learningFoldCurve == curve + r.snapshots
              && r.evaluated == (Sweep(folds, i, instancesProcessed, a, votes, draws, cfg).evaluated || isEvaluated)
    {
      hide FoldStep, StepOf, Zip;
      var k := K(cfg, instancesProcessed, i, draws);
      SweepNext(folds, i, instancesProcessed, a, votes, draws, cfg);
      ghost var r := Sweep(folds, i, instancesProcessed, a, votes, draws, cfg);
      ghost var o := FoldStep(folds[i], k, votes[i], a, cfg, i);
      assert Folds()[i] == folds[i];
      isEvaluated := ProcessFold(i, a, votes[i], k);
      assert Folds() == r.folds[i := o.fold];
      assert learningFoldCurve == curve + (r.snapshots + o.snapshots);
    }

    /** Lines 357-459: the fold loop for the record numbered
        instancesProcessed; newEvaluated records whether any fold released
        a record. */
    method SweepFolds(a: Arrival, votes: seq<seq<real>>, draws: seq<nat>) returns (newEvaluated: bool)
      requires Valid() && |votes| == cfg.numFolds && |draws| == cfg.numFolds
      modifies this, arrInstancesTested, evaluators, learners
      ensures Valid()
      ensures var r := Sweep(old(Folds()), cfg.numFolds, instancesProcessed, a, votes, draws, cfg);
              && Folds() == r.folds
              && learningFoldCurve == old(learningFoldCurve) + r.snapshots
              && newEvaluated == r.evaluated
      ensures instancesProcessed == old(instancesProcessed) && learningCurve == old(learningCurve)
    {
      hide FoldStep, StepOf, FoldsValid, Zip;
      ghost var folds := Folds();
      ghost var curve := learningFoldCurve;
      assert learningFoldCurve == curve + [];
      newEvaluated := false;
      var i := 0;
      while i < cfg.numFolds
        invariant 0 <= i <= cfg.numFolds && Valid()
        invariant instancesProcessed == old(instancesProcessed) && learningCurve == old(learningCurve)
        invariant var r := Sweep(folds, i, instancesProcessed, a, votes, draws, cfg);
                  && Folds() == r.folds
                  && learningFoldCurve == curve + r.snapshots
                  && newEvaluated == r.evaluated
      {
        var isEvaluated := FoldTurn(i, a, votes, draws, folds, curve);
        if isEvaluated && !newEvaluated {
          newEvaluated := true;
        }
        i := i + 1;
      }
    }

    /** Lines 461-478: a learning-curve entry holding the record count and
        the evaluators that have seen a class is added when some fold
        released a record and the count is a multiple of the sampling
        frequency or the stream has no more records. */
    method SampleLearningCurve(newEvaluated: bool, hasMore: bool)
      requires Shaped() && cfg.Valid()
      modifies `learningCurve
      ensures learningCurve == old(learningCurve) +
                if newEvaluated && (instancesProcessed % cfg.sampleFrequency == 0 || !hasMore)
                then [GlobalSnapshot(instancesProcessed, Included(Evaluators(Folds())))] else []
    {
      if newEvaluated && (instancesProcessed % cfg.sampleFrequency == 0 || !hasMore) {
        var es := IncludedEvaluators();
        assert evaluators[..] == Evaluators(Folds());
        learningCurve := learningCurve + [GlobalSnapshot(instancesProcessed, es)];
      }
    }

    /** Lines 333-478 for one record: the count goes up, every fold takes
        its turn, and the learning curve is sampled. The learners' votes and
        the bootstrap draws are given per fold. */
    method ProcessArrival(a: Arrival, votes: seq<seq<real>>, draws: seq<nat>, hasMore: bool)
      requires Valid() && |votes| == cfg.numFolds && |draws| == cfg.numFolds
      modifies this, arrInstancesTested, evaluators, learners
      ensures Valid()
      ensures State() == ArrivalSpec(old(State()), a, votes, draws, hasMore, cfg)
    {
      hide FoldStep, StepOf, Zip, ArrivalSpec, Arrive, RoundUpTo, RuleFor, Sweep, Included, Evaluators;
      ghost var s0 := State();
      ArrivalBySweep(s0, a, votes, draws, hasMore, cfg);
      instancesProcessed := instancesProcessed + 1;
      var newEvaluated := SweepFolds(a, votes, draws);
      SampleLearningCurve(newEvaluated, hasMore);
    }

    /** Lines 325-331: records are taken while the stream has more and fewer
        than maxInstances (no limit when negative) have been processed; the
        loop takes Consumed of them, and the task is then RunSpec of its
        state before the run. votes[m][j] and draws[m][j] are fold j's
        learner's votes and bootstrap draw for record m. */
    method Run(stream: seq<Arrival>, votes: seq<seq<seq<real>>>, draws: seq<seq<nat>>, maxInstances: int)
      returns (n: nat)
      requires Valid() && RunInputs(State(), stream, votes, draws, cfg)
      modifies this, arrInstancesTested, evaluators, learners
      ensures Valid()
      ensures n == Consumed(|stream|, maxInstances, old(instancesProcessed))
      ensures State() == RunSpec(old(State()), stream, votes, draws, n, cfg)
    {
      ghost var s0 := State();
      n := 0;
      while n < |stream| && (maxInstances < 0 || instancesProcessed < maxInstances)
        invariant n <= |stream| && Valid()
        invariant instancesProcessed == s0.processed + n
        invariant maxInstances >= 0 && n > 0 ==> instancesProcessed <= maxInstances
        invariant State() == RunSpec(s0, stream, votes, draws, n, cfg)
      {
        RunStep(s0, stream, votes, draws, n + 1, cfg);
        ProcessArrival(stream[n], votes[n], draws[n], n + 1 < |stream|);
        n := n + 1;
      }
    }
  }
}
