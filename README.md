# Delayed-feedback prequential cross-validation, modelled in Dafny

This project models two coupled parts of MOA's delayed-feedback evaluation
task.

**The incremental metric engine.** This is `BasicClassificationPerformanceEvaluator`.
- A `BasicEstimator` is a running mean, `(sum, len)`, that skips the
  not-applicable marker.
- `reset(n)` installs eight per-class estimator banks and three scalar
  estimators.
- `addResult` counts one labelled record. It updates the learner's
  accuracy, then, class by class, the Kappa rows and columns and the
  precision and recall of the learner and of two baseline predictors. The
  baselines are "no change" (predict the last seen class) and "majority
  class". Finally it scores the baselines and remembers the true class.
- The statistics are read from the estimators: accuracy, the Kappa family,
  class-averaged precision and recall, F1 and G-mean.

**The per-record fold loop of `EvaluatePrequentialDelayedCVIdeal`.** Every
incoming record goes to each of `numFolds` folds.
- Membership is decided by cross-validation, split-validation or a
  bootstrap draw. The record-count modulo decides the first two.
- A member record waits in the fold's positive or negative bucket, chosen by
  the class the fold's learner predicts for it.
- Waiting records are released in two ways. An explicit feedback value can
  name one by its timestamp, positive bucket first. Otherwise the head of a
  bucket leaves when it has waited at least that bucket's window.
- Each release scores the released record with the *current* record's
  votes, trains the fold's learner on it and bumps the fold's tested count.
- A fold snapshot is taken when that count is a non-zero multiple of the
  sample frequency.
- A global snapshot is taken after a record that released something in some
  fold, when the record count is a multiple of the sample frequency or the
  stream has ended. It holds the evaluators that have seen a class.

**Layout**
- Pure specifications hold the behaviour of one call:
  - `Estimators`: the estimator;
  - `EvaluatorSpec`: reset, addResult and the majority class;
  - `EvaluatorStatistics`: the getters and the bounds on them;
  - `FoldSpec`: one fold's step for one record;
  - `FoldLoop`: one record and a run, for any per-fold step;
  - `TaskSpec`: the same with the fold step plugged in.
- Classes do the work in place and are proved against those specifications:
  - `ClassificationEvaluator.BasicClassificationPerformanceEvaluator` keeps
    the eight arrays and the scalar fields;
  - `DelayedCV.DelayedCVTask` keeps the per-fold bucket lists, the
    `arrInstancesTested`, `evaluators` and `learners` arrays, the record
    count and both learning curves.
- A learner is represented by the list of records it was trained on. An
  evaluator inside the task is an `EvalState` value advanced by the
  addResult specification. This is the task run with
  `BasicClassificationPerformanceEvaluator` as its evaluator option; the
  windowed default is not modelled (see "## Left out").

**Inputs, not modelled.** These are parameters of the operations:
- the learner's vote vectors;
- the bootstrap Poisson draws;
- whether the stream has more records;
- `Math.sqrt`;
- the number of classes in the stream header.

## Model

| member | source | states |
|---|---|---|
| Estimators.Add | moa/src/main/java/moa/evaluation/BasicClassificationPerformanceEvaluator.java:549-554 | the not-applicable marker leaves sum and len unchanged; any other value raises sum by the value and len by exactly 1 |
| Estimators.Estimation | moa/src/main/java/moa/evaluation/BasicClassificationPerformanceEvaluator.java:557-559 | the estimation is undefined exactly when nothing was counted (0/0) |
| Estimators.AddAllIsMean | moa/src/main/java/moa/evaluation/BasicClassificationPerformanceEvaluator.java:549-559 | an estimator fed any sequence holds the sum and count of its applicable values, so its estimation is their mean (undefined if there are none) |
| EvaluatorSpec.FreshBank | moa/src/main/java/moa/evaluation/BasicClassificationPerformanceEvaluator.java:114-123 | a bank of n estimators, every one fresh |
| EvaluatorSpec.ResetSpec | moa/src/main/java/moa/evaluation/BasicClassificationPerformanceEvaluator.java:103-129 | reset(n) leaves a well-formed state with n classes: eight banks of length n |
| EvaluatorSpec.MaxIndex | moa/src/main/java/moa/evaluation/BasicClassificationPerformanceEvaluator.java:137 | the predicted class is the first index of a largest vote, and 0 for an empty vote vector |
| EvaluatorSpec.MajorityScanInvariant | moa/src/main/java/moa/evaluation/BasicClassificationPerformanceEvaluator.java:183-193 | after scanning classes 0..n-1 the best value is 0 iff no class has a positive estimation; otherwise it is the estimation of the chosen class, no scanned class beats it, and every earlier class is strictly below it |
| EvaluatorSpec.MajorityIsFirstGreatest | moa/src/main/java/moa/evaluation/BasicClassificationPerformanceEvaluator.java:183-193 | getMajorityClass returns the lowest index attaining the greatest positive columnKappa estimation, 0 when none is positive, and an index < numClasses when numClasses > 0 |
| EvaluatorSpec.ClassStep | moa/src/main/java/moa/evaluation/BasicClassificationPerformanceEvaluator.java:150-174 | one class iteration keeps the state well-formed and the class count unchanged; its effect is stated by ClassStepEffect |
| EvaluatorSpec.ClassStepEffect | moa/src/main/java/moa/evaluation/BasicClassificationPerformanceEvaluator.java:150-174 | iteration i updates class i's column first, then the majority class is read from the partly updated columns; class i's other seven estimators get the weight or the marker as the predicted and true class say; every other class and every scalar is untouched |
| EvaluatorSpec.LoopUpToEffect | moa/src/main/java/moa/evaluation/BasicClassificationPerformanceEvaluator.java:149-175 | after the loop has run over classes 0..n-1, those classes are updated (each using the majority read at its own iteration), classes n.. are untouched, and the scalars are kept |
| EvaluatorSpec.AddResultMissingClass | moa/src/main/java/moa/evaluation/BasicClassificationPerformanceEvaluator.java:135 | a record whose class is missing changes nothing, including lastSeenClass and totalWeightObserved |
| EvaluatorSpec.AddResultNumClasses | moa/src/main/java/moa/evaluation/BasicClassificationPerformanceEvaluator.java:143-146 | the class count becomes the header's exactly when a labelled record with positive weight arrives while no weight has been observed; otherwise it is unchanged |
| EvaluatorSpec.UpdatedClassCounts | moa/src/main/java/moa/evaluation/BasicClassificationPerformanceEvaluator.java:150-174 | in an updated class, rowKappa and columnKappa advance len by 1; precision and its two twins advance iff the predicted class is i; recall and its two twins advance iff the true class is i |
| EvaluatorSpec.AddResultPositiveWeight | moa/src/main/java/moa/evaluation/BasicClassificationPerformanceEvaluator.java:143-176 | for weight > 0, totalWeightObserved grows by exactly the weight; weightCorrect takes the weight when the predicted class (first largest vote) is the true class and 0 otherwise, one observation more; and every class's counters advance as UpdatedClassCounts says |
| EvaluatorSpec.AddResultPerClassValues | moa/src/main/java/moa/evaluation/BasicClassificationPerformanceEvaluator.java:149-175 | for weight > 0, every class of the result was updated with the values of lines 150-174, from the state after the first-weight reset |
| EvaluatorSpec.AddResultNonPositiveWeight | moa/src/main/java/moa/evaluation/BasicClassificationPerformanceEvaluator.java:143 | for weight <= 0, no per-class bank, neither weightCorrect nor totalWeightObserved, and not the class count change |
| EvaluatorSpec.AddResultBaselines | moa/src/main/java/moa/evaluation/BasicClassificationPerformanceEvaluator.java:177-179 | on every labelled record, whatever its weight, both baseline estimators advance: no-change scores the previous last class, majority scores the class read after the loop; lastSeenClass then equals the true class |
| EvaluatorStatistics.BankOf | moa/src/main/java/moa/evaluation/BasicClassificationPerformanceEvaluator.java:401-472 | each precision or recall bank a getter reads has one estimator per class |
| EvaluatorStatistics.KappaFamilyZeroBeforeWeight | moa/src/main/java/moa/evaluation/BasicClassificationPerformanceEvaluator.java:284-398 | before any weight is observed, Kappa, Kappa Temporal, Kappa M, both G-mean Kappas and every per-class Kappa are 0 |
| EvaluatorStatistics.KappaOfMeaning | moa/src/main/java/moa/evaluation/BasicClassificationPerformanceEvaluator.java:284-296 | once weight was observed and chance agreement is below 1, (p0-pc)/(1-pc) is positive iff p0 > pc, zero iff p0 = pc, at most 1 iff p0 <= 1, and 1 iff p0 = 1 |
| EvaluatorStatistics.HarmonicBetween | moa/src/main/java/moa/evaluation/BasicClassificationPerformanceEvaluator.java:474-492 | 2xy/(x+y) lies between the smaller and the larger of x and y |
| EvaluatorStatistics.F1IsHarmonicMean | moa/src/main/java/moa/evaluation/BasicClassificationPerformanceEvaluator.java:474-492 | F1 is undefined when precision + recall is 0, and otherwise lies between precision and recall |
| EvaluatorStatistics.AddKeepsBounded | moa/src/main/java/moa/evaluation/BasicClassificationPerformanceEvaluator.java:549-554 | adding a value in [0,1], or the marker, keeps 0 <= sum <= len |
| EvaluatorStatistics.UpdatedClassBounded | moa/src/main/java/moa/evaluation/BasicClassificationPerformanceEvaluator.java:150-174 | a class update with weight in [0,1] keeps all eight of the class's estimators within 0 <= sum <= len |
| EvaluatorStatistics.WeightedUpdateKeepsUnitBounded | moa/src/main/java/moa/evaluation/BasicClassificationPerformanceEvaluator.java:143-176 | the positive-weight part of addResult with weight <= 1 keeps every estimator within 0 <= sum <= len |
| EvaluatorStatistics.AddResultKeepsUnitBounded | moa/src/main/java/moa/evaluation/BasicClassificationPerformanceEvaluator.java:131-181 | addResult with a weight in [0,1] keeps every estimator within 0 <= sum <= len |
| EvaluatorStatistics.SumEstimationsBounded | moa/src/main/java/moa/evaluation/BasicClassificationPerformanceEvaluator.java:401-406 | the sum a class-average getter builds from n bounded, non-empty estimators is defined and lies in [0, n] |
| EvaluatorStatistics.ProductBounded | moa/src/main/java/moa/evaluation/BasicClassificationPerformanceEvaluator.java:510-515 | the product of n bounded, non-empty recall estimations that G-mean takes the root of is defined and lies in [0,1] |
| EvaluatorStatistics.UnitBoundedStatistics | moa/src/main/java/moa/evaluation/BasicClassificationPerformanceEvaluator.java:276-278 | with unit-bounded estimators, accuracy, every class-averaged precision or recall and the G-mean product are defined and in [0,1] once every estimator they read has a value |
| EvaluatorStatistics.F1AverageBounded | moa/src/main/java/moa/evaluation/BasicClassificationPerformanceEvaluator.java:474-477 | with unit-bounded estimators, once every precision and recall estimator of the learner has a value, getF1Statistic() is undefined exactly when both class averages are 0 and otherwise lies in [0,1] |
| EvaluatorStatistics.HeavyWeightAccuracyAboveOne | moa/src/main/java/moa/evaluation/BasicClassificationPerformanceEvaluator.java:148 | accuracy is a weighted sum over a plain count, so one correct record of weight 2 gives accuracy 2 |
| EvaluatorStatistics.ResetReadings | moa/src/main/java/moa/evaluation/BasicClassificationPerformanceEvaluator.java:103-129 | right after reset(n), accuracy and all averages and per-class precisions and recalls are undefined, and Kappa is 0 |
| ClassificationEvaluator.BasicClassificationPerformanceEvaluator.constructor | moa/src/main/java/moa/evaluation/BasicClassificationPerformanceEvaluator.java:103-129 | a new evaluator is in the state reset(0) leaves, with fresh banks |
| ClassificationEvaluator.BasicClassificationPerformanceEvaluator.Reset | moa/src/main/java/moa/evaluation/BasicClassificationPerformanceEvaluator.java:103-129 | reset(n) allocates eight new arrays of length n filled with fresh estimators and resets the scalars, leaving exactly ResetSpec(n) |
| ClassificationEvaluator.BasicClassificationPerformanceEvaluator.GetMajorityClass | moa/src/main/java/moa/evaluation/BasicClassificationPerformanceEvaluator.java:183-193 | the loop returns MajorityOf of the columnKappa array (the first greatest positive class), and an index < numClasses when numClasses > 0 |
| ClassificationEvaluator.BasicClassificationPerformanceEvaluator.UpdateClass | moa/src/main/java/moa/evaluation/BasicClassificationPerformanceEvaluator.java:150-174 | one iteration in place leaves exactly ClassStep of the old state |
| ClassificationEvaluator.BasicClassificationPerformanceEvaluator.UpdateClasses | moa/src/main/java/moa/evaluation/BasicClassificationPerformanceEvaluator.java:149-175 | the per-class loop in place leaves exactly LoopUpTo over all classes of the old state |
| ClassificationEvaluator.BasicClassificationPerformanceEvaluator.CountWeight | moa/src/main/java/moa/evaluation/BasicClassificationPerformanceEvaluator.java:147-148 | totalWeightObserved and weightCorrect take the record; the banks are kept |
| ClassificationEvaluator.BasicClassificationPerformanceEvaluator.ScoreBaselines | moa/src/main/java/moa/evaluation/BasicClassificationPerformanceEvaluator.java:177-179 | the two baselines are scored and lastSeenClass set; the banks are kept |
| ClassificationEvaluator.BasicClassificationPerformanceEvaluator.AddWeighted | moa/src/main/java/moa/evaluation/BasicClassificationPerformanceEvaluator.java:143-176 | the positive-weight part leaves exactly WeightedUpdate of the old state |
| ClassificationEvaluator.BasicClassificationPerformanceEvaluator.AddResult | moa/src/main/java/moa/evaluation/BasicClassificationPerformanceEvaluator.java:131-181 | addResult in place leaves exactly AddResultSpec of the old state, so every AddResult lemma above holds of it |
| ClassificationEvaluator.BasicClassificationPerformanceEvaluator.GetKappaStatistic | moa/src/main/java/moa/evaluation/BasicClassificationPerformanceEvaluator.java:284-296 | the chance-agreement loop returns Kappa of the current state and changes nothing |
| ClassificationEvaluator.BasicClassificationPerformanceEvaluator.BankArray | moa/src/main/java/moa/evaluation/BasicClassificationPerformanceEvaluator.java:401-472 | every bank a precision or recall getter reads is one of the evaluator's eight arrays |
| ClassificationEvaluator.BasicClassificationPerformanceEvaluator.GetAverageStatistic | moa/src/main/java/moa/evaluation/BasicClassificationPerformanceEvaluator.java:401-467 | the class-averaging loop returns AverageStatistic of the current state and changes nothing |
| ClassificationEvaluator.BasicClassificationPerformanceEvaluator.GetF1Statistic | moa/src/main/java/moa/evaluation/BasicClassificationPerformanceEvaluator.java:474-477 | returns F1Average of the current state |
| ClassificationEvaluator.BasicClassificationPerformanceEvaluator.GetGmeanStatistic | moa/src/main/java/moa/evaluation/BasicClassificationPerformanceEvaluator.java:496-516 | the product loop returns Gmean of the current state: the square root of the product of per-class recalls |
| ClassificationEvaluator.BasicClassificationPerformanceEvaluator.GetKappaGmeanStatistic | moa/src/main/java/moa/evaluation/BasicClassificationPerformanceEvaluator.java:308-317 | returns KappaGmean of the current state, for the no-change or majority baseline |
| FoldSpec.MembershipSplitsFolds | moa/src/main/java/moa/tasks/EvaluatePrequentialDelayedCVIdeal.java:360-371 | under cross-validation fold i gets k = 0 iff the record count modulo numFolds is i; split-validation is the exact complement |
| FoldSpec.IndexOf | moa/src/main/java/moa/tasks/EvaluatePrequentialDelayedCVIdeal.java:391-392 | indexOf is -1 iff the key is absent, and otherwise the position of its first occurrence |
| FoldSpec.RemoveAt | moa/src/main/java/moa/tasks/EvaluatePrequentialDelayedCVIdeal.java:398-399 | removal by index drops exactly that entry and keeps the others in order |
| FoldSpec.ReleaseAt | moa/src/main/java/moa/tasks/EvaluatePrequentialDelayedCVIdeal.java:397-405 | a release keeps both buckets' instance and timestamp lists of equal length; its effect is stated by ReleaseAtEffect |
| FoldSpec.ExplicitRelease | moa/src/main/java/moa/tasks/EvaluatePrequentialDelayedCVIdeal.java:391-420 | the explicit-feedback step keeps the fold well-formed; its effect is stated by ExplicitReleaseRule |
| FoldSpec.TimeoutRelease | moa/src/main/java/moa/tasks/EvaluatePrequentialDelayedCVIdeal.java:426-454 | the timeout step keeps the fold well-formed; its effect is stated by TimeoutReleaseRule |
| FoldSpec.FoldStep | moa/src/main/java/moa/tasks/EvaluatePrequentialDelayedCVIdeal.java:358-458 | one fold's step keeps the fold well-formed; its effect is stated by FoldStepAccounts and FoldStepFifo |
| FoldSpec.FoldStepStages | moa/src/main/java/moa/tasks/EvaluatePrequentialDelayedCVIdeal.java:379-454 | the step is enqueue, then explicit release, then positive timeout, then negative timeout, in that order |
| FoldSpec.ReleaseAtEffect | moa/src/main/java/moa/tasks/EvaluatePrequentialDelayedCVIdeal.java:397-405 | a release removes exactly the one entry from its bucket, leaves the other bucket alone, appends the record to the training log, adds exactly 1 to the tested count, scores the record with the current votes, and takes a fold snapshot iff the new count is a non-zero multiple of the sample frequency |
| FoldSpec.ExplicitTracks | moa/src/main/java/moa/tasks/EvaluatePrequentialDelayedCVIdeal.java:391-420 | the explicit step releases at most one record and keeps the queue, training-history and snapshot accounting |
| FoldSpec.TimeoutTracks | moa/src/main/java/moa/tasks/EvaluatePrequentialDelayedCVIdeal.java:426-454 | each timeout step releases at most one record and keeps the same accounting |
| FoldSpec.FoldStepAccounts | moa/src/main/java/moa/tasks/EvaluatePrequentialDelayedCVIdeal.java:358-458 | in one step: at most 3 releases; queued + released = previous queued + (1 if k > 0); tested grows by the number released; the fold reports an evaluation iff something was released; every release uses the current votes; the evaluator is the old one with the releases replayed in order; fold snapshots are taken exactly at the non-zero multiples of the sample frequency the count passes, each with this fold and this timestamp |
| FoldSpec.EnqueueRule | moa/src/main/java/moa/tasks/EvaluatePrequentialDelayedCVIdeal.java:379-387 | with k = 0 nothing changes; with k > 0 the record and its timestamp join the tail of the positive bucket iff the predicted class is the positive class (else the negative bucket), and nothing else changes |
| FoldSpec.ExplicitReleaseRule | moa/src/main/java/moa/tasks/EvaluatePrequentialDelayedCVIdeal.java:391-420 | the first positive entry with the feedback timestamp is released if there is one; only otherwise the first such negative entry; with no match nothing changes |
| FoldSpec.ExplicitNoMatch | moa/src/main/java/moa/tasks/EvaluatePrequentialDelayedCVIdeal.java:393 | a feedback value matching no waiting timestamp leaves the fold unchanged |
| FoldSpec.TimeoutReleaseRule | moa/src/main/java/moa/tasks/EvaluatePrequentialDelayedCVIdeal.java:426-454 | a bucket's head is released iff the bucket is non-empty and window <= current timestamp - head timestamp; it leaves by the head and the rest keeps its order |
| FoldSpec.TimeoutDrains | moa/src/main/java/moa/tasks/EvaluatePrequentialDelayedCVIdeal.java:426-454 | a timeout step keeps "every bucket is what was released from it, in order, followed by what still waits" |
| FoldSpec.BothTimeoutsDrain | moa/src/main/java/moa/tasks/EvaluatePrequentialDelayedCVIdeal.java:426-454 | the two timeout steps together release from the heads of the buckets, in order |
| FoldSpec.FoldStepFifo | moa/src/main/java/moa/tasks/EvaluatePrequentialDelayedCVIdeal.java:379-454 | with no explicit match, every release is a timeout and each bucket after enqueue equals the records released from it, in enqueue order, followed by the records still waiting; TaskSpec.RunFifo carries this across a run |
| FoldSpec.FoldStepQueues | moa/src/main/java/moa/tasks/EvaluatePrequentialDelayedCVIdeal.java:379-454 | with no explicit match, a bucket as it was before the record, followed by the record if it joined that bucket, equals what the step released from the bucket, in release order, followed by what still waits |
| FoldSpec.MultiplesMeaning | moa/src/main/java/moa/tasks/EvaluatePrequentialDelayedCVIdeal.java:537-547 | the fold-snapshot counts between two tested counts are exactly the non-zero multiples of the sample frequency in that range, increasing |
| FoldLoop.Initial | moa/src/main/java/moa/tasks/EvaluatePrequentialDelayedCVIdeal.java:239-280 | every fold starts with empty buckets, nothing tested or trained and the unused base evaluator; the count is 0 and both curves are empty |
| FoldLoop.Evaluators | moa/src/main/java/moa/tasks/EvaluatePrequentialDelayedCVIdeal.java:578-595 | the evaluators of the folds, in fold order |
| FoldLoop.IncludedMeaning | moa/src/main/java/moa/tasks/EvaluatePrequentialDelayedCVIdeal.java:584-590 | an evaluator enters the global average iff it is a fold's evaluator and its numClasses is not 0 |
| FoldLoop.RoundUpToEffect | moa/src/main/java/moa/tasks/EvaluatePrequentialDelayedCVIdeal.java:357-459 | after folds 0..n-1 have taken their step, those folds hold their step's result, the rest are unchanged, and newEvaluated holds iff some fold reported an evaluation |
| FoldLoop.ConservesTrans | moa/src/main/java/moa/tasks/EvaluatePrequentialDelayedCVIdeal.java:379-454 | record conservation composes over consecutive steps |
| FoldLoop.Arrive | moa/src/main/java/moa/tasks/EvaluatePrequentialDelayedCVIdeal.java:333 | one record raises instancesProcessed by exactly 1 and keeps the number of folds; the rest is stated by ArriveKept and ArriveSampled |
| FoldLoop.ArriveKept | moa/src/main/java/moa/tasks/EvaluatePrequentialDelayedCVIdeal.java:357-459 | if each fold's step conserves records, one record conserves them in every fold: no record is lost or duplicated, and every trained record was counted as tested |
| FoldLoop.ArriveSampled | moa/src/main/java/moa/tasks/EvaluatePrequentialDelayedCVIdeal.java:461-488 | a global snapshot of the evaluators with numClasses != 0 is appended iff some fold released a record and (the count is a multiple of the sample frequency or the stream has ended); the fold curve only grows |
| FoldLoop.ArriveGrows | moa/src/main/java/moa/tasks/EvaluatePrequentialDelayedCVIdeal.java:461-488 | both learning curves only grow |
| FoldLoop.ArriveFold | moa/src/main/java/moa/tasks/EvaluatePrequentialDelayedCVIdeal.java:357-459 | after one record, each fold holds exactly the result of its own step |
| FoldLoop.RunWith | moa/src/main/java/moa/tasks/EvaluatePrequentialDelayedCVIdeal.java:325-331 | n records raise the count by exactly n; the rest is stated by RunWithKept and RunWithCurves |
| FoldLoop.RunWithKept | moa/src/main/java/moa/tasks/EvaluatePrequentialDelayedCVIdeal.java:325-459 | over a run, every fold conserves its records: queued + trained grows by exactly the records it was given |
| FoldLoop.RunWithCurves | moa/src/main/java/moa/tasks/EvaluatePrequentialDelayedCVIdeal.java:461-488 | over a run, both curves only grow |
| TaskSpec.Given | moa/src/main/java/moa/tasks/EvaluatePrequentialDelayedCVIdeal.java:358-387 | fold j is given the record (1) iff its membership k is positive |
| TaskSpec.StepOfKeeps | moa/src/main/java/moa/tasks/EvaluatePrequentialDelayedCVIdeal.java:358-458 | the real fold step keeps the fold well-formed, conserves records given Given, and reports an evaluation iff the training log grew |
| TaskSpec.RuleKeeps | moa/src/main/java/moa/tasks/EvaluatePrequentialDelayedCVIdeal.java:357-459 | the fold step of one record satisfies the conservation rule in every fold |
| TaskSpec.Sweep | moa/src/main/java/moa/tasks/EvaluatePrequentialDelayedCVIdeal.java:357-459 | the fold loop over folds 0..n-1 keeps the number of folds; its effect is stated by SweepIsRound with RoundUpToEffect |
| TaskSpec.SweepIsRound | moa/src/main/java/moa/tasks/EvaluatePrequentialDelayedCVIdeal.java:357-459 | the fold loop of the task is the generic round with the real fold step plugged in |
| TaskSpec.SweepNext | moa/src/main/java/moa/tasks/EvaluatePrequentialDelayedCVIdeal.java:357-459 | fold i's turn sees fold i as it was before the record, and one more turn replaces just fold i |
| TaskSpec.ArrivalSpec | moa/src/main/java/moa/tasks/EvaluatePrequentialDelayedCVIdeal.java:325-488 | one record raises the count by exactly 1 and keeps the number of folds; the rest is stated by ArrivalBySweep |
| TaskSpec.ArrivalBySweep | moa/src/main/java/moa/tasks/EvaluatePrequentialDelayedCVIdeal.java:333-488 | one record is: count + 1, the fold loop with that count, fold snapshots appended, and a global snapshot iff released and sampled |
| TaskSpec.HoldOut | moa/src/main/java/moa/tasks/EvaluatePrequentialDelayedCVIdeal.java:358-371 | with the already-incremented count: cross-validation withholds the record from exactly fold count mod numFolds, split-validation gives it only to that fold, bootstrap gives it to a fold iff its draw is positive |
| TaskSpec.Consumed | moa/src/main/java/moa/tasks/EvaluatePrequentialDelayedCVIdeal.java:325-327 | the loop takes every record when maxInstances < 0, otherwise never passes maxInstances, and stops early only at the end of the stream or on reaching maxInstances |
| TaskSpec.RulesFor | moa/src/main/java/moa/tasks/EvaluatePrequentialDelayedCVIdeal.java:325-459 | record m of the stream is stepped with count processed + m + 1 |
| TaskSpec.RulesForKeep | moa/src/main/java/moa/tasks/EvaluatePrequentialDelayedCVIdeal.java:325-459 | every record of a run satisfies the conservation rule |
| TaskSpec.GivenAll | moa/src/main/java/moa/tasks/EvaluatePrequentialDelayedCVIdeal.java:358-387 | the memberships of record m are computed with count processed + m + 1 |
| TaskSpec.RunSpec | moa/src/main/java/moa/tasks/EvaluatePrequentialDelayedCVIdeal.java:325-488 | n records raise the count by exactly n; the rest is stated by RunStep and RunConserves |
| TaskSpec.RunStep | moa/src/main/java/moa/tasks/EvaluatePrequentialDelayedCVIdeal.java:325-488 | a run of n records is the run of n-1 followed by one record, told whether more follow |
| TaskSpec.RunConserves | moa/src/main/java/moa/tasks/EvaluatePrequentialDelayedCVIdeal.java:325-488 | over a run every fold stays well-formed and conserves its records, and both curves only grow |
| TaskSpec.RunFromStart | moa/src/main/java/moa/tasks/EvaluatePrequentialDelayedCVIdeal.java:239-488 | from the start: after n records the count is n, and in every fold tested = trained and queued + trained = records given |
| TaskSpec.ArrivalFold | moa/src/main/java/moa/tasks/EvaluatePrequentialDelayedCVIdeal.java:357-459 | after one record, fold j is that record's FoldStep of fold j with its own membership and votes |
| TaskSpec.RunFoldStep | moa/src/main/java/moa/tasks/EvaluatePrequentialDelayedCVIdeal.java:325-459 | fold j after record m of a run is record m's FoldStep of fold j as the earlier records left it, with membership computed from count processed + m + 1 |
| TaskSpec.RunFifo | moa/src/main/java/moa/tasks/EvaluatePrequentialDelayedCVIdeal.java:379-454 | over a run with no explicit match in fold j, every record fold j trains on left by timeout, and each bucket is first in, first out: the bucket at the start followed by the records the run put into it in arrival order equals what it released, in release order, followed by what still waits |
| TaskSpec.RunFifoFromStart | moa/src/main/java/moa/tasks/EvaluatePrequentialDelayedCVIdeal.java:239-454 | from the start, with no explicit match, what a bucket released followed by what still waits is exactly the records the run put into it in arrival order, so the released records are a prefix of them |
| TaskSpec.EnqueuedFromStream | moa/src/main/java/moa/tasks/EvaluatePrequentialDelayedCVIdeal.java:379-387 | every timestamp a run puts into a bucket is the timestamp of one of its records |
| TaskSpec.UnmatchedFeedback | moa/src/main/java/moa/tasks/EvaluatePrequentialDelayedCVIdeal.java:389-391 | if no feedback value of a run names a record's timestamp, either one of the stream's records or one waiting in fold j at the start, then fold j never has an explicit match, so RunFifo applies |
| DelayedCV.DelayedCVTask.constructor | moa/src/main/java/moa/tasks/EvaluatePrequentialDelayedCVIdeal.java:239-280 | the task starts in the Initial state |
| DelayedCV.DelayedCVTask.AddEvaluationOnFoldLevel | moa/src/main/java/moa/tasks/EvaluatePrequentialDelayedCVIdeal.java:533-547 | a fold snapshot is produced iff the tested count is non-zero and a multiple of the sample frequency, holding the count, fold, timestamp and evaluator |
| DelayedCV.DelayedCVTask.ReleaseFrom | moa/src/main/java/moa/tasks/EvaluatePrequentialDelayedCVIdeal.java:397-405 | one release block computes exactly ReleaseAt |
| DelayedCV.DelayedCVTask.ReleaseByFeedback | moa/src/main/java/moa/tasks/EvaluatePrequentialDelayedCVIdeal.java:391-420 | the indexOf lookups and the if / else-if compute exactly ExplicitRelease |
| DelayedCV.DelayedCVTask.ReleaseOnTimeout | moa/src/main/java/moa/tasks/EvaluatePrequentialDelayedCVIdeal.java:426-454 | the age test and head removal compute exactly TimeoutRelease |
| DelayedCV.DelayedCVTask.StepFold | moa/src/main/java/moa/tasks/EvaluatePrequentialDelayedCVIdeal.java:374-454 | enqueue, explicit release and both timeouts compute exactly FoldStep |
| DelayedCV.DelayedCVTask.StoreFold | moa/src/main/java/moa/tasks/EvaluatePrequentialDelayedCVIdeal.java:379-454 | writing fold j back changes only fold j's entries and appends the snapshots to the fold curve |
| DelayedCV.DelayedCVTask.ProcessFold | moa/src/main/java/moa/tasks/EvaluatePrequentialDelayedCVIdeal.java:358-458 | fold j's turn, in place, replaces fold j by its FoldStep result, appends its snapshots and returns isEvaluated |
| DelayedCV.DelayedCVTask.IncludedEvaluators | moa/src/main/java/moa/tasks/EvaluatePrequentialDelayedCVIdeal.java:584-590 | the filtering loop returns exactly the fold evaluators with numClasses != 0, in fold order |
| DelayedCV.DelayedCVTask.FoldTurn | moa/src/main/java/moa/tasks/EvaluatePrequentialDelayedCVIdeal.java:358-458 | turn i extends the fold loop by one fold and folds isEvaluated into newEvaluated |
| DelayedCV.DelayedCVTask.SweepFolds | moa/src/main/java/moa/tasks/EvaluatePrequentialDelayedCVIdeal.java:355-459 | the for loop over the folds leaves the folds and fold curve of Sweep and returns newEvaluated iff some fold released |
| DelayedCV.DelayedCVTask.SampleLearningCurve | moa/src/main/java/moa/tasks/EvaluatePrequentialDelayedCVIdeal.java:461-488 | a global snapshot of the included evaluators is appended iff newEvaluated and (count mod sample frequency is 0 or the stream has ended) |
| DelayedCV.DelayedCVTask.ProcessArrival | moa/src/main/java/moa/tasks/EvaluatePrequentialDelayedCVIdeal.java:330-488 | one iteration of the while loop leaves exactly ArrivalSpec of the old state |
| DelayedCV.DelayedCVTask.Run | moa/src/main/java/moa/tasks/EvaluatePrequentialDelayedCVIdeal.java:325-488 | the while loop takes Consumed records (never more than maxInstances when it is >= 0) and leaves exactly RunSpec of the old state |

## Left out

- The noise option of addResult (lines 138-142 of the evaluator) draws from `Math.random()`. The model has noise 0, so the predicted class is always the first largest vote.
- IEEE NaN and infinity are not modelled.
  - The estimator's not-applicable input is an `Option` with `None` as the marker.
  - An estimation over nothing, and a division by zero in a statistic, are `None`.
  - A statistic over a `None` is `None`.
  - The model does not claim what value Java prints in these cases.
- `Math.sqrt` is a parameter of the G-mean statistics.
- Measurement formatting is not modelled: `getPerformanceMeasurements`, its labels and percent scaling, and `Measurement.averageMeasurements`. A global snapshot holds the evaluators that enter the average, and a fold snapshot holds that fold's evaluator.
- ClassificationEvaluator.BasicClassificationPerformanceEvaluator.constructor, DelayedCV.DelayedCVTask.constructor and FoldLoop.Initial give every evaluator the state `reset(0)` leaves: empty banks and fresh scalar estimators.
  - In Java the estimator fields stay null until the first `reset(n)`, which only a labelled record of positive weight triggers (line 145 of the evaluator). Nothing in the modelled code calls `reset` earlier.
  - Java therefore throws NullPointerException on two paths where the model goes on.
  - EvaluatorSpec.AddResultSpec: a labelled record with weight <= 0 that reaches an evaluator that has never seen a positive weight makes Java fail at line 177 of the evaluator, because `weightCorrectNoChangeClassifier` is null. The model scores both baselines on the `reset(0)` state instead.
  - FoldSpec.ReleaseAt: when a fold whose evaluator has only scored class-missing records, or records of weight <= 0, takes a fold snapshot, Java fails. The failure runs from lines 547-549 of the task, through line 607, to lines 199 and 277 of the evaluator, because `weightCorrect` is null. The model appends a `FoldSnapshot` holding that evaluator instead.
  - The model does not promise these crashes.
- Inside the task, each fold's evaluator is an `EvalState` value advanced by `AddResultSpec`. The `BasicClassificationPerformanceEvaluator` class proves that the in-place object does the same.
- The task is modelled as run with `-e BasicClassificationPerformanceEvaluator`, whose estimators are the cumulative `BasicEstimator` of lines 549-559.
  - The task's evaluator option defaults to `WindowClassificationPerformanceEvaluator` (lines 140-143 of the task).
  - That subclass overrides `newEstimator` (line 563 of the evaluator), which `reset` calls for every slot, to install windowed estimators. Their code is not part of this model.
  - Under that default, FoldSpec.ReleaseAt, FoldSpec.FoldStepAccounts and DelayedCV.DelayedCVTask.ReleaseFrom do not describe the fold and global snapshots once a fold has tested more records than the window holds, because the model keeps whole-history sums.
- Learners are not modelled. Each is represented by the records it was trained on, and its vote vectors are inputs.
- The bootstrap draw from `MiscUtils.poisson` is an input, as are the stream's records and whether more follow.
- Timestamps and feedback values are `int`.
  - Java compares them as strings in `indexOf` and parses them with `Integer.valueOf` for the age test.
  - The model assumes numeric timestamps written canonically, so string equality is integer equality.
  - Unparseable timestamps are not modelled.
- `long`/`int` overflow of the counters and of timestamp differences is not modelled.
- The following are left out: CPU timing and RAM-hours, the time limit `maxSeconds`, the task monitor, the result and fold dump files, the deletion of the date and feedback attributes from the instance header, and the option declarations.
- `sampleFrequency > 0` and `numFolds > 0` are required by the configuration. The option allows 0, which would make `%` throw.
- DelayedCV.DelayedCVTask.ProcessFold works on fold j's entries as one `Fold` value and stores it back at the end of the fold's turn. The observable state after each turn is the same as Java's in-place list updates.
- The single-estimator getters are modelled as functions over the state, not as methods, because they contain no loop:
  - accuracy and error rate;
  - per-class precision and recall;
  - the temporal and M Kappas and the per-class Kappas;
  - per-class F1.
- Where the code differs from the usual description:
  - G-mean is the square root of the product of recalls, not the `numClasses`-th root;
  - accuracy exceeds 1 for weights above 1;
  - up to three records can leave a fold for one incoming record.
