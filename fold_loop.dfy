/** EvaluatePrequentialDelayedCVIdeal's record loop, over any per-fold step:
    the task's state between records, the fold loop that lets every fold
    take its step with the incoming record, the learning curve sampled after
    it, and a run over a stream of records. What each step is comes from
    TaskSpec; what holds here holds for every step that keeps its folds. */
module FoldLoop {
  import opened EvaluatorSpec
  import opened FoldSpec

  /** An entry of learningCurve: the number of records processed and the
      evaluators whose measurements getEvaluationMeasurements averages into
      it (those with numClasses != 0). */
  datatype GlobalSnapshot = GlobalSnapshot(processed: int, evaluators: seq<EvalState>)

  /** The task's state between records: one Fold per learner, the record
      count (instancesProcessed) and the two learning curves. */
  datatype TaskState = TaskState(folds: seq<Fold>, processed: int,
                                 foldCurve: seq<FoldSnapshot>, curve: seq<GlobalSnapshot>)
  {
    ghost predicate Valid(cfg: Config) {
      |folds| == cfg.numFolds && FoldsValid(folds)
    }
  }

  ghost predicate FoldsValid(folds: seq<Fold>) {
    forall j :: 0 <= j < |folds| ==> folds[j].Valid()
  }

  /** Lines 239-247 and 264-280: every fold starts with empty buckets, a zero
      tested count and a copy of the unused base evaluator (no classes until
      its first reset); nothing is processed and both curves are empty. */
  function Initial(cfg: Config): (s: TaskState)
    ensures s.Valid(cfg) && s.processed == 0 && s.foldCurve == [] && s.curve == []
    ensures forall j :: 0 <= j < |s.folds| ==> s.folds[j] == EmptyFold(ResetSpec(0))
  {
    TaskState(seq(cfg.numFolds, _ => EmptyFold(ResetSpec(0))), 0, [], [])
  }

  /** The evaluators of the folds, in fold order. */
  function Evaluators(folds: seq<Fold>): (es: seq<EvalState>)
    ensures |es| == |folds| && forall j :: 0 <= j < |folds| ==> es[j] == folds[j].evaluator
  {
    seq(|folds|, j requires 0 <= j < |folds| => folds[j].evaluator)
  }

  /** Lines 584-590: the evaluators that took part, i.e. have numClasses != 0,
      in fold order. */
  function Included(es: seq<EvalState>): seq<EvalState>
  {
    if es == [] then []
    else Included(es[..|es| - 1]) + (if es[|es| - 1].numClasses != 0 then [es[|es| - 1]] else [])
  }

  /** An evaluator is averaged iff it is one of the folds' and has seen a
      class; there are never more of them than folds. */
  lemma {:induction false} IncludedMeaning(es: seq<EvalState>)
    ensures forall e :: e in Included(es) <==> e in es && e.numClasses != 0
    ensures |Included(es)| <= |es|
  {
    if es != [] {
      var init := es[..|es| - 1];
      IncludedMeaning(init);
      assert es == init + [es[|es| - 1]];
    }
  }

  // ---------------------------------------------------------------------------
  // One record

  /** What each fold does with the incoming record: fold j, in state f,
      takes step rule(j, f). */
  type FoldRule = (nat, Fold) -> Outcome

  /** The result of running the fold loop over the first n folds. */
  datatype Round = Round(folds: seq<Fold>, snapshots: seq<FoldSnapshot>, evaluated: bool)

  /** The fold loop over folds 0 .. n-1: each fold takes its step, the fold
      snapshots are appended in fold order and newEvaluated records whether
      any fold released a record. */
  function RoundUpTo(folds: seq<Fold>, n: nat, rule: FoldRule): (r: Round)
    requires n <= |folds|
    ensures |r.folds| == |folds|
  {
    if n == 0 then Round(folds, [], false)
    else
      var r := RoundUpTo(folds, n - 1, rule);
      var o := rule(n - 1, folds[n - 1]);
      Round(r.folds[n - 1 := o.fold], r.snapshots + o.snapshots, r.evaluated || o.evaluated)
  }

  /** Each fold among the first n has taken its own step, independently of
      the others, the rest are untouched, and newEvaluated is set iff one of
      those steps released a record. */
  lemma {:induction false} RoundUpToEffect(folds: seq<Fold>, n: nat, rule: FoldRule)
    requires n <= |folds|
    ensures var r := RoundUpTo(folds, n, rule);
            && (forall j :: 0 <= j < n ==> r.folds[j] == rule(j, folds[j]).fold)
            && (forall j :: n <= j < |folds| ==> r.folds[j] == folds[j])
            && (r.evaluated <==> exists j :: 0 <= j < n && rule(j, folds[j]).evaluated)
  {
    if n > 0 {
      RoundUpToEffect(folds, n - 1, rule);
      if rule(n - 1, folds[n - 1]).evaluated {
        assert RoundUpTo(folds, n, rule).evaluated;
      }
    }
  }

  /** Fold f became f' having been given `joined` new records: no record is
      lost or duplicated (queued plus trained grows by exactly `joined`),
      every record trained on was counted as tested, and the training
      history only grows. */
  ghost predicate Conserves(f: Fold, f': Fold, joined: nat)
  {
    && f'.Queued() + |f'.trained| == f.Queued() + |f.trained| + joined
    && f'.tested - |f'.trained| == f.tested - |f.trained|
    && f.trained <= f'.trained
  }

  lemma ConservesTrans(f: Fold, g: Fold, h: Fold, m: nat, n: nat)
    requires Conserves(f, g, m) && Conserves(g, h, n)
    ensures Conserves(f, h, m + n)
  {
  }

  /** A rule that takes every valid fold j < |joins| to a valid fold, gives
      it joins[j] new records without losing any, and reports a release
      exactly when the fold's training history grew. */
  ghost predicate Keeps(rule: FoldRule, joins: seq<nat>)
  {
    forall j: nat, f: Fold :: j < |joins| && f.Valid() ==>
      && rule(j, f).fold.Valid()
      && Conserves(f, rule(j, f).fold, joins[j])
      && (rule(j, f).evaluated <==> |rule(j, f).fold.trained| > |f.trained|)
  }

  /** Lines 325-462 for one record, whatever each fold's step: the count
      goes up, every fold takes its step, and a learning-curve entry holding
      the evaluators that have seen a class is added iff some fold released
      a record and the count is a multiple of the sampling frequency or the
      stream has no more records. */
  function Arrive(s: TaskState, rule: FoldRule, hasMore: bool, cfg: Config): (s': TaskState)
    requires cfg.Valid() && s.processed >= 0
    ensures |s'.folds| == |s.folds| && s'.processed == s.processed + 1
  {
    var processed := s.processed + 1;
    var r := RoundUpTo(s.folds, |s.folds|, rule);
    var sampled := r.evaluated && (processed % cfg.sampleFrequency == 0 || !hasMore);
    TaskState(r.folds, processed, s.foldCurve + r.snapshots,
              s.curve + if sampled then [GlobalSnapshot(processed, Included(Evaluators(r.folds)))] else [])
  }

  /** One record under a rule that keeps its folds leaves every fold valid
      and conserving its records, each gaining what `joins` says. */
  lemma ArriveKept(s: TaskState, rule: FoldRule, joins: seq<nat>, hasMore: bool, cfg: Config)
    requires cfg.Valid() && s.processed >= 0 && FoldsValid(s.folds)
    requires |joins| == |s.folds| && Keeps(rule, joins)
    ensures var s' := Arrive(s, rule, hasMore, cfg);
            && FoldsValid(s'.folds)
            && forall j :: 0 <= j < |s.folds| ==> Conserves(s.folds[j], s'.folds[j], joins[j])
  {
    RoundUpToEffect(s.folds, |s.folds|, rule);
  }

  /** One record under a rule that keeps its folds: fold snapshots are only
      appended, and the learning curve gains an entry, holding the
      evaluators that have seen a class, exactly when some fold trained on
      a released record and the count is a multiple of the sampling
      frequency or the stream is exhausted. */
  lemma ArriveSampled(s: TaskState, rule: FoldRule, joins: seq<nat>, hasMore: bool, cfg: Config)
    requires cfg.Valid() && s.processed >= 0 && FoldsValid(s.folds)
    requires |joins| == |s.folds| && Keeps(rule, joins)
    ensures var s' := Arrive(s, rule, hasMore, cfg);
            var released := exists j :: 0 <= j < |s.folds| && |s'.folds[j].trained| > |s.folds[j].trained|;
            var sampled := released && (s'.processed % cfg.sampleFrequency == 0 || !hasMore);
            && s.foldCurve <= s'.foldCurve
            && (sampled ==> s'.curve == s.curve + [GlobalSnapshot(s'.processed, Included(Evaluators(s'.folds)))])
            && (!sampled ==> s'.curve == s.curve)
  {
    var r := RoundUpTo(s.folds, |s.folds|, rule);
    RoundUpToEffect(s.folds, |s.folds|, rule);
    var s' := Arrive(s, rule, hasMore, cfg);
    assert s'.folds == r.folds;
    if r.evaluated {
      var j :| 0 <= j < |s.folds| && rule(j, s.folds[j]).evaluated;
      assert |s'.folds[j].trained| > |s.folds[j].trained|;
    }
    if j :| 0 <= j < |s.folds| && |s'.folds[j].trained| > |s.folds[j].trained| {
      assert rule(j, s.folds[j]).evaluated;
    }
  }

  /** After one record, fold j is what its own step made of it. */
  lemma ArriveFold(s: TaskState, rule: FoldRule, hasMore: bool, cfg: Config, j: nat)
    requires cfg.Valid() && s.processed >= 0 && j < |s.folds|
    ensures Arrive(s, rule, hasMore, cfg).folds[j] == rule(j, s.folds[j]).fold
  {
    RoundUpToEffect(s.folds, |s.folds|, rule);
  }

  /** One record, under any rule, only appends to both learning curves. */
  lemma ArriveGrows(s: TaskState, rule: FoldRule, hasMore: bool, cfg: Config)
    requires cfg.Valid() && s.processed >= 0
    ensures var s' := Arrive(s, rule, hasMore, cfg);
            s.foldCurve <= s'.foldCurve && s.curve <= s'.curve
  {
  }

  // ---------------------------------------------------------------------------
  // A run

  /** The task after the first n records, record m handled by rules[m];
      hasMoreInstances is false only after the last one. */
  function RunWith(s: TaskState, rules: seq<FoldRule>, n: nat, cfg: Config): (s': TaskState)
    requires cfg.Valid() && s.processed >= 0 && n <= |rules|
    ensures |s'.folds| == |s.folds| && s'.processed == s.processed + n
  {
    if n == 0 then s
    else Arrive(RunWith(s, rules, n - 1, cfg), rules[n - 1], n < |rules|, cfg)
  }

  /** How many of the first n records fold j was given, joins[m][j] by the
      m-th. */
  function Joined(joins: seq<seq<nat>>, n: nat, j: nat): nat
    requires n <= |joins| && forall m :: 0 <= m < |joins| ==> j < |joins[m]|
  {
    if n == 0 then 0 else Joined(joins, n - 1, j) + joins[n - 1][j]
  }

  /** A run whose every rule keeps its folds leaves every fold valid and
      conserving its records. */
  lemma {:induction false} RunWithKept(s: TaskState, rules: seq<FoldRule>, joins: seq<seq<nat>>, n: nat, cfg: Config)
    requires cfg.Valid() && s.processed >= 0 && FoldsValid(s.folds) && n <= |rules| == |joins|
    requires forall m :: 0 <= m < |rules| ==> |joins[m]| == |s.folds| && Keeps(rules[m], joins[m])
    ensures var s' := RunWith(s, rules, n, cfg);
            && FoldsValid(s'.folds)
            && forall j :: 0 <= j < |s.folds| ==> Conserves(s.folds[j], s'.folds[j], Joined(joins, n, j))
  {
    if n > 0 {
      RunWithKept(s, rules, joins, n - 1, cfg);
      var prev := RunWith(s, rules, n - 1, cfg);
      ArriveKept(prev, rules[n - 1], joins[n - 1], n < |rules|, cfg);
      var s' := RunWith(s, rules, n, cfg);
      forall j | 0 <= j < |s.folds|
        ensures Conserves(s.folds[j], s'.folds[j], Joined(joins, n, j))
      {
        ConservesTrans(s.folds[j], prev.folds[j], s'.folds[j], Joined(joins, n - 1, j), joins[n - 1][j]);
      }
    }
  }

  /** Over any run, both learning curves only grow. */
  lemma {:induction false} RunWithCurves(s: TaskState, rules: seq<FoldRule>, n: nat, cfg: Config)
    requires cfg.Valid() && s.processed >= 0 && n <= |rules|
    ensures var s' := RunWith(s, rules, n, cfg);
            s.foldCurve <= s'.foldCurve && s.curve <= s'.curve
  {
    if n > 0 {
      RunWithCurves(s, rules, n - 1, cfg);
      ArriveGrows(RunWith(s, rules, n - 1, cfg), rules[n - 1], n < |rules|, cfg);
    }
  }

}
