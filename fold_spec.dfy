/** One fold of EvaluatePrequentialDelayedCVIdeal as values: the two
    delayed-label buckets (records predicted positive and negative, each a
    list of records beside a parallel list of their timestamps), the count of
    records released and tested, the learner's training history and the
    fold's evaluator. FoldStep is the body of the per-fold loop for one
    incoming record; the controller in delayed_cv.dfy is proved to perform it. */
module FoldSpec {
  import opened Estimators
  import opened EvaluatorSpec

  /** positiveClass: records predicted as this class wait in the positive
      bucket, all others in the negative bucket. */
  const PositiveClass: nat := 1

  datatype Methodology = CrossValidation | Bootstrap | SplitValidation

  /** The task options the per-record body reads. */
  datatype Config = Config(numFolds: nat, methodology: Methodology,
                           positiveWindow: int, negativeWindow: int,
                           sampleFrequency: nat, headerClasses: nat)
  {
    /** At least one fold (the option's minimum) and a positive sampling
        frequency (a frequency of 0 makes `%` throw). */
    predicate Valid() {
      numFolds > 0 && sampleFrequency > 0
    }
  }

  /** An incoming record: the example, its timestamp, and the feedback value
      naming the timestamp of an earlier record whose label has arrived. */
  datatype Arrival = Arrival(inst: Instance, timestamp: int, feedback: int)

  datatype Bucket = Positive | Negative

  function Other(b: Bucket): Bucket {
    if b == Positive then Negative else Positive
  }

  datatype Cause = Feedback | Timeout

  /** A record leaving a bucket: it is scored with `votes` and then trained on. */
  datatype Release = Release(inst: Instance, enqueuedAt: int, bucket: Bucket, cause: Cause, votes: seq<real>)

  /** An entry of learningFoldCurve: the fold's tested count, the fold, the
      timestamp of the record being processed and the fold's evaluator. */
  datatype FoldSnapshot = FoldSnapshot(tested: int, fold: nat, timestamp: int, evaluator: EvalState)

  datatype Fold = Fold(posInstances: seq<Instance>, posTimestamps: seq<int>,
                       negInstances: seq<Instance>, negTimestamps: seq<int>,
                       tested: int, trained: seq<Release>, evaluator: EvalState)
  {
    /** Each bucket's record list and timestamp list have equal length. */
    predicate Valid() {
      |posInstances| == |posTimestamps| && |negInstances| == |negTimestamps| && evaluator.WellFormed()
    }

    function Instances(b: Bucket): seq<Instance> {
      if b == Positive then posInstances else negInstances
    }

    function Timestamps(b: Bucket): seq<int> {
      if b == Positive then posTimestamps else negTimestamps
    }

    function Queued(): nat {
      |posTimestamps| + |negTimestamps|
    }
  }

  /** What one part of the per-fold body leaves: the fold, the fold
      snapshots taken, and whether a record was released (isEvaluated). */
  datatype Outcome = Outcome(fold: Fold, snapshots: seq<FoldSnapshot>, evaluated: bool)

  /** A fold before the first record: empty buckets, nothing tested, the
      evaluator `e`. */
  function EmptyFold(e: EvalState): (f: Fold)
    requires e.WellFormed()
    ensures f.Valid() && f.Queued() == 0 && f.tested == 0 && f.trained == []
  {
    Fold([], [], [], [], 0, [], e)
  }

  // ---------------------------------------------------------------------------
  // Membership

  /** k for fold `fold` of the record numbered `processed` (counted from 1):
      cross-validation tests on all folds but one, split-validation on that
      one only, bootstrap uses the Poisson draw. */
  function Membership(m: Methodology, processed: nat, numFolds: nat, fold: nat, draw: nat): nat
    requires numFolds > 0
  {
    match m
    case CrossValidation => if processed % numFolds == fold then 0 else 1
    case Bootstrap => draw
    case SplitValidation => if processed % numFolds == fold then 1 else 0
  }

  /** Under cross-validation exactly one fold, number processed % numFolds,
      does not receive the record, split-validation gives it to exactly that
      fold, and the two are complements. */
  lemma MembershipSplitsFolds(processed: nat, numFolds: nat, fold: nat, draw: nat)
    requires numFolds > 0
    ensures processed % numFolds < numFolds
    ensures Membership(CrossValidation, processed, numFolds, fold, draw) == 0 <==> fold == processed % numFolds
    ensures Membership(SplitValidation, processed, numFolds, fold, draw) == 1 <==> fold == processed % numFolds
    ensures Membership(CrossValidation, processed, numFolds, fold, draw) +
            Membership(SplitValidation, processed, numFolds, fold, draw) == 1
  {
  }

  // ---------------------------------------------------------------------------
  // List operations

  /** LinkedList.indexOf: the first position holding x, or -1. */
  function IndexOf(s: seq<int>, x: int): (r: int)
    ensures -1 <= r < |s|
    ensures r == -1 <==> x !in s
    ensures r >= 0 ==> s[r] == x && x !in s[..r]
  {
    if s == [] then -1
    else if s[0] == x then 0
    else
      var r := IndexOf(s[1..], x);
      assert x in s[1..] ==> x in s;
      assert x in s ==> x in s[1..] by {
        if x in s {
          var j :| 0 <= j < |s| && s[j] == x;
          assert s[1..][j - 1] == x;
        }
      }
      if r == -1 then -1
      else
        assert s[..r + 1] == [s[0]] + s[1..][..r];
        r + 1
  }

  /** LinkedList.remove(index): the element at i taken out, the others kept
      in order. */
  function RemoveAt<T>(s: seq<T>, i: nat): (r: seq<T>)
    requires i < |s|
    ensures |r| == |s| - 1
    ensures forall j :: 0 <= j < i ==> r[j] == s[j]
    ensures forall j :: i <= j < |r| ==> r[j] == s[j + 1]
    ensures multiset(r) + multiset{s[i]} == multiset(s)
  {
    assert s == s[..i] + [s[i]] + s[i + 1..];
    s[..i] + s[i + 1..]
  }

  // ---------------------------------------------------------------------------
  // The per-fold body

  /** The bucket a record waits in when its learner predicts `predicted`. */
  function BucketOf(predicted: nat): Bucket {
    if predicted == PositiveClass then Positive else Negative
  }

  /** What a record with membership k and prediction `predicted` adds to
      bucket b: x when it joins b, nothing otherwise. */
  function Joining<T>(x: T, k: nat, predicted: nat, b: Bucket): seq<T> {
    if k > 0 && BucketOf(predicted) == b then [x] else []
  }

  /** Lines 379-387: a record with k > 0 joins the tail of the positive bucket
      if predicted positive and of the negative bucket otherwise. */
  function Enqueue(f: Fold, k: nat, predicted: nat, inst: Instance, ts: int): Fold
  {
    if k == 0 then f
    else if predicted == PositiveClass then
      f.(posInstances := f.posInstances + [inst], posTimestamps := f.posTimestamps + [ts])
    else
      f.(negInstances := f.negInstances + [inst], negTimestamps := f.negTimestamps + [ts])
  }

  /** The training-history entry of the record at position i of bucket b. */
  function Entry(f: Fold, b: Bucket, i: nat, cause: Cause, votes: seq<real>): Release
    requires f.Valid() && i < |f.Timestamps(b)|
  {
    Release(f.Instances(b)[i], f.Timestamps(b)[i], b, cause, votes)
  }

  /** One release from bucket b at position i: the entry leaves both parallel
      lists, the fold's evaluator scores it with `votes`, the learner trains
      on it, the tested count goes up and addEvaluationOnFoldLevel takes a
      snapshot when the count is a multiple of the sampling frequency. */
  function ReleaseAt(f: Fold, b: Bucket, i: nat, cause: Cause, votes: seq<real>,
                     cfg: Config, fold: nat, ts: int): (o: Outcome)
    requires f.Valid() && cfg.Valid() && i < |f.Timestamps(b)|
    ensures o.fold.Valid()
  {
    var inst := f.Instances(b)[i];
    var e := AddResultSpec(f.evaluator, inst, votes, cfg.headerClasses);
    var tested := f.tested + 1;
    var g := if b == Positive
             then f.(posInstances := RemoveAt(f.posInstances, i), posTimestamps := RemoveAt(f.posTimestamps, i))
             else f.(negInstances := RemoveAt(f.negInstances, i), negTimestamps := RemoveAt(f.negTimestamps, i));
    var g' := g.(tested := tested,
                 trained := f.trained + [Entry(f, b, i, cause, votes)],
                 evaluator := e);
    Outcome(g', if tested != 0 && tested % cfg.sampleFrequency == 0
                then [FoldSnapshot(tested, fold, ts, e)] else [], true)
  }

  /** The outcome o followed by a release from its fold. */
  function Then(o: Outcome, b: Bucket, i: nat, cause: Cause, votes: seq<real>,
                cfg: Config, fold: nat, ts: int): (r: Outcome)
    requires o.fold.Valid() && cfg.Valid() && i < |o.fold.Timestamps(b)|
    ensures r.fold.Valid()
  {
    var next := ReleaseAt(o.fold, b, i, cause, votes, cfg, fold, ts);
    Outcome(next.fold, o.snapshots + next.snapshots, true)
  }

  function Max(a: int, b: int): int {
    if a >= b then a else b
  }

  /** Lines 391-420: a record whose feedback value equals the timestamp of a
      waiting record releases the first such record, looked for in the
      positive bucket first and in the negative bucket only when the positive
      bucket has none. */
  function ExplicitRelease(o: Outcome, feedback: int, votes: seq<real>, cfg: Config, fold: nat, ts: int): (r: Outcome)
    requires o.fold.Valid() && cfg.Valid()
    ensures r.fold.Valid()
  {
    var indexPos := IndexOf(o.fold.posTimestamps, feedback);
    var indexNeg := IndexOf(o.fold.negTimestamps, feedback);
    if Max(indexNeg, indexPos) != -1 then
      if indexPos != -1 then Then(o, Positive, indexPos, Feedback, votes, cfg, fold, ts)
      else if indexNeg != -1 then Then(o, Negative, indexNeg, Feedback, votes, cfg, fold, ts)
      else o
    else o
  }

  /** Lines 426-454: the oldest record of bucket b is released when it has
      waited at least `window` time units. */
  function TimeoutRelease(o: Outcome, b: Bucket, window: int, votes: seq<real>, cfg: Config, fold: nat, ts: int): (r: Outcome)
    requires o.fold.Valid() && cfg.Valid()
    ensures r.fold.Valid()
  {
    var stamps := o.fold.Timestamps(b);
    if |stamps| != 0 && window <= ts - stamps[0] then Then(o, b, 0, Timeout, votes, cfg, fold, ts)
    else o
  }

  /** The parts of the body of the fold loop. */
  datatype Stage = Admit | ExplicitStage | TimeoutStage(bucket: Bucket)

  /** Lines 379-454: the parts in the order they run: enqueue, explicit
      release, then a timeout release from the positive bucket and one from
      the negative bucket. */
  const Stages: seq<Stage> := [Admit, ExplicitStage, TimeoutStage(Positive), TimeoutStage(Negative)]

  /** The timeout of bucket b. */
  function Window(cfg: Config, b: Bucket): int {
    if b == Positive then cfg.positiveWindow else cfg.negativeWindow
  }

  /** One part of the body of the fold loop for fold `fold`, membership k,
      the learner's votes and the incoming record a. */
  function Perform(o: Outcome, stage: Stage, k: nat, votes: seq<real>, a: Arrival, cfg: Config, fold: nat): (r: Outcome)
    requires o.fold.Valid() && cfg.Valid()
    ensures r.fold.Valid()
  {
    match stage
    case Admit => Outcome(Enqueue(o.fold, k, MaxIndex(votes), a.inst, a.timestamp), o.snapshots, o.evaluated)
    case ExplicitStage => ExplicitRelease(o, a.feedback, votes, cfg, fold, a.timestamp)
    case TimeoutStage(b) => TimeoutRelease(o, b, Window(cfg, b), votes, cfg, fold, a.timestamp)
  }

  /** The given parts, run in order. */
  function PerformAll(o: Outcome, stages: seq<Stage>, k: nat, votes: seq<real>, a: Arrival, cfg: Config, fold: nat): (r: Outcome)
    requires o.fold.Valid() && cfg.Valid()
    ensures r.fold.Valid()
    decreases |stages|
  {
    if stages == [] then o
    else PerformAll(Perform(o, stages[0], k, votes, a, cfg, fold), stages[1..], k, votes, a, cfg, fold)
  }

  /** Lines 358-458: the body of the fold loop for fold `fold`, membership k
      and the learner's votes for the incoming record. */
  function FoldStep(f: Fold, k: nat, votes: seq<real>, a: Arrival, cfg: Config, fold: nat): (r: Outcome)
    requires f.Valid() && cfg.Valid()
    ensures r.fold.Valid()
  {
    PerformAll(Outcome(f, [], false), Stages, k, votes, a, cfg, fold)
  }

  /** The step written out: the record joins its bucket, then at most one
      explicit release, then a timeout check on the positive bucket and one
      on the negative bucket. */
  lemma FoldStepStages(f: Fold, k: nat, votes: seq<real>, a: Arrival, cfg: Config, fold: nat)
    requires f.Valid() && cfg.Valid()
    ensures var o0 := Outcome(Enqueue(f, k, MaxIndex(votes), a.inst, a.timestamp), [], false);
            var o1 := ExplicitRelease(o0, a.feedback, votes, cfg, fold, a.timestamp);
            var o2 := TimeoutRelease(o1, Positive, cfg.positiveWindow, votes, cfg, fold, a.timestamp);
            FoldStep(f, k, votes, a, cfg, fold) == TimeoutRelease(o2, Negative, cfg.negativeWindow, votes, cfg, fold, a.timestamp)
  {
    var o0 := Outcome(Enqueue(f, k, MaxIndex(votes), a.inst, a.timestamp), [], false);
    var o1 := ExplicitRelease(o0, a.feedback, votes, cfg, fold, a.timestamp);
    var o2 := TimeoutRelease(o1, Positive, cfg.positiveWindow, votes, cfg, fold, a.timestamp);
    var o3 := TimeoutRelease(o2, Negative, cfg.negativeWindow, votes, cfg, fold, a.timestamp);
    var rest := [TimeoutStage(Negative)];
    assert PerformAll(o3, rest[1..], k, votes, a, cfg, fold) == o3;
    assert PerformAll(o2, rest, k, votes, a, cfg, fold) == o3;
    rest := [TimeoutStage(Positive)] + rest;
    assert PerformAll(o1, rest, k, votes, a, cfg, fold) == o3;
    rest := [ExplicitStage] + rest;
    assert PerformAll(o0, rest, k, votes, a, cfg, fold) == o3;
    assert Stages == [Admit] + rest;
  }

  // ---------------------------------------------------------------------------
  // What one step does to a fold

  /** The evaluator after scoring the releases rs in order, each with the
      votes it was released with. */
  function Replay(e: EvalState, rs: seq<Release>, h: nat): (r: EvalState)
    requires e.WellFormed()
    ensures r.WellFormed()
  {
    if rs == [] then e
    else
      var last := rs[|rs| - 1];
      AddResultSpec(Replay(e, rs[..|rs| - 1], h), last.inst, last.votes, h)
  }

  /** The entries a fold's training history gained since fold f. */
  function NewReleases(f: Fold, g: Fold): seq<Release>
  {
    if |f.trained| <= |g.trained| then g.trained[|f.trained|..] else []
  }

  /** The tested counts of a list of snapshots. */
  function Testeds(snaps: seq<FoldSnapshot>): seq<int>
  {
    if snaps == [] then [] else Testeds(snaps[..|snaps| - 1]) + [snaps[|snaps| - 1].tested]
  }

  /** The non-zero multiples of the sampling frequency in (lo, hi], ascending. */
  function Multiples(lo: int, hi: int, freq: nat): seq<int>
    requires freq > 0
    decreases hi - lo
  {
    if hi <= lo then []
    else Multiples(lo, hi - 1, freq) + (if hi != 0 && hi % freq == 0 then [hi] else [])
  }

  /** How outcome o relates to the fold f the step started from, after
      `enqueued` (0 or 1) records joined a bucket: records are conserved
      between the buckets and the learner's training history. */
  ghost predicate TracksQueue(f: Fold, o: Outcome, enqueued: nat)
  {
    o.fold.Queued() + |o.fold.trained| == f.Queued() + |f.trained| + enqueued
  }

  /** The releases so far were appended to the training history, each counted
      once as tested and scored with the step's votes, the evaluator is f's
      having scored them in order, and isEvaluated is set iff there was one. */
  ghost predicate TracksHistory(f: Fold, o: Outcome, released: seq<Release>, votes: seq<real>, h: nat)
    requires f.Valid()
  {
    && o.fold.trained == f.trained + released
    && o.fold.tested == f.tested + |released|
    && (o.evaluated <==> released != [])
    && (forall x :: x in released ==> x.votes == votes)
    && o.fold.evaluator == Replay(f.evaluator, released, h)
  }

  /** A fold snapshot was taken, for this fold and this record's timestamp,
      at every multiple of the sampling frequency the tested count passed. */
  ghost predicate TracksSnapshots(f: Fold, o: Outcome, cfg: Config, fold: nat, ts: int)
    requires cfg.Valid()
  {
    && f.tested <= o.fold.tested
    && Testeds(o.snapshots) == Multiples(f.tested, o.fold.tested, cfg.sampleFrequency)
    && (forall s :: s in o.snapshots ==> s.fold == fold && s.timestamp == ts)
  }

  ghost predicate Tracks(f: Fold, o: Outcome, released: seq<Release>, enqueued: nat,
                         votes: seq<real>, cfg: Config, fold: nat, ts: int)
    requires f.Valid() && cfg.Valid()
  {
    && TracksQueue(f, o, enqueued)
    && TracksHistory(f, o, released, votes, cfg.headerClasses)
    && TracksSnapshots(f, o, cfg, fold, ts)
  }

  lemma ReplayStep(e: EvalState, rs: seq<Release>, x: Release, h: nat)
    requires e.WellFormed()
    ensures Replay(e, rs + [x], h) == AddResultSpec(Replay(e, rs, h), x.inst, x.votes, h)
  {
    assert (rs + [x])[..|rs|] == rs;
  }

  lemma TestedsAppend(a: seq<FoldSnapshot>, b: seq<FoldSnapshot>)
    requires |b| <= 1
    ensures Testeds(a + b) == Testeds(a) + Testeds(b)
  {
    if b == [] {
      assert a + b == a;
    } else {
      assert (a + b)[..|a|] == a;
      assert Testeds(b) == [b[0].tested];
    }
  }

  /** One release: the entry at position i leaves both lists of bucket b (the
      others keep their order), the other bucket is untouched, the record is
      appended to the training history, counted as tested and scored with
      `votes`, and a snapshot is taken iff the new count is a non-zero
      multiple of the sampling frequency. */
  lemma ReleaseAtEffect(f: Fold, b: Bucket, i: nat, cause: Cause, votes: seq<real>,
                        cfg: Config, fold: nat, ts: int)
    requires f.Valid() && cfg.Valid() && i < |f.Timestamps(b)|
    ensures var o := ReleaseAt(f, b, i, cause, votes, cfg, fold, ts);
            var x := Entry(f, b, i, cause, votes);
            && o.evaluated
            && o.fold.Timestamps(b) == RemoveAt(f.Timestamps(b), i)
            && o.fold.Instances(b) == RemoveAt(f.Instances(b), i)
            && o.fold.Timestamps(Other(b)) == f.Timestamps(Other(b))
            && o.fold.Instances(Other(b)) == f.Instances(Other(b))
            && o.fold.trained == f.trained + [x]
            && o.fold.tested == f.tested + 1
            && o.fold.evaluator == AddResultSpec(f.evaluator, x.inst, votes, cfg.headerClasses)
            && (o.snapshots != [] <==> (f.tested + 1) % cfg.sampleFrequency == 0 && f.tested + 1 != 0)
            && (o.snapshots != [] ==> o.snapshots == [FoldSnapshot(f.tested + 1, fold, ts, o.fold.evaluator)])
  {
  }

  lemma ThenQueue(f: Fold, o: Outcome, b: Bucket, i: nat, cause: Cause, votes: seq<real>,
                  cfg: Config, fold: nat, ts: int, enqueued: nat)
    requires o.fold.Valid() && cfg.Valid() && i < |o.fold.Timestamps(b)|
    requires TracksQueue(f, o, enqueued)
    ensures TracksQueue(f, Then(o, b, i, cause, votes, cfg, fold, ts), enqueued)
  {
  }

  lemma ThenHistory(f: Fold, o: Outcome, released: seq<Release>, b: Bucket, i: nat, cause: Cause,
                    votes: seq<real>, cfg: Config, fold: nat, ts: int)
    requires f.Valid() && o.fold.Valid() && cfg.Valid() && i < |o.fold.Timestamps(b)|
    requires TracksHistory(f, o, released, votes, cfg.headerClasses)
    ensures TracksHistory(f, Then(o, b, i, cause, votes, cfg, fold, ts),
                          released + [Entry(o.fold, b, i, cause, votes)], votes, cfg.headerClasses)
  {
    var x := Entry(o.fold, b, i, cause, votes);
    ReleaseAtEffect(o.fold, b, i, cause, votes, cfg, fold, ts);
    ReplayStep(f.evaluator, released, x, cfg.headerClasses);
  }

  lemma ThenSnapshots(f: Fold, o: Outcome, b: Bucket, i: nat, cause: Cause, votes: seq<real>,
                      cfg: Config, fold: nat, ts: int)
    requires o.fold.Valid() && cfg.Valid() && i < |o.fold.Timestamps(b)|
    requires TracksSnapshots(f, o, cfg, fold, ts)
    ensures TracksSnapshots(f, Then(o, b, i, cause, votes, cfg, fold, ts), cfg, fold, ts)
  {
    var next := ReleaseAt(o.fold, b, i, cause, votes, cfg, fold, ts);
    TestedsAppend(o.snapshots, next.snapshots);
  }

  /** A release keeps Tracks and adds exactly one release. */
  lemma ThenTracks(f: Fold, o: Outcome, released: seq<Release>, b: Bucket, i: nat, cause: Cause,
                   votes: seq<real>, cfg: Config, fold: nat, ts: int, enqueued: nat)
    requires f.Valid() && o.fold.Valid() && cfg.Valid() && i < |o.fold.Timestamps(b)|
    requires Tracks(f, o, released, enqueued, votes, cfg, fold, ts)
    ensures Tracks(f, Then(o, b, i, cause, votes, cfg, fold, ts),
                   released + [Entry(o.fold, b, i, cause, votes)], enqueued, votes, cfg, fold, ts)
  {
    ThenQueue(f, o, b, i, cause, votes, cfg, fold, ts, enqueued);
    ThenHistory(f, o, released, b, i, cause, votes, cfg, fold, ts);
    ThenSnapshots(f, o, b, i, cause, votes, cfg, fold, ts);
  }

  /** The explicit-feedback release keeps Tracks and adds at most one release. */
  lemma ExplicitTracks(f: Fold, o: Outcome, released: seq<Release>, feedback: int, votes: seq<real>,
                       cfg: Config, fold: nat, ts: int, enqueued: nat)
    returns (released': seq<Release>)
    requires f.Valid() && o.fold.Valid() && cfg.Valid()
    requires Tracks(f, o, released, enqueued, votes, cfg, fold, ts)
    ensures Tracks(f, ExplicitRelease(o, feedback, votes, cfg, fold, ts), released', enqueued, votes, cfg, fold, ts)
    ensures |released| <= |released'| <= |released| + 1
  {
    var indexPos := IndexOf(o.fold.posTimestamps, feedback);
    var indexNeg := IndexOf(o.fold.negTimestamps, feedback);
    if indexPos != -1 {
      ThenTracks(f, o, released, Positive, indexPos, Feedback, votes, cfg, fold, ts, enqueued);
      released' := released + [Entry(o.fold, Positive, indexPos, Feedback, votes)];
    } else if indexNeg != -1 {
      ThenTracks(f, o, released, Negative, indexNeg, Feedback, votes, cfg, fold, ts, enqueued);
      released' := released + [Entry(o.fold, Negative, indexNeg, Feedback, votes)];
    } else {
      released' := released;
    }
  }

  /** A timeout release keeps Tracks and adds at most one release. */
  lemma TimeoutTracks(f: Fold, o: Outcome, released: seq<Release>, b: Bucket, window: int, votes: seq<real>,
                      cfg: Config, fold: nat, ts: int, enqueued: nat)
    returns (released': seq<Release>)
    requires f.Valid() && o.fold.Valid() && cfg.Valid()
    requires Tracks(f, o, released, enqueued, votes, cfg, fold, ts)
    ensures Tracks(f, TimeoutRelease(o, b, window, votes, cfg, fold, ts), released', enqueued, votes, cfg, fold, ts)
    ensures |released| <= |released'| <= |released| + 1
  {
    var stamps := o.fold.Timestamps(b);
    if |stamps| != 0 && window <= ts - stamps[0] {
      ThenTracks(f, o, released, b, 0, Timeout, votes, cfg, fold, ts, enqueued);
      released' := released + [Entry(o.fold, b, 0, Timeout, votes)];
    } else {
      released' := released;
    }
  }

  /** One step of a fold: a record with k > 0 is queued, between zero and
      three records are released, each of them is counted once as tested,
      scored with the incoming record's votes (not the votes it was queued
      with) and appended to the learner's training history, the evaluator is
      the old one having scored exactly those releases, isEvaluated says
      whether there was one, and the fold snapshots are those of the
      multiples of the sampling frequency the tested count passed. Records
      are conserved: queued before + joined == queued after + released. */
  lemma FoldStepAccounts(f: Fold, k: nat, votes: seq<real>, a: Arrival, cfg: Config, fold: nat)
    requires f.Valid() && cfg.Valid()
    ensures var r := FoldStep(f, k, votes, a, cfg, fold);
            var released := NewReleases(f, r.fold);
            && r.fold.trained == f.trained + released
            && |released| <= 3
            && r.fold.tested == f.tested + |released|
            && r.fold.Queued() + |released| == f.Queued() + (if k > 0 then 1 else 0)
            && (r.evaluated <==> released != [])
            && (forall x :: x in released ==> x.votes == votes)
            && r.fold.evaluator == Replay(f.evaluator, released, cfg.headerClasses)
            && Testeds(r.snapshots) == Multiples(f.tested, r.fold.tested, cfg.sampleFrequency)
            && (forall s :: s in r.snapshots ==> s.fold == fold && s.timestamp == a.timestamp)
  {
    var enqueued := if k > 0 then 1 else 0;
    var o0 := Outcome(Enqueue(f, k, MaxIndex(votes), a.inst, a.timestamp), [], false);
    assert f.trained + [] == f.trained;
    assert Tracks(f, o0, [], enqueued, votes, cfg, fold, a.timestamp);
    var o1 := ExplicitRelease(o0, a.feedback, votes, cfg, fold, a.timestamp);
    var rel1 := ExplicitTracks(f, o0, [], a.feedback, votes, cfg, fold, a.timestamp, enqueued);
    var o2 := TimeoutRelease(o1, Positive, cfg.positiveWindow, votes, cfg, fold, a.timestamp);
    var rel2 := TimeoutTracks(f, o1, rel1, Positive, cfg.positiveWindow, votes, cfg, fold, a.timestamp, enqueued);
    var rel3 := TimeoutTracks(f, o2, rel2, Negative, cfg.negativeWindow, votes, cfg, fold, a.timestamp, enqueued);
    var r := FoldStep(f, k, votes, a, cfg, fold);
    FoldStepStages(f, k, votes, a, cfg, fold);
    assert Tracks(f, r, rel3, enqueued, votes, cfg, fold, a.timestamp);
    assert NewReleases(f, r.fold) == rel3;
  }

  // ---------------------------------------------------------------------------
  // The rules of each part of the step

  /** Lines 379-387: with k > 0 the record joins the tail of the bucket its
      prediction selects, with its timestamp at the tail of the parallel
      list; with k == 0 nothing changes. */
  lemma EnqueueRule(f: Fold, k: nat, predicted: nat, inst: Instance, ts: int)
    requires f.Valid()
    ensures var g := Enqueue(f, k, predicted, inst, ts);
            var b := BucketOf(predicted);
            && g.Valid()
            && (k == 0 ==> g == f)
            && (k > 0 ==>
                  && g.Instances(b) == f.Instances(b) + [inst]
                  && g.Timestamps(b) == f.Timestamps(b) + [ts]
                  && g.Instances(Other(b)) == f.Instances(Other(b))
                  && g.Timestamps(Other(b)) == f.Timestamps(Other(b))
                  && g.(posInstances := f.posInstances, posTimestamps := f.posTimestamps,
                        negInstances := f.negInstances, negTimestamps := f.negTimestamps) == f)
  {
  }

  /** Lines 391-420: when some waiting record's timestamp equals the feedback
      value, the first such record of the positive bucket is released if
      there is one, and otherwise the first such record of the negative
      bucket; the remaining records keep their order and nothing happens when
      no record matches. */
  lemma ExplicitReleaseRule(o: Outcome, feedback: int, votes: seq<real>, cfg: Config, fold: nat, ts: int)
    requires o.fold.Valid() && cfg.Valid()
    ensures var r := ExplicitRelease(o, feedback, votes, cfg, fold, ts);
            var pos := o.fold.posTimestamps;
            var neg := o.fold.negTimestamps;
            && (feedback in pos ==>
                  var i := IndexOf(pos, feedback);
                  && feedback !in pos[..i]
                  && r.fold.posTimestamps == RemoveAt(pos, i)
                  && r.fold.posInstances == RemoveAt(o.fold.posInstances, i)
                  && r.fold.negTimestamps == neg
                  && r.fold.trained == o.fold.trained + [Release(o.fold.posInstances[i], feedback, Positive, Feedback, votes)])
            && (feedback !in pos && feedback in neg ==>
                  var i := IndexOf(neg, feedback);
                  && feedback !in neg[..i]
                  && r.fold.negTimestamps == RemoveAt(neg, i)
                  && r.fold.negInstances == RemoveAt(o.fold.negInstances, i)
                  && r.fold.posTimestamps == pos
                  && r.fold.trained == o.fold.trained + [Release(o.fold.negInstances[i], feedback, Negative, Feedback, votes)])
            && (feedback !in pos && feedback !in neg ==> r == o)
  {
    var indexPos := IndexOf(o.fold.posTimestamps, feedback);
    var indexNeg := IndexOf(o.fold.negTimestamps, feedback);
    if indexPos != -1 {
      ReleaseAtEffect(o.fold, Positive, indexPos, Feedback, votes, cfg, fold, ts);
    } else if indexNeg != -1 {
      ReleaseAtEffect(o.fold, Negative, indexNeg, Feedback, votes, cfg, fold, ts);
    }
  }

  /** No match, no release. */
  lemma ExplicitNoMatch(o: Outcome, feedback: int, votes: seq<real>, cfg: Config, fold: nat, ts: int)
    requires o.fold.Valid() && cfg.Valid()
    requires feedback !in o.fold.posTimestamps && feedback !in o.fold.negTimestamps
    ensures ExplicitRelease(o, feedback, votes, cfg, fold, ts) == o
  {
  }

  /** Lines 426-454: the head of bucket b is released exactly when the bucket
      is not empty and the head has waited at least `window`. */
  lemma TimeoutReleaseRule(o: Outcome, b: Bucket, window: int, votes: seq<real>, cfg: Config, fold: nat, ts: int)
    requires o.fold.Valid() && cfg.Valid()
    ensures var r := TimeoutRelease(o, b, window, votes, cfg, fold, ts);
            var stamps := o.fold.Timestamps(b);
            && (|stamps| > 0 && ts - stamps[0] >= window ==>
                  && r.fold.Timestamps(b) == stamps[1..]
                  && r.fold.Instances(b) == o.fold.Instances(b)[1..]
                  && r.fold.Timestamps(Other(b)) == o.fold.Timestamps(Other(b))
                  && r.fold.Instances(Other(b)) == o.fold.Instances(Other(b))
                  && r.fold.trained == o.fold.trained + [Release(o.fold.Instances(b)[0], stamps[0], b, Timeout, votes)])
            && (!(|stamps| > 0 && ts - stamps[0] >= window) ==> r == o)
  {
    var stamps := o.fold.Timestamps(b);
    if |stamps| > 0 && ts - stamps[0] >= window {
      ReleaseAtEffect(o.fold, b, 0, Timeout, votes, cfg, fold, ts);
      assert RemoveAt(stamps, 0) == stamps[1..];
      assert RemoveAt(o.fold.Instances(b), 0) == o.fold.Instances(b)[1..];
    }
  }

  // ---------------------------------------------------------------------------
  // First in, first out when no feedback matches

  /** The timestamps of the releases rs taken from bucket b, in order. */
  function DrainedStamps(rs: seq<Release>, b: Bucket): seq<int>
  {
    if rs == [] then []
    else DrainedStamps(rs[..|rs| - 1], b) + (if rs[|rs| - 1].bucket == b then [rs[|rs| - 1].enqueuedAt] else [])
  }

  /** The records of the releases rs taken from bucket b, in order. */
  function DrainedInstances(rs: seq<Release>, b: Bucket): seq<Instance>
  {
    if rs == [] then []
    else DrainedInstances(rs[..|rs| - 1], b) + (if rs[|rs| - 1].bucket == b then [rs[|rs| - 1].inst] else [])
  }

  /** Draining one more release adds its entry to the end of its bucket's drain. */
  lemma DrainedAppend(rs: seq<Release>, x: Release, b: Bucket)
    ensures DrainedStamps(rs + [x], b) == DrainedStamps(rs, b) + (if x.bucket == b then [x.enqueuedAt] else [])
    ensures DrainedInstances(rs + [x], b) == DrainedInstances(rs, b) + (if x.bucket == b then [x.inst] else [])
  {
    assert (rs + [x])[..|rs|] == rs;
  }

  /** Moving the head of s to the end of d keeps d + s. */
  lemma PopHead<T>(d: seq<T>, s: seq<T>)
    requires |s| > 0
    ensures d + s == (d + [s[0]]) + s[1..]
  {
    assert s == [s[0]] + s[1..];
  }

  /** Bucket b of g, read front to back, is what was released from it
      followed by what still waits in h. */
  ghost predicate DrainsBucket(g: Fold, h: Fold, released: seq<Release>, b: Bucket)
  {
    && g.Timestamps(b) == DrainedStamps(released, b) + h.Timestamps(b)
    && g.Instances(b) == DrainedInstances(released, b) + h.Instances(b)
  }

  /** Both buckets drain as above, the releases were appended to the
      training history, and every one of them was a timeout. */
  ghost predicate Drains(g: Fold, h: Fold, released: seq<Release>)
  {
    && h.trained == g.trained + released
    && (forall x :: x in released ==> x.cause == Timeout)
    && DrainsBucket(g, h, released, Positive)
    && DrainsBucket(g, h, released, Negative)
  }

  /** Taking the head x of bucket b keeps DrainsBucket for b. */
  lemma DrainHeadBucket(g: Fold, h: Fold, h': Fold, released: seq<Release>, x: Release, b: Bucket)
    requires DrainsBucket(g, h, released, b) && |h.Timestamps(b)| > 0 && |h.Instances(b)| > 0
    requires x.bucket == b && x.enqueuedAt == h.Timestamps(b)[0] && x.inst == h.Instances(b)[0]
    requires h'.Timestamps(b) == h.Timestamps(b)[1..] && h'.Instances(b) == h.Instances(b)[1..]
    ensures DrainsBucket(g, h', released + [x], b)
  {
    DrainedAppend(released, x, b);
    PopHead(DrainedStamps(released, b), h.Timestamps(b));
    PopHead(DrainedInstances(released, b), h.Instances(b));
  }

  /** A release from another bucket keeps DrainsBucket for b. */
  lemma DrainOtherBucket(g: Fold, h: Fold, h': Fold, released: seq<Release>, x: Release, b: Bucket)
    requires DrainsBucket(g, h, released, b) && x.bucket != b
    requires h'.Timestamps(b) == h.Timestamps(b) && h'.Instances(b) == h.Instances(b)
    ensures DrainsBucket(g, h', released + [x], b)
  {
    DrainedAppend(released, x, b);
  }

  /** Taking the head x of bucket b of h keeps Drains. */
  lemma DrainHead(g: Fold, h: Fold, h': Fold, released: seq<Release>, x: Release, b: Bucket)
    requires Drains(g, h, released) && |h.Timestamps(b)| > 0 && |h.Instances(b)| > 0
    requires x.bucket == b && x.cause == Timeout
    requires x.enqueuedAt == h.Timestamps(b)[0] && x.inst == h.Instances(b)[0]
    requires h'.Timestamps(b) == h.Timestamps(b)[1..] && h'.Instances(b) == h.Instances(b)[1..]
    requires h'.Timestamps(Other(b)) == h.Timestamps(Other(b)) && h'.Instances(Other(b)) == h.Instances(Other(b))
    requires h'.trained == h.trained + [x]
    ensures Drains(g, h', released + [x])
  {
    DrainHeadBucket(g, h, h', released, x, b);
    DrainOtherBucket(g, h, h', released, x, Other(b));
    if b == Positive {
      assert DrainsBucket(g, h', released + [x], Positive);
      assert DrainsBucket(g, h', released + [x], Negative);
    } else {
      assert DrainsBucket(g, h', released + [x], Negative);
      assert DrainsBucket(g, h', released + [x], Positive);
    }
  }

  lemma TimeoutDrains(g: Fold, o: Outcome, released: seq<Release>, b: Bucket, window: int,
                      votes: seq<real>, cfg: Config, fold: nat, ts: int)
    returns (released': seq<Release>)
    requires o.fold.Valid() && cfg.Valid() && Drains(g, o.fold, released)
    ensures Drains(g, TimeoutRelease(o, b, window, votes, cfg, fold, ts).fold, released')
  {
    var stamps := o.fold.Timestamps(b);
    TimeoutReleaseRule(o, b, window, votes, cfg, fold, ts);
    if |stamps| > 0 && ts - stamps[0] >= window {
      var x := Release(o.fold.Instances(b)[0], stamps[0], b, Timeout, votes);
      DrainHead(g, o.fold, TimeoutRelease(o, b, window, votes, cfg, fold, ts).fold, released, x, b);
      released' := released + [x];
    } else {
      released' := released;
    }
  }

  lemma BothTimeoutsDrain(o: Outcome, votes: seq<real>, cfg: Config, fold: nat, ts: int)
    returns (released: seq<Release>)
    requires o.fold.Valid() && cfg.Valid()
    ensures var o2 := TimeoutRelease(o, Positive, cfg.positiveWindow, votes, cfg, fold, ts);
            Drains(o.fold, TimeoutRelease(o2, Negative, cfg.negativeWindow, votes, cfg, fold, ts).fold, released)
  {
    assert o.fold.trained + [] == o.fold.trained;
    assert Drains(o.fold, o.fold, []);
    var rel2 := TimeoutDrains(o.fold, o, [], Positive, cfg.positiveWindow, votes, cfg, fold, ts);
    var o2 := TimeoutRelease(o, Positive, cfg.positiveWindow, votes, cfg, fold, ts);
    released := TimeoutDrains(o.fold, o2, rel2, Negative, cfg.negativeWindow, votes, cfg, fold, ts);
  }

  /** When the feedback value matches no waiting record (the incoming one
      included), the step releases only by timeout and only from the heads of
      the buckets: each bucket, once the record has joined it, is exactly
      what was released from it, in release order, followed by what still
      waits. */
  lemma FoldStepFifo(f: Fold, k: nat, votes: seq<real>, a: Arrival, cfg: Config, fold: nat)
    requires f.Valid() && cfg.Valid()
    requires var g := Enqueue(f, k, MaxIndex(votes), a.inst, a.timestamp);
             a.feedback !in g.posTimestamps && a.feedback !in g.negTimestamps
    ensures var g := Enqueue(f, k, MaxIndex(votes), a.inst, a.timestamp);
            var r := FoldStep(f, k, votes, a, cfg, fold);
            var released := NewReleases(f, r.fold);
            && r.fold.trained == f.trained + released
            && (forall x :: x in released ==> x.cause == Timeout)
            && g.posTimestamps == DrainedStamps(released, Positive) + r.fold.posTimestamps
            && g.negTimestamps == DrainedStamps(released, Negative) + r.fold.negTimestamps
            && g.posInstances == DrainedInstances(released, Positive) + r.fold.posInstances
            && g.negInstances == DrainedInstances(released, Negative) + r.fold.negInstances
  {
    hide FoldStep;
    var g := Enqueue(f, k, MaxIndex(votes), a.inst, a.timestamp);
    var o0 := Outcome(g, [], false);
    ExplicitNoMatch(o0, a.feedback, votes, cfg, fold, a.timestamp);
    var rel := BothTimeoutsDrain(o0, votes, cfg, fold, a.timestamp);
    var r := FoldStep(f, k, votes, a, cfg, fold);
    FoldStepStages(f, k, votes, a, cfg, fold);
    assert g.trained == f.trained;
    assert NewReleases(f, r.fold) == rel;
    assert DrainsBucket(g, r.fold, rel, Positive) && DrainsBucket(g, r.fold, rel, Negative);
  }

  /** The drains of two runs of releases, one after the other, are the
      drain of the first followed by that of the second. */
  lemma {:induction false} DrainedConcat(rs: seq<Release>, ts: seq<Release>, b: Bucket)
    ensures DrainedStamps(rs + ts, b) == DrainedStamps(rs, b) + DrainedStamps(ts, b)
    ensures DrainedInstances(rs + ts, b) == DrainedInstances(rs, b) + DrainedInstances(ts, b)
    decreases |ts|
  {
    if ts == [] {
      assert rs + ts == rs;
    } else {
      var init := ts[..|ts| - 1];
      var x := ts[|ts| - 1];
      DrainedConcat(rs, init, b);
      assert ts == init + [x];
      assert rs + ts == (rs + init) + [x];
      DrainedAppend(rs + init, x, b);
      DrainedAppend(init, x, b);
    }
  }

  /** FoldStepFifo read against the fold before the record: with no explicit
      match, bucket b as it was, followed by the record if it joined b, is
      what the step released from b, in order, followed by what still waits
      in b. */
  lemma FoldStepQueues(f: Fold, k: nat, votes: seq<real>, a: Arrival, cfg: Config, fold: nat, b: Bucket)
    requires f.Valid() && cfg.Valid()
    requires var g := Enqueue(f, k, MaxIndex(votes), a.inst, a.timestamp);
             a.feedback !in g.posTimestamps && a.feedback !in g.negTimestamps
    ensures var r := FoldStep(f, k, votes, a, cfg, fold);
            var released := NewReleases(f, r.fold);
            && r.fold.trained == f.trained + released
            && (forall x :: x in released ==> x.cause == Timeout)
            && f.Timestamps(b) + Joining(a.timestamp, k, MaxIndex(votes), b)
               == DrainedStamps(released, b) + r.fold.Timestamps(b)
            && f.Instances(b) + Joining(a.inst, k, MaxIndex(votes), b)
               == DrainedInstances(released, b) + r.fold.Instances(b)
  {
    hide FoldStep;
    FoldStepFifo(f, k, votes, a, cfg, fold);
    EnqueueRule(f, k, MaxIndex(votes), a.inst, a.timestamp);
  }

  /** The snapshot cadence of FoldStepAccounts read both ways: a count c has
      a snapshot iff it was passed and is a non-zero multiple of the
      sampling frequency, and the snapshots come in increasing order. */
  lemma {:induction false} MultiplesMeaning(lo: int, hi: int, freq: nat)
    requires freq > 0
    ensures forall c :: c in Multiples(lo, hi, freq) <==> lo < c <= hi && c != 0 && c % freq == 0
    ensures forall i, j :: 0 <= i < j < |Multiples(lo, hi, freq)| ==> Multiples(lo, hi, freq)[i] < Multiples(lo, hi, freq)[j]
    decreases hi - lo
  {
    if hi > lo {
      MultiplesMeaning(lo, hi - 1, freq);
      var m := Multiples(lo, hi - 1, freq);
      if hi != 0 && hi % freq == 0 {
        assert Multiples(lo, hi, freq) == m + [hi];
        assert forall i :: 0 <= i < |m| ==> m[i] in m;
      } else {
        assert Multiples(lo, hi, freq) == m;
      }
    }
  }
}
