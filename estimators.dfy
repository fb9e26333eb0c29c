/** The running-mean estimator of BasicClassificationPerformanceEvaluator
    (BasicEstimator) and the small arithmetic on possibly non-finite numbers
    that the evaluator's statistics are written in. */
module Estimators {

  /** `None` stands for a value that is not a finite number: Java's NaN, and
      the infinities a division by zero produces. As an input to `Add` it is
      the "not applicable" marker (Double.NaN). */
  datatype Option<T> = None | Some(value: T)

  /** A running mean held as the sum of the observed values and their count. */
  datatype Estimator = Estimator(sum: real, len: nat)

  /** A newly allocated BasicEstimator: nothing observed. */
  const Fresh: Estimator := Estimator(0.0, 0)

  /** BasicEstimator.add: the not-applicable marker is skipped, any other value
      is added to the sum and counted once. */
  function Add(e: Estimator, v: Option<real>): (r: Estimator)
    ensures v.None? ==> r == e
    ensures v.Some? ==> r.sum == e.sum + v.value && r.len == e.len + 1
  {
    match v
    case None => e
    case Some(x) => Estimator(e.sum + x, e.len + 1)
  }

  /** BasicEstimator.estimation: sum / len, which is NaN (0/0) before anything
      was observed. */
  function Estimation(e: Estimator): (r: Option<real>)
    ensures r.None? <==> e.len == 0
  {
    if e.len == 0 then None else Some(e.sum / e.len as real)
  }

  // ---------------------------------------------------------------------------
  // Arithmetic on possibly non-finite values: any non-finite operand, and any
  // division by zero, gives a non-finite result.

  function Plus(a: Option<real>, b: Option<real>): Option<real> {
    if a.Some? && b.Some? then Some(a.value + b.value) else None
  }

  function Minus(a: Option<real>, b: Option<real>): Option<real> {
    if a.Some? && b.Some? then Some(a.value - b.value) else None
  }

  function Times(a: Option<real>, b: Option<real>): Option<real> {
    if a.Some? && b.Some? then Some(a.value * b.value) else None
  }

  function Ratio(a: Option<real>, b: Option<real>): Option<real> {
    if a.Some? && b.Some? && b.value != 0.0 then Some(a.value / b.value) else None
  }

  // ---------------------------------------------------------------------------
  // The estimator as a mean: feeding it a sequence of observations leaves it
  // holding exactly the sum and the number of the applicable ones.

  /** The estimator after `vs` has been fed to it with `Add`, first to last. */
  function AddAll(e: Estimator, vs: seq<Option<real>>): Estimator
  {
    if vs == [] then e else Add(AddAll(e, vs[..|vs| - 1]), vs[|vs| - 1])
  }

  /** The applicable observations of `vs`, in order. */
  function Applicable(vs: seq<Option<real>>): seq<real>
  {
    if vs == [] then []
    else Applicable(vs[..|vs| - 1]) + (if vs[|vs| - 1].Some? then [vs[|vs| - 1].value] else [])
  }

  function Sum(xs: seq<real>): real
  {
    if xs == [] then 0.0 else Sum(xs[..|xs| - 1]) + xs[|xs| - 1]
  }

  lemma {:induction false} SumAppend(xs: seq<real>, x: real)
    ensures Sum(xs + [x]) == Sum(xs) + x
  {
    assert (xs + [x])[..|xs + [x]| - 1] == xs;
  }

  /** A fresh estimator fed `vs` holds the sum and count of the applicable
      observations, so its estimation is their arithmetic mean, and it is
      NaN exactly when every observation was the not-applicable marker. */
  lemma {:induction false} AddAllIsMean(vs: seq<Option<real>>)
    ensures AddAll(Fresh, vs) == Estimator(Sum(Applicable(vs)), |Applicable(vs)|)
    ensures Estimation(AddAll(Fresh, vs)) ==
            if Applicable(vs) == [] then None
            else Some(Sum(Applicable(vs)) / |Applicable(vs)| as real)
  {
    if vs != [] {
      var init := vs[..|vs| - 1];
      AddAllIsMean(init);
      if vs[|vs| - 1].Some? {
        SumAppend(Applicable(init), vs[|vs| - 1].value);
      } else {
        assert Applicable(vs) == Applicable(init);
      }
    }
  }
}
