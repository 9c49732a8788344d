/** The scalar Kalman filter with constant process and measurement noise
    (`SimpleKalmanFilter`).

The state holds the five mutable fields of the class together with the two
noise parameters fixed at construction. Numbers are reals: rounding, NaN and
infinities are not modelled. One detail is kept exactly as the code has it:
the new estimate uncertainty scales the PREVIOUS estimate uncertainty by
(1 - gain), not the predicted uncertainty of the textbook recurrence
(`UncertaintyQuirk` states the difference).
 */
module Kalman {
  import opened Filters

  datatype KalmanState = KalmanState(
    estimate: real,
    estimateUncertainty: real,
    predictedEstimate: real,
    predictedUncertainty: real,
    gain: real,
    processNoise: real,
    measurementNoise: real)

  function Abs(x: real): real { if x < 0.0 then -x else x }
  function Min(a: real, b: real): real { if a <= b then a else b }
  function Max(a: real, b: real): real { if a <= b then b else a }

  /** The constructor: the prediction starts at the initial estimate and its
      uncertainty, with no gain yet. */
  function Create(estimate: real, estimateUncertainty: real, processNoise: real, measurementNoise: real): (s: KalmanState)
    ensures Get(s) == estimate
    ensures s.estimate == estimate && s.estimateUncertainty == estimateUncertainty
    ensures s.predictedEstimate == estimate && s.predictedUncertainty == estimateUncertainty
    ensures s.gain == 0.0
    ensures s.processNoise == processNoise && s.measurementNoise == measurementNoise
  {
    KalmanState(estimate, estimateUncertainty, estimate, estimateUncertainty, 0.0, processNoise, measurementNoise)
  }

  /** The current estimate; reading it changes nothing. */
  function Get(s: KalmanState): real
  {
    s.estimate
  }

  /** The gain division is defined. */
  predicate CanUpdate(s: KalmanState)
  {
    s.predictedUncertainty + s.measurementNoise != 0.0
  }

  /** One measurement step; returns the new state and the value `update` returns. */
  function Update(s: KalmanState, z: real): (r: (KalmanState, real))
    requires CanUpdate(s)
    ensures r.1 == Get(r.0)
    ensures r.0.processNoise == s.processNoise && r.0.measurementNoise == s.measurementNoise
    ensures r.0.gain * (s.predictedUncertainty + s.measurementNoise) == s.predictedUncertainty
    ensures r.0.estimate == (1.0 - r.0.gain) * s.predictedEstimate + r.0.gain * z
    ensures r.0.estimateUncertainty * (s.predictedUncertainty + s.measurementNoise)
         == s.estimateUncertainty * s.measurementNoise
    ensures r.0.predictedEstimate == r.0.estimate
    ensures r.0.predictedUncertainty == r.0.estimateUncertainty + s.processNoise
  {
    var gain := s.predictedUncertainty / (s.predictedUncertainty + s.measurementNoise);
    var estimate := s.predictedEstimate + gain * (z - s.predictedEstimate);
    var estimateUncertainty := (1.0 - gain) * s.estimateUncertainty;
    var s' := s.(
      gain := gain,
      estimate := estimate,
      estimateUncertainty := estimateUncertainty,
      predictedEstimate := estimate,
      predictedUncertainty := estimateUncertainty + s.processNoise);
    (s', Get(s'))
  }

  /** The invariant every state reached from a sensible configuration keeps. */
  predicate Valid(s: KalmanState)
  {
    && s.measurementNoise > 0.0
    && s.processNoise >= 0.0
    && 0.0 <= s.estimateUncertainty <= s.predictedUncertainty
    && s.predictedEstimate == s.estimate
    && 0.0 <= s.gain < 1.0
  }

  /** A freshly built filter is valid exactly when the measurement noise is
      positive and the process noise and initial uncertainty are non-negative. */
  lemma CreateValid(estimate: real, estimateUncertainty: real, processNoise: real, measurementNoise: real)
    ensures Valid(Create(estimate, estimateUncertainty, processNoise, measurementNoise))
        <==> measurementNoise > 0.0 && processNoise >= 0.0 && estimateUncertainty >= 0.0
  {
  }

  /** The product of two non-negative reals is non-negative. */
  lemma MulNonNegative(a: real, b: real)
    requires a >= 0.0 && b >= 0.0
    ensures a * b >= 0.0
  {
  }

  /** Multiplying both sides by a non-negative factor keeps an inequality. */
  lemma MulMonotone(c: real, x: real, y: real)
    requires c >= 0.0 && x <= y
    ensures c * x <= c * y
  {
    MulNonNegative(c, y - x);
  }

  /** With a non-negative prediction uncertainty and a positive measurement
      noise, the gain lies in [0, 1). */
  lemma GainInUnitInterval(s: KalmanState, z: real)
    requires s.predictedUncertainty >= 0.0 && s.measurementNoise > 0.0
    ensures 0.0 <= Update(s, z).0.gain < 1.0
  {
    var g := Update(s, z).0.gain;
    var d := s.predictedUncertainty + s.measurementNoise;
    assert g * d == s.predictedUncertainty;
  }

  /** The new estimate lies between the previous prediction and the measurement. */
  lemma EstimateBetween(s: KalmanState, z: real)
    requires s.predictedUncertainty >= 0.0 && s.measurementNoise > 0.0
    ensures Min(s.predictedEstimate, z) <= Update(s, z).0.estimate <= Max(s.predictedEstimate, z)
  {
    GainInUnitInterval(s, z);
    var g := Update(s, z).0.gain;
    var e := Update(s, z).0.estimate;
    assert e == s.predictedEstimate + g * (z - s.predictedEstimate);
    var d := z - s.predictedEstimate;
    assert d - g * d == (1.0 - g) * d;
    if d >= 0.0 {
      MulNonNegative(g, d);
      MulNonNegative(1.0 - g, d);
    } else {
      MulNonNegative(g, -d);
      MulNonNegative(1.0 - g, -d);
    }
  }

  /** Measuring v again never moves the estimate further from v than the prediction was. */
  lemma ApproachesMeasurement(s: KalmanState, v: real)
    requires s.predictedUncertainty >= 0.0 && s.measurementNoise > 0.0
    ensures Abs(Update(s, v).0.estimate - v) <= Abs(s.predictedEstimate - v)
  {
    EstimateBetween(s, v);
  }

  /** The estimate uncertainty is the previous one scaled by (1 - gain): it stays
      non-negative and never grows. */
  lemma UncertaintyShrinks(s: KalmanState, z: real)
    requires s.predictedUncertainty >= 0.0 && s.measurementNoise > 0.0
    requires s.estimateUncertainty >= 0.0
    ensures 0.0 <= Update(s, z).0.estimateUncertainty <= s.estimateUncertainty
  {
    GainInUnitInterval(s, z);
    var g := Update(s, z).0.gain;
    assert Update(s, z).0.estimateUncertainty == (1.0 - g) * s.estimateUncertainty;
    assert 0.0 <= (1.0 - g) * s.estimateUncertainty;
    assert g * s.estimateUncertainty >= 0.0;
  }

  /** The textbook posterior uncertainty, (1 - gain) times the predicted uncertainty. */
  function TextbookUncertainty(s: KalmanState): real
    requires CanUpdate(s)
  {
    var gain := s.predictedUncertainty / (s.predictedUncertainty + s.measurementNoise);
    (1.0 - gain) * s.predictedUncertainty
  }

  /** The uncertainty the code computes never exceeds the textbook one, and equals
      it exactly when the previous estimate uncertainty equals the predicted one
      (a fresh filter, or zero process noise). */
  lemma UncertaintyQuirk(s: KalmanState, z: real)
    requires Valid(s)
    ensures Update(s, z).0.estimateUncertainty <= TextbookUncertainty(s)
    ensures Update(s, z).0.estimateUncertainty == TextbookUncertainty(s)
        <==> s.estimateUncertainty == s.predictedUncertainty
  {
    GainInUnitInterval(s, z);
    var g := Update(s, z).0.gain;
    var c := 1.0 - g;
    assert c > 0.0;
    assert Update(s, z).0.estimateUncertainty == c * s.estimateUncertainty;
    assert TextbookUncertainty(s) == c * s.predictedUncertainty;
    assert c * s.predictedUncertainty - c * s.estimateUncertainty == c * (s.predictedUncertainty - s.estimateUncertainty);
  }

  /** Once the prediction carries the process noise (after any update), each
      step scales the estimate uncertainty by at most R / (Q + R), so with
      positive process noise it decays geometrically towards zero. */
  lemma UncertaintyContracts(s: KalmanState, z: real)
    requires Valid(s)
    requires s.predictedUncertainty >= s.processNoise
    ensures Update(s, z).0.estimateUncertainty * (s.processNoise + s.measurementNoise)
         <= s.estimateUncertainty * s.measurementNoise
  {
    var u := Update(s, z).0.estimateUncertainty;
    UncertaintyShrinks(s, z);
    assert u * (s.predictedUncertainty + s.measurementNoise) == s.estimateUncertainty * s.measurementNoise;
    assert u * (s.processNoise + s.measurementNoise) <= u * (s.predictedUncertainty + s.measurementNoise);
  }

  /** An update keeps a valid state valid. */
  lemma UpdatePreservesValid(s: KalmanState, z: real)
    requires Valid(s)
    ensures Valid(Update(s, z).0)
  {
    GainInUnitInterval(s, z);
    UncertaintyShrinks(s, z);
  }

  /** Valid states: the ones the generic filter machine runs on. */
  type ValidKalman = s: KalmanState | Valid(s)
    witness KalmanState(0.0, 0.0, 0.0, 0.0, 0.0, 0.0, 1.0)

  /** `update` on a valid state, which needs no precondition. */
  function Step(s: ValidKalman, z: real): (r: (ValidKalman, real))
    ensures r.1 == Get(r.0)
    ensures Min(s.estimate, z) <= r.1 <= Max(s.estimate, z)
    ensures r.0.estimateUncertainty <= s.estimateUncertainty
    ensures r.0.processNoise == s.processNoise && r.0.measurementNoise == s.measurementNoise
  {
    UpdatePreservesValid(s, z);
    EstimateBetween(s, z);
    UncertaintyShrinks(s, z);
    Update(s, z)
  }

  /** The Kalman filter as a generic filter: its step is `update` and its
      read-out is `get`, on valid states. */
  function KalmanFilter(): (f: Filter<ValidKalman>)
    ensures forall s: ValidKalman, z: real :: f.update(s, z) == Update(s, z)
    ensures forall s: ValidKalman :: f.get(s) == s.estimate
  {
    Filter((s: ValidKalman, z: real) => Step(s, z), (s: ValidKalman) => Get(s))
  }

  /** `update` returns what a following `get` reports. */
  lemma KalmanCoherent()
    ensures Coherent(KalmanFilter())
  {
    forall s: ValidKalman, z: real
      ensures KalmanFilter().update(s, z).1 == KalmanFilter().get(KalmanFilter().update(s, z).0)
    {
      assert KalmanFilter().update(s, z) == Step(s, z);
    }
  }

  /** Fed a constant measurement v, the distance of the estimate to v never
      increases along a run, and never exceeds the starting distance. */
  lemma {:induction false} RunApproachesConstant(s: ValidKalman, v: real, xs: seq<real>)
    requires forall k :: 0 <= k < |xs| ==> xs[k] == v
    ensures forall i :: 0 <= i < |xs| ==>
      Abs(Run(KalmanFilter(), s, xs).outputs[i] - v) <= Abs(s.estimate - v)
    ensures forall i, j :: 0 <= i <= j < |xs| ==>
      Abs(Run(KalmanFilter(), s, xs).outputs[j] - v) <= Abs(Run(KalmanFilter(), s, xs).outputs[i] - v)
    decreases |xs|
  {
    if |xs| > 0 {
      var (s1, y) := Step(s, xs[0]);
      assert KalmanFilter().update(s, xs[0]) == (s1, y);
      var rest := Run(KalmanFilter(), s1, xs[1..]);
      RunApproachesConstant(s1, v, xs[1..]);
      var outs := Run(KalmanFilter(), s, xs).outputs;
      assert outs == [y] + rest.outputs;
      assert Abs(y - v) <= Abs(s.estimate - v);
      assert y == s1.estimate;
      forall i | 1 <= i < |xs|
        ensures Abs(outs[i] - v) <= Abs(y - v)
      {
        assert outs[i] == rest.outputs[i - 1];
      }
    }
  }

  /** Along a run the noise parameters stay fixed and the estimate uncertainty
      never grows. */
  lemma {:induction false} RunKeepsParameters(s: ValidKalman, xs: seq<real>)
    ensures Run(KalmanFilter(), s, xs).state.processNoise == s.processNoise
    ensures Run(KalmanFilter(), s, xs).state.measurementNoise == s.measurementNoise
    ensures Run(KalmanFilter(), s, xs).state.estimateUncertainty <= s.estimateUncertainty
    decreases |xs|
  {
    if |xs| > 0 {
      var s1 := Step(s, xs[0]).0;
      assert KalmanFilter().update(s, xs[0]).0 == s1;
      RunKeepsParameters(s1, xs[1..]);
    }
  }

  /** e shrunk n times by the factor c, that is e·c^n. */
  function Geometric(e: real, c: real, n: nat): real
    decreases n
  {
    if n == 0 then e else c * Geometric(e, c, n - 1)
  }

  /** With a non-negative factor, a smaller start stays smaller. */
  lemma {:induction false} GeometricMonotone(e1: real, e0: real, c: real, n: nat)
    requires c >= 0.0 && e1 <= e0
    ensures Geometric(e1, c, n) <= Geometric(e0, c, n)
    decreases n
  {
    if n > 0 {
      GeometricMonotone(e1, e0, c, n - 1);
      MulMonotone(c, Geometric(e1, c, n - 1), Geometric(e0, c, n - 1));
    }
  }

  /** Shrinking the start once more is one more factor. */
  lemma {:induction false} GeometricShift(e: real, c: real, n: nat)
    requires n > 0
    ensures Geometric(c * e, c, n - 1) == Geometric(e, c, n)
    decreases n
  {
    if n > 1 {
      GeometricShift(e, c, n - 1);
    }
  }

  /** One induction step of a geometric bound: a value within e1·c^(n-1), where
      e1 is within c·e0, is within e0·c^n. */
  lemma GeometricStep(v: real, e1: real, e0: real, c: real, n: nat)
    requires c >= 0.0
    requires n > 0
    requires v <= Geometric(e1, c, n - 1)
    requires e1 <= Geometric(e0, c, 1)
    ensures v <= Geometric(e0, c, n)
  {
    GeometricMonotone(e1, c * e0, c, n - 1);
    GeometricShift(e0, c, n);
  }

  /** The factor R / (Q + R) by which an update shrinks the estimate
      uncertainty once the prediction carries the process noise. */
  function ContractionFactor(q: real, r: real): (c: real)
    requires q >= 0.0 && r > 0.0
    ensures 0.0 < c <= 1.0
    ensures c * (q + r) == r
  {
    r / (q + r)
  }

  /** One update of a valid state whose prediction carries the process noise
      shrinks the estimate uncertainty by at least the contraction factor. */
  lemma UpdateShrinksByFactor(s: KalmanState, z: real)
    requires Valid(s)
    requires s.predictedUncertainty >= s.processNoise
    ensures Update(s, z).0.estimateUncertainty
         <= Geometric(s.estimateUncertainty, ContractionFactor(s.processNoise, s.measurementNoise), 1)
  {
    UncertaintyContracts(s, z);
    var e1, e0 := Update(s, z).0.estimateUncertainty, s.estimateUncertainty;
    var q, r := s.processNoise, s.measurementNoise;
    var c := ContractionFactor(q, r);
    assert e1 * (q + r) <= e0 * r;
    assert (c * e0) * (q + r) == e0 * r;
    if e1 > c * e0 {
      MulMonotone(q + r, c * e0, e1);
      assert false;
    }
  }

  /** One step of a run from a valid state whose prediction carries the process
      noise: the next state keeps both noises, its prediction carries the
      process noise again, its estimate uncertainty is at most the contraction
      factor times the current one, and the rest of the run continues from it. */
  lemma StepContracts(s: ValidKalman, xs: seq<real>, q: real, r: real) returns (s1: ValidKalman)
    requires |xs| > 0
    requires s.processNoise == q && s.measurementNoise == r
    requires s.predictedUncertainty >= q
    ensures Run(KalmanFilter(), s, xs).state == Run(KalmanFilter(), s1, xs[1..]).state
    ensures s1.processNoise == q && s1.measurementNoise == r
    ensures s1.predictedUncertainty >= q
    ensures s1.estimateUncertainty <= Geometric(s.estimateUncertainty, ContractionFactor(q, r), 1)
  {
    s1 := Step(s, xs[0]).0;
    assert KalmanFilter().update(s, xs[0]).0 == s1;
    UpdateShrinksByFactor(s, xs[0]);
  }

  /** From a valid state whose prediction already carries the process noise
      (every state after an update), n updates leave an estimate uncertainty of
      at most (R / (Q + R))^n times the starting one: with Q > 0 it decays
      geometrically towards zero. */
  lemma RunUncertaintyDecays(s: ValidKalman, xs: seq<real>)
    requires s.predictedUncertainty >= s.processNoise
    ensures Run(KalmanFilter(), s, xs).state.estimateUncertainty
         <= Geometric(s.estimateUncertainty, ContractionFactor(s.processNoise, s.measurementNoise), |xs|)
  {
    DecaysWith(s, xs, s.processNoise, s.measurementNoise, |xs|);
  }

  /** `RunUncertaintyDecays` with the two noises, which no update changes, and
      the number of measurements named. */
  lemma {:induction false} DecaysWith(s: ValidKalman, xs: seq<real>, q: real, r: real, n: nat)
    requires s.processNoise == q && s.measurementNoise == r
    requires s.predictedUncertainty >= q
    requires n == |xs|
    ensures Run(KalmanFilter(), s, xs).state.estimateUncertainty <= Geometric(s.estimateUncertainty, ContractionFactor(q, r), n)
    decreases n
  {
    if n == 0 {
      assert Run(KalmanFilter(), s, xs).state == s;
    } else {
      var s1 := StepContracts(s, xs, q, r);
      var rest := xs[1..];
      DecaysWith(s1, rest, q, r, n - 1);
      GeometricStep(Run(KalmanFilter(), s1, rest).state.estimateUncertainty, s1.estimateUncertainty,
                    s.estimateUncertainty, ContractionFactor(q, r), n);
    }
  }

  /** From any valid state, the updates after the first shrink the estimate
      uncertainty geometrically: after 1 + n measurements it is at most
      (R / (Q + R))^n times what the first update left. */
  lemma UncertaintyDecaysAfterFirst(s: ValidKalman, x: real, xs: seq<real>)
    ensures Run(KalmanFilter(), s, [x] + xs).state.estimateUncertainty
         <= Geometric(Step(s, x).0.estimateUncertainty, ContractionFactor(s.processNoise, s.measurementNoise), |xs|)
  {
    var s1 := Step(s, x).0;
    assert s1.predictedUncertainty == s1.estimateUncertainty + s.processNoise;
    assert KalmanFilter().update(s, x).0 == s1;
    assert ([x] + xs)[1..] == xs;
    assert Run(KalmanFilter(), s, [x] + xs).state == Run(KalmanFilter(), s1, xs).state;
    DecaysWith(s1, xs, s.processNoise, s.measurementNoise, |xs|);
  }
}
