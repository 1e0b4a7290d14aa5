/** The PID line follower's bookkeeping (src/components/pid.py): the
    cross-track error, the clamped PID steering law with its integrator
    reset and dynamic integrator clamp, the twiddle tuning step of train
    mode, and the message handler. Image processing and line detection are
    not modelled: their result (line position, car position, output image)
    is a parameter. Floats are reals. */
module Pid {
  import opened Py
  import opened Components

  /** The coefficients used when no coefficient file exists: proportional,
      differential, integral, in the order the steering law indexes them. */
  const DefaultCoeffs: seq<real> := [0.0361935681, 0.03901406179, 0.0003143881]

  /** start() needs the image and start/stop channels (ValueError without
      them); shutdown() passes; on_message is its own. */
  const PidBehaviour: Behaviour := Behaviour(NeedsChannels(2), None, None)

  /** The coefficients as loaded: the default Python list, or what the
      coefficient file held (a NumPy array when it was written in train mode). */
  datatype Coeffs = PyList(xs: seq<real>) | NdArray(xs: seq<real>)

  /** `pid_coeffs / 10.0`: element-wise for an array; a list cannot be
      divided and raises TypeError. */
  function Tenth(c: Coeffs): (r: Result<seq<real>>)
    ensures r.Err? <==> c.PyList?
    ensures r.Err? ==> r.error == TypeError
    ensures r.Ok? ==> |r.value| == |c.xs| && forall i :: 0 <= i < |c.xs| ==> r.value[i] * 10.0 == c.xs[i]
  {
    match c
    case PyList(_) => Err(TypeError)
    case NdArray(xs) => Ok(seq(|xs|, i requires 0 <= i < |xs| => xs[i] / 10.0))
  }

  /** In train mode without a coefficient file the constructor divides the
      default list and raises TypeError. */
  lemma DefaultCoeffsCannotTrain()
    ensures Tenth(PyList(DefaultCoeffs)) == Err(TypeError)
  {
  }

  // ---------------------------------------------------------------- steering law

  /** `_cte(line_center, car_position)`: positive when the car is right of the line. */
  function Cte(lineCenter: real, carPosition: real): (e: real)
    ensures e + lineCenter == carPosition
  {
    carPosition - lineCenter
  }

  /** The integrator and the previous error the steering law remembers. */
  datatype Memory = Memory(prevCte: real, intCte: real)

  /** The integral term's clamp: below 1 - p when p < 1 (else 0), above -1 - p
      when p > -1 (else 0). */
  function IntegralMax(p: real): real { if p < 1.0 then 1.0 - p else 0.0 }
  function IntegralMin(p: real): real { if p > -1.0 then -1.0 - p else 0.0 }

  /** The clamp never inverts: its lower limit is at most its upper limit. */
  lemma IntegralLimitsOrdered(p: real)
    ensures IntegralMin(p) <= IntegralMax(p)
  {
  }

  /** `if x > hi: x = hi elif x < lo: x = lo`. */
  function Clamp(x: real, lo: real, hi: real): (r: real)
    requires lo <= hi
    ensures lo <= r <= hi
    ensures lo <= x <= hi ==> r == x
  {
    if x > hi then hi else if x < lo then lo else x
  }

  /** |x| <= 10: within this band the integrator is reset. */
  predicate NearLine(cte: real)
  {
    -10.0 <= cte <= 10.0
  }

  /** The integrator after an error: reset to 0 near the line, else the
      running sum of the errors. */
  function Integral(m: Memory, cte: real): real
  {
    if NearLine(cte) then 0.0 else m.intCte + cte
  }

  /** The integral term, clamped by the limits the proportional term leaves. */
  function IntegralTerm(k: seq<real>, m: Memory, cte: real): (i: real)
    requires |k| == 3
    ensures IntegralMin(k[0] * cte) <= i <= IntegralMax(k[0] * cte)
  {
    IntegralLimitsOrdered(k[0] * cte);
    Clamp(k[2] * Integral(m, cte), IntegralMin(k[0] * cte), IntegralMax(k[0] * cte))
  }

  /** The sum of the proportional, differential and integral terms. */
  function PidSum(k: seq<real>, m: Memory, cte: real): real
    requires |k| == 3
  {
    k[0] * cte + k[1] * (cte - m.prevCte) + IntegralTerm(k, m, cte)
  }

  /** The output limits: below -1 gives -1, above 1 gives 1. */
  function Saturate(s: real): (r: real)
    ensures -1.0 <= r <= 1.0
    ensures -1.0 <= s <= 1.0 ==> r == s
    ensures s < -1.0 ==> r == -1.0
    ensures s > 1.0 ==> r == 1.0
  {
    if s < -1.0 then -1.0 else if s > 1.0 then 1.0 else s
  }

  /** `_pid_steering(cte)`: the steering for an error, and the memory after
      it. k[0] weighs the error, k[1] its change and k[2] its integral. */
  function PidSteering(k: seq<real>, m: Memory, cte: real): (r: (real, Memory))
    requires |k| == 3
    ensures -1.0 <= r.0 <= 1.0
    ensures r.1.prevCte == cte
    ensures r.1.intCte == if NearLine(cte) then 0.0 else m.intCte + cte
  {
    (Saturate(-PidSum(k, m, cte)), Memory(cte, Integral(m, cte)))
  }

  /** The output is the negated sum of the terms whenever that lies in
      [-1, 1], and the nearer limit otherwise. */
  lemma SteeringSaturates(k: seq<real>, m: Memory, cte: real)
    requires |k| == 3
    ensures var s := -(k[0] * cte + k[1] * (cte - m.prevCte) + IntegralTerm(k, m, cte));
      PidSteering(k, m, cte).0 == (if s < -1.0 then -1.0 else if s > 1.0 then 1.0 else s)
  {
    assert PidSteering(k, m, cte).0 == Saturate(-PidSum(k, m, cte));
    assert PidSum(k, m, cte) == k[0] * cte + k[1] * (cte - m.prevCte) + IntegralTerm(k, m, cte);
  }

  /** Anti-windup: while the proportional term alone is inside (-1, 1), the
      integral term never takes proportional plus integral outside [-1, 1]. */
  lemma AntiWindup(k: seq<real>, m: Memory, cte: real)
    requires |k| == 3 && -1.0 < k[0] * cte < 1.0
    ensures -1.0 <= k[0] * cte + IntegralTerm(k, m, cte) <= 1.0
  {
  }

  /** Near the line the integrator is forgotten, so the integral term is 0. */
  lemma NearLineForgets(k: seq<real>, m: Memory, cte: real)
    requires |k| == 3 && NearLine(cte)
    ensures IntegralTerm(k, m, cte) == 0.0
    ensures PidSum(k, m, cte) == k[0] * cte + k[1] * (cte - m.prevCte)
  {
    var p := k[0] * cte;
    assert k[2] * 0.0 == 0.0;
    IntegralLimitsOrdered(p);
    assert IntegralMin(p) <= 0.0 <= IntegralMax(p);
  }

  // ---------------------------------------------------------------- twiddle

  /** The tuning state of train mode: coefficients, their deltas, the best
      and the summed error, the step and epoch counters, the coefficient
      being tuned and the direction. */
  datatype Tuning = Tuning(p: seq<real>, d: seq<real>, bestError: real, sumError: real,
                           step: int, epoch: int, coeff: int, forward: bool)

  predicate WellShaped(t: Tuning)
  {
    |t.p| == 3 && |t.d| == 3 && 0 <= t.coeff < 3
  }

  /** The state before the final "next iteration" increment of
      `_twiddle_pid_params` in a later epoch: keep or revert, grow or
      shrink the delta, move on to the next coefficient or not. */
  function Judge(t: Tuning, current: real): (r: Tuning)
    requires WellShaped(t)
    ensures WellShaped(r) && r.step == t.step && r.sumError == t.sumError && r.epoch == t.epoch
  {
    var c := t.coeff;
    if t.forward then
      if current < t.bestError then t.(bestError := current, d := t.d[c := t.d[c] * 1.1], coeff := (c + 1) % 3)
      else t.(p := t.p[c := t.p[c] - 2.0 * t.d[c]], forward := false)
    else
      var kept :=
        if current < t.bestError then t.(bestError := current, d := t.d[c := t.d[c] * 1.1])
        else t.(p := t.p[c := t.p[c] + t.d[c]], d := t.d[c := t.d[c] * 0.9]);
      kept.(forward := true, coeff := (c + 1) % 3)
  }

  /** `_twiddle_pid_params()`: ZeroDivisionError when no step was taken
      (the mean error divides by the step count); otherwise one tuning step,
      after which the step count and the summed error are 0 and the epoch
      has advanced by one. */
  function Twiddle(t: Tuning): (r: Result<Tuning>)
    requires WellShaped(t)
    ensures r.Err? <==> t.step == 0
    ensures r.Err? ==> r.error == ZeroDivisionError
    ensures r.Ok? ==> WellShaped(r.value)
    ensures r.Ok? ==> r.value.step == 0 && r.value.sumError == 0.0 && r.value.epoch == t.epoch + 1
  {
    if t.step == 0 then Err(ZeroDivisionError)
    else
      var current := t.sumError / (t.step as real);
      var c := t.coeff;
      var u :=
        if t.epoch == 0 then t.(bestError := current, p := t.p[c := t.p[c] + t.d[c]])
        else
          var j := Judge(t, current);
          j.(p := j.p[j.coeff := j.p[j.coeff] + j.d[j.coeff]]);
      Ok(u.(step := 0, sumError := 0.0, epoch := t.epoch + 1))
  }

  /** The tuned coefficient stays where it is or moves to the next one, in
      the cycle 0, 1, 2, 0. */
  lemma TwiddleCycles(t: Tuning)
    requires WellShaped(t) && t.step != 0
    ensures var r := Twiddle(t).value;
      (r.coeff == t.coeff || r.coeff == (t.coeff + 1) % 3) && 0 <= r.coeff < 3
      && (r.coeff != t.coeff <==> t.epoch != 0 && (t.forward ==> t.sumError / (t.step as real) < t.bestError))
  {
  }

  /** The first epoch records the mean error as the best and tries the
      current coefficient one delta higher. */
  lemma TwiddleFirstEpoch(t: Tuning)
    requires WellShaped(t) && t.step != 0 && t.epoch == 0
    ensures var r := Twiddle(t).value;
      r.bestError == t.sumError / (t.step as real) && r.p == t.p[t.coeff := t.p[t.coeff] + t.d[t.coeff]]
      && r.d == t.d && r.coeff == t.coeff && r.forward == t.forward
  {
  }

  /** Trying upward without improvement reverts the coefficient and tries it
      one delta lower: the net change is minus one delta, and the next step
      goes backward on the same coefficient. */
  lemma TwiddleTriesOtherWay(t: Tuning)
    requires WellShaped(t) && t.step != 0 && t.epoch != 0 && t.forward
    requires t.sumError / (t.step as real) >= t.bestError
    ensures var r := Twiddle(t).value;
      r.p == t.p[t.coeff := t.p[t.coeff] - t.d[t.coeff]] && r.d == t.d
      && r.coeff == t.coeff && !r.forward && r.bestError == t.bestError
  {
  }

  /** An improvement records the new best error and grows the current
      delta by ten per cent. */
  lemma TwiddleImproves(t: Tuning)
    requires WellShaped(t) && t.step != 0 && t.epoch != 0
    requires t.sumError / (t.step as real) < t.bestError
    ensures var r := Twiddle(t).value;
      r.bestError == t.sumError / (t.step as real) && r.d[t.coeff] == t.d[t.coeff] * 1.1 && r.forward
  {
  }

  /** Only the coefficient tuned before and the one tuned after can change,
      and only the delta of the one tuned before. */
  lemma TwiddleIsLocal(t: Tuning)
    requires WellShaped(t) && t.step != 0
    ensures var r := Twiddle(t).value;
      (forall i :: 0 <= i < 3 && i != t.coeff && i != r.coeff ==> r.p[i] == t.p[i])
      && (forall i :: 0 <= i < 3 && i != t.coeff ==> r.d[i] == t.d[i])
  {
  }

  // ---------------------------------------------------------------- the component

  /** Whether run() steers and then draws on an output image the detector
      did not make: it makes one only for three publication channels. */
  predicate DrawFails(image: Value, moving: bool, line: real, nPublication: nat)
  {
    image != VNone && moving && line > 0.0 && nPublication != 3
  }

  class PidLineFollower {
    /** The component part: channels and bus. */
    const base: Component
    const trainMode: bool
    /** The three coefficients and, in train mode, their deltas. */
    const pidCoeffs: array<real>
    const dCoeffs: array<real>
    /** The latest camera image; None once it has been used. */
    var image: Value
    var moving: bool
    var throttle: Value
    var intCte: real
    var prevCte: real
    var trainSumError: real
    var trainBestError: real
    var trainingStep: int
    var trainingEpoch: int
    var tuningCoeff: int
    var forwardTune: bool

    predicate Valid()
      reads this
    {
      pidCoeffs.Length == 3 && dCoeffs.Length == 3 && pidCoeffs != dCoeffs && 0 <= tuningCoeff < 3
    }

    function Remembered(): Memory
      reads this
    {
      Memory(prevCte, intCte)
    }

    function TuningState(): Tuning
      reads this, pidCoeffs, dCoeffs
    {
      Tuning(pidCoeffs[..], dCoeffs[..], trainBestError, trainSumError, trainingStep, trainingEpoch, tuningCoeff, forwardTune)
    }

    /** The state after __init__ (the calibration file is not modelled):
        no image, stopped, no error history, throttle 1, and in train mode
        the deltas a tenth of the coefficients with every counter at 0. */
    constructor(trainMode: bool, coeffs: seq<real>, deltas: seq<real>)
      requires |coeffs| == 3 && |deltas| == 3
      ensures Valid() && fresh(base) && fresh(pidCoeffs) && fresh(dCoeffs)
      ensures base.kind == Plain && base.behaviour == PidBehaviour
      ensures base.subscription == [] && base.publication == [] && base.can == null && !base.channelNumWarned
      ensures this.trainMode == trainMode && pidCoeffs[..] == coeffs && dCoeffs[..] == deltas
      ensures image == VNone && !moving && throttle == VInt(1) && Remembered() == Memory(0.0, 0.0)
      ensures trainSumError == 0.0 && trainBestError == 0.0 && trainingStep == 0 && trainingEpoch == 0
      ensures tuningCoeff == 0 && forwardTune
    {
      base := new Component(Plain, PidBehaviour);
      this.trainMode := trainMode;
      pidCoeffs := new real[3](i requires 0 <= i < 3 => coeffs[i]);
      dCoeffs := new real[3](i requires 0 <= i < 3 => deltas[i]);
      image := VNone;
      moving := false;
      throttle := VInt(1);
      intCte, prevCte := 0.0, 0.0;
      trainSumError, trainBestError := 0.0, 0.0;
      trainingStep, trainingEpoch := 0, 0;
      tuningCoeff := 0;
      forwardTune := true;
    }

    /** PIDLineFollower(...): the coefficients come from the coefficient file
        when it exists, else the defaults; in train mode their tenth must be
        computable, so the default list raises TypeError. */
    static method Create(trainMode: bool, stored: Option<Coeffs>) returns (pid: PidLineFollower?, err: Option<Exc>)
      requires stored.Some? ==> |stored.value.xs| == 3
      ensures var c := if stored.Some? then stored.value else PyList(DefaultCoeffs);
        err == (if trainMode && Tenth(c).Err? then Some(TypeError) else None)
      ensures pid == null <==> err.Some?
      ensures var c := if stored.Some? then stored.value else PyList(DefaultCoeffs);
        pid != null ==> (fresh(pid) && pid.Valid() && pid.trainMode == trainMode && pid.pidCoeffs[..] == c.xs
                         && (trainMode ==> pid.dCoeffs[..] == Tenth(c).value))
    {
      var c := if stored.Some? then stored.value else PyList(DefaultCoeffs);
      var deltas := [0.0, 0.0, 0.0];
      if trainMode {
        var tenth := Tenth(c);
        if tenth.Err? {
          return null, Some(tenth.error);
        }
        deltas := tenth.value;
      }
      pid := new PidLineFollower(trainMode, c.xs, deltas);
      err := None;
    }

    /** start(): ValueError with fewer than two subscriptions (image and
        start/stop), True otherwise. */
    method Start() returns (longRunning: bool, err: Option<Exc>)
      ensures |base.subscription| < 2 ==> err == Some(ValueError) && !longRunning
      ensures |base.subscription| >= 2 ==> err.None? && longRunning
      ensures StartResult(PidBehaviour.start, base.subscription)
           == if err.Some? then Raises(err.value) else Returns(longRunning)
    {
      if |base.subscription| < 2 {
        return false, Some(ValueError);
      }
      return true, None;
    }

    /** _pid_steering(cte): the steering law on the current coefficients,
        remembering the error and the integrator. The arithmetic is the
        function PidSteering; the method is the state it updates. */
    method PidSteer(cte: real) returns (steer: real)
      requires Valid()
      modifies this`prevCte, this`intCte
      ensures (steer, Remembered()) == PidSteering(pidCoeffs[..], old(Remembered()), cte)
    {
      var r := PidSteering(pidCoeffs[..], Remembered(), cte);
      steer := r.0;
      prevCte, intCte := r.1.prevCte, r.1.intCte;
    }

    /** _twiddle_pid_params(): one tuning step on the coefficient arrays in
        place; a ZeroDivisionError leaves everything as it was. Saving the
        coefficients to a file is not modelled. */
    method TwiddlePidParams() returns (err: Option<Exc>)
      requires Valid()
      modifies this`trainBestError, this`trainSumError, this`trainingStep, this`trainingEpoch
      modifies this`tuningCoeff, this`forwardTune, pidCoeffs, dCoeffs
      ensures Valid()
      ensures Twiddle(old(TuningState())).Err? ==> err == Some(ZeroDivisionError) && TuningState() == old(TuningState())
      ensures Twiddle(old(TuningState())).Ok? ==> err.None? && TuningState() == Twiddle(old(TuningState())).value
    {
      if trainingStep == 0 {
        return Some(ZeroDivisionError);
      }
      var current := trainSumError / (trainingStep as real);
      var c := tuningCoeff;
      if trainingEpoch == 0 {
        trainBestError := current;
        pidCoeffs[c] := pidCoeffs[c] + dCoeffs[c];
      } else {
        JudgeStep(current);
        pidCoeffs[tuningCoeff] := pidCoeffs[tuningCoeff] + dCoeffs[tuningCoeff];
      }
      trainingStep := 0;
      trainSumError := 0.0;
      trainingEpoch := trainingEpoch + 1;
      err := None;
    }

    /** The judging part of a later epoch's tuning step. */
    method JudgeStep(current: real)
      requires Valid()
      modifies this`trainBestError, this`tuningCoeff, this`forwardTune, pidCoeffs, dCoeffs
      ensures Valid() && TuningState() == Judge(old(TuningState()), current)
    {
      var c := tuningCoeff;
      if forwardTune {
        if current < trainBestError {
          trainBestError := current;
          dCoeffs[c] := dCoeffs[c] * 1.1;
          tuningCoeff := (c + 1) % 3;
        } else {
          pidCoeffs[c] := pidCoeffs[c] - 2.0 * dCoeffs[c];
          forwardTune := false;
        }
      } else {
        if current < trainBestError {
          trainBestError := current;
          dCoeffs[c] := dCoeffs[c] * 1.1;
        } else {
          pidCoeffs[c] := pidCoeffs[c] + dCoeffs[c];
          dCoeffs[c] := dCoeffs[c] * 0.9;
        }
        forwardTune := true;
        tuningCoeff := (c + 1) % 3;
      }
    }

    /** on_message(channel, content): the first subscription delivers the
        image, the second the start/stop signal, the third the throttle. In
        train mode a stop while moving runs one tuning step first; if that
        raises, `moving` keeps its old value. Comparing against a
        subscription that does not exist raises IndexError. */
    method OnMessage(channel: Value, content: Value) returns (err: Option<Exc>)
      requires Valid()
      modifies this`image, this`moving, this`throttle
      modifies this`trainBestError, this`trainSumError, this`trainingStep, this`trainingEpoch
      modifies this`tuningCoeff, this`forwardTune, pidCoeffs, dCoeffs
      ensures Valid()
      ensures (|base.subscription| == 0
               || (|base.subscription| == 1 && channel != base.subscription[0])
               || (|base.subscription| == 2 && channel != base.subscription[0] && channel != base.subscription[1]))
        ==> (err == Some(IndexError) && unchanged(this) && unchanged(pidCoeffs, dCoeffs))
      ensures (|base.subscription| > 0 && channel == base.subscription[0])
        ==> (err.None? && image == content && moving == old(moving) && throttle == old(throttle)
             && TuningState() == old(TuningState()))
      ensures (|base.subscription| > 1 && channel != base.subscription[0] && channel == base.subscription[1])
        ==> (image == old(image) && throttle == old(throttle)
             && if trainMode && old(moving) && !Truthy(content)
                then (match Twiddle(old(TuningState()))
                      case Err(e) => err == Some(e) && moving == old(moving) && TuningState() == old(TuningState())
                      case Ok(t) => err.None? && !moving && TuningState() == t)
                else err.None? && moving == Truthy(content) && TuningState() == old(TuningState()))
      ensures (|base.subscription| > 2 && channel != base.subscription[0] && channel != base.subscription[1]
               && channel == base.subscription[2])
        ==> (err.None? && throttle == content && image == old(image) && moving == old(moving)
             && TuningState() == old(TuningState()))
      ensures (|base.subscription| > 2 && channel != base.subscription[0] && channel != base.subscription[1]
               && channel != base.subscription[2])
        ==> (err.None? && unchanged(this) && unchanged(pidCoeffs, dCoeffs))
    {
      err := None;
      if |base.subscription| == 0 {
        return Some(IndexError);
      }
      if channel == base.subscription[0] {
        image := content;
        return;
      }
      if |base.subscription| == 1 {
        return Some(IndexError);
      }
      if channel == base.subscription[1] {
        var move := Truthy(content);
        if trainMode && moving && !move {
          err := TwiddlePidParams();
          if err.Some? {
            return;
          }
        }
        moving := move;
        return;
      }
      if |base.subscription| == 2 {
        return Some(IndexError);
      }
      if channel == base.subscription[2] {
        throttle := content;
      }
    }

    /** One iteration of run() after line detection. With an image while
        moving, the image is used up; a line found at a positive position
        gives the error car - line, one step of the steering law, in train
        mode one more training step and its squared error, and publishes
        steering, throttle and the output image; otherwise it publishes 0,
        0 and None. The detector draws an output image only when there are
        three publication channels; without one, drawing on it raises
        AttributeError before anything is published. The detection result
        is a parameter. */
    method RunOnce(line: real, car: int, imageOut: Value) returns (calls: seq<PublishCall>, err: Option<Exc>)
      requires Valid()
      modifies this`image, this`prevCte, this`intCte, this`trainingStep, this`trainSumError, base`channelNumWarned
      ensures Valid()
      ensures var steered := old(image) != VNone && old(moving) && line > 0.0;
        var (steer, m) := PidSteering(pidCoeffs[..], old(Remembered()), Cte(line, car as real));
        if steered then
          Remembered() == m
          && trainingStep == (if trainMode then old(trainingStep) + 1 else old(trainingStep))
          && trainSumError == (if trainMode then old(trainSumError) + m.prevCte * m.prevCte else old(trainSumError))
          && (|base.publication| == 3 && base.can != null ==>
                (calls, err) == Publishes(base.can.kind, base.publication, [VFloat(steer), throttle, imageOut]))
        else
          Remembered() == old(Remembered()) && trainingStep == old(trainingStep) && trainSumError == old(trainSumError)
          && (base.can != null ==> (calls, err) == Publishes(base.can.kind, base.publication, [VInt(0), VInt(0), VNone]))
      ensures image == if old(image) != VNone && old(moving) then VNone else old(image)
      ensures DrawFails(old(image), old(moving), line, |base.publication|) ==>
        calls == [] && err == Some(AttributeError) && base.channelNumWarned == old(base.channelNumWarned)
      ensures !DrawFails(old(image), old(moving), line, |base.publication|) ==>
        base.channelNumWarned == FlagStep(old(base.channelNumWarned), |base.publication|, Call(base.can != null, 3))
      ensures !DrawFails(old(image), old(moving), line, |base.publication|) && base.can == null ==>
        calls == [] && err == Some(ValueError)
    {
      var warned;
      if image != VNone && moving {
        image := VNone;
        if line > 0.0 {
          var cte := Cte(line, car as real);
          var steering := PidSteer(cte);
          if trainMode {
            trainingStep := trainingStep + 1;
            trainSumError := trainSumError + prevCte * prevCte;
          }
          if |base.publication| != 3 {
            return [], Some(AttributeError);
          }
          calls, warned, err := base.PublishMessage([VFloat(steering), throttle, imageOut]);
        } else {
          calls, warned, err := base.PublishMessage([VInt(0), VInt(0), VNone]);
        }
      } else {
        calls, warned, err := base.PublishMessage([VInt(0), VInt(0), VNone]);
      }
    }
  }
}
