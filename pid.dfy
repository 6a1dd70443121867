/**
 * Discrete-time PID controller (Mdk.SimpleAutopilot/PID.cs).
 *
 * The class `PID` keeps the source's fields and updates them in place; the
 * functions before it state what one `Control` call does to the controller's
 * history and what it returns, and the lemmas relate a whole run of calls to a
 * closed form (proportional law, linear integral, first-call suppression).
 */
module Pid {

  /** Gains of a controller. */
  datatype Gains = Gains(kp: real, ki: real, kd: real)

  /** What `Control` reads and writes besides gains and time step. */
  datatype History = History(errorSum: real, lastError: real, firstRun: bool)

  /** History of a newly constructed or reset controller. */
  const Rearmed: History := History(0.0, 0.0, true)

  /**
   * The base-class integral rule: rectangular accumulation, no clamp. With a
   * positive time step the sum grows exactly when the error is positive and
   * stays put exactly when the error is zero.
   */
  function Integral(error: real, errorSum: real, timeStep: real): (r: real)
    ensures timeStep > 0.0 ==> (r > errorSum <==> error > 0.0)
    ensures timeStep > 0.0 ==> (r == errorSum <==> error == 0.0)
    ensures timeStep > 0.0 ==> (r < errorSum <==> error < 0.0)
  {
    errorSum + error * timeStep
  }

  /** The derivative term of one call; forced to 0 on the first call. */
  function Derivative(h: History, error: real, inverseTimeStep: real): real {
    if h.firstRun then 0.0 else (error - h.lastError) * inverseTimeStep
  }

  /** The history after one `Control(error)` call. */
  function Next(h: History, error: real, timeStep: real): History {
    History(Integral(error, h.errorSum, timeStep), error, false)
  }

  /** The value one `Control(error)` call stores and returns. */
  function Output(g: Gains, h: History, error: real, timeStep: real, inverseTimeStep: real): real {
    g.kp * error + g.ki * Next(h, error, timeStep).errorSum + g.kd * Derivative(h, error, inverseTimeStep)
  }

  /** The values returned by successive `Control` calls with a fixed time step. */
  function Outputs(g: Gains, h: History, errors: seq<real>, timeStep: real, inverseTimeStep: real): (outs: seq<real>)
    ensures |outs| == |errors|
    decreases |errors|
  {
    if errors == [] then []
    else [Output(g, h, errors[0], timeStep, inverseTimeStep)]
         + Outputs(g, Next(h, errors[0], timeStep), errors[1..], timeStep, inverseTimeStep)
  }

  /** The history after successive `Control` calls with a fixed time step. */
  function Final(h: History, errors: seq<real>, timeStep: real): History
    decreases |errors|
  {
    if errors == [] then h else Final(Next(h, errors[0], timeStep), errors[1..], timeStep)
  }

  /** Sum of a sequence of errors. */
  function Sum(s: seq<real>): real
    decreases |s|
  {
    if s == [] then 0.0 else s[0] + Sum(s[1..])
  }

  /** Sum of the first element and the rest, restated for a prefix. */
  lemma {:induction false} SumPrefixStep(s: seq<real>, i: nat)
    requires 0 < i < |s|
    ensures Sum(s[..i + 1]) == s[0] + Sum(s[1..][..i])
  {
    assert s[..i + 1][1..] == s[1..][..i];
  }

  /**
   * After a non-empty run of calls the integral has grown by the time step times
   * the sum of the errors, the last error is remembered and the first-call flag
   * is clear; an empty run changes nothing.
   */
  lemma {:induction false} FinalHistory(h: History, errors: seq<real>, timeStep: real)
    ensures errors == [] ==> Final(h, errors, timeStep) == h
    ensures errors != [] ==>
      Final(h, errors, timeStep) == History(h.errorSum + timeStep * Sum(errors), errors[|errors| - 1], false)
    decreases |errors|
  {
    if errors != [] {
      var rest := errors[1..];
      FinalHistory(Next(h, errors[0], timeStep), rest, timeStep);
      assert timeStep * Sum(errors) == timeStep * errors[0] + timeStep * Sum(rest);
      if rest != [] {
        assert rest[|rest| - 1] == errors[|errors| - 1];
      }
    }
  }

  /**
   * Closed form of the i-th output of a run: proportional term, integral of all
   * errors so far (including the current one), and a derivative that is the
   * first call's (suppressed when the run starts re-armed) or the difference of
   * consecutive errors times the inverse time step (1/T for a valid controller).
   */
  lemma {:induction false} OutputAt(g: Gains, h: History, errors: seq<real>, timeStep: real, inverseTimeStep: real, i: nat)
    requires i < |errors|
    ensures Outputs(g, h, errors, timeStep, inverseTimeStep)[i] ==
      g.kp * errors[i]
      + g.ki * (h.errorSum + timeStep * Sum(errors[..i + 1]))
      + g.kd * (if i == 0 then Derivative(h, errors[0], inverseTimeStep)
                else (errors[i] - errors[i - 1]) * inverseTimeStep)
    decreases i
  {
    var outs := Outputs(g, h, errors, timeStep, inverseTimeStep);
    if i == 0 {
      assert errors[..1] == [errors[0]];
      assert Sum(errors[..1]) == errors[0] + Sum([]);
    } else {
      var h' := Next(h, errors[0], timeStep);
      var rest := errors[1..];
      OutputAt(g, h', rest, timeStep, inverseTimeStep, i - 1);
      assert outs[i] == Outputs(g, h', rest, timeStep, inverseTimeStep)[i - 1];
      SumPrefixStep(errors, i);
      assert h'.errorSum + timeStep * Sum(rest[..i]) == h.errorSum + timeStep * Sum(errors[..i + 1]) by {
        assert timeStep * Sum(errors[..i + 1]) == timeStep * errors[0] + timeStep * Sum(rest[..i]);
      }
    }
  }

  /** With Ki = Kd = 0 every output is exactly Kp times its error. */
  lemma ProportionalLaw(g: Gains, h: History, errors: seq<real>, timeStep: real, inverseTimeStep: real)
    requires g.ki == 0.0 && g.kd == 0.0
    ensures forall i :: 0 <= i < |errors| ==> Outputs(g, h, errors, timeStep, inverseTimeStep)[i] == g.kp * errors[i]
  {
    forall i | 0 <= i < |errors|
      ensures Outputs(g, h, errors, timeStep, inverseTimeStep)[i] == g.kp * errors[i]
    {
      OutputAt(g, h, errors, timeStep, inverseTimeStep, i);
    }
  }

  /** n copies of one error. */
  function Constant(e: real, n: nat): (s: seq<real>)
    ensures |s| == n
  {
    seq(n, _ => e)
  }

  lemma {:induction false} SumConstant(e: real, n: nat)
    ensures Sum(Constant(e, n)) == (n as real) * e
  {
    if n > 0 {
      assert Constant(e, n)[1..] == Constant(e, n - 1);
      SumConstant(e, n - 1);
    }
  }

  /**
   * Feeding a constant error e for n calls of period T to a re-armed controller
   * accumulates e * n * T, so the integral contributes Ki * n * e * T to the
   * n-th output.
   */
  lemma ConstantErrorIntegral(g: Gains, e: real, n: nat, timeStep: real, inverseTimeStep: real)
    requires n > 0
    ensures Final(Rearmed, Constant(e, n), timeStep).errorSum == e * (n as real) * timeStep
    ensures Outputs(g, Rearmed, Constant(e, n), timeStep, inverseTimeStep)[n - 1]
            == g.kp * e + g.ki * (e * (n as real) * timeStep)
  {
    var es := Constant(e, n);
    FinalHistory(Rearmed, es, timeStep);
    SumConstant(e, n);
    OutputAt(g, Rearmed, es, timeStep, inverseTimeStep, n - 1);
    assert es[..n] == es;
  }

  /**
   * The first call after construction or a reset has no derivative term,
   * whatever the gains and time step.
   */
  lemma FirstOutputAfterRearm(g: Gains, errors: seq<real>, timeStep: real, inverseTimeStep: real)
    requires errors != []
    ensures Outputs(g, Rearmed, errors, timeStep, inverseTimeStep)[0] == g.kp * errors[0] + g.ki * (errors[0] * timeStep)
  {
  }

  class PID {
    var Kp: real
    var Ki: real
    var Kd: real
    var Value: real

    var timeStep: real
    var inverseTimeStep: real
    var errorSum: real
    var lastError: real
    var firstRun: bool

    /** The inverse time step is the reciprocal of a non-zero time step. */
    ghost predicate Valid()
      reads this
    {
      timeStep != 0.0 && inverseTimeStep == 1.0 / timeStep
    }

    function CurrentGains(): Gains
      reads this
    {
      Gains(Kp, Ki, Kd)
    }

    function Memory(): History
      reads this
    {
      History(errorSum, lastError, firstRun)
    }

    constructor (kp: real, ki: real, kd: real, timeStep: real)
      requires timeStep != 0.0
      ensures Valid()
      ensures CurrentGains() == Gains(kp, ki, kd) && this.timeStep == timeStep
      ensures Memory() == Rearmed && Value == 0.0
    {
      Kp, Ki, Kd := kp, ki, kd;
      Value := 0.0;
      errorSum, lastError, firstRun := 0.0, 0.0, true;
      this.timeStep := timeStep;
      inverseTimeStep := 1.0 / timeStep;
    }

    /** One control step with the stored time step. */
    method Control(error: real) returns (v: real)
      modifies this`errorSum, this`lastError, this`firstRun, this`Value
      ensures Memory() == Next(old(Memory()), error, timeStep)
      ensures v == Value == Output(CurrentGains(), old(Memory()), error, timeStep, inverseTimeStep)
    {
      var errorDerivative := (error - lastError) * inverseTimeStep;
      if firstRun {
        errorDerivative := 0.0;
        firstRun := false;
      }
      errorSum := Integral(error, errorSum, timeStep);
      lastError := error;
      Value := Kp * error + Ki * errorSum + Kd * errorDerivative;
      v := Value;
    }

    /** One control step after adopting a (possibly new) time step. */
    method ControlWithTimeStep(error: real, dt: real) returns (v: real)
      requires dt != timeStep ==> dt != 0.0
      modifies this`timeStep, this`inverseTimeStep, this`errorSum, this`lastError, this`firstRun, this`Value
      ensures timeStep == dt
      ensures inverseTimeStep == if dt != old(timeStep) then 1.0 / dt else old(inverseTimeStep)
      ensures old(Valid()) ==> Valid()
      ensures Memory() == Next(old(Memory()), error, dt)
      ensures v == Value == Output(CurrentGains(), old(Memory()), error, dt, inverseTimeStep)
    {
      if dt != timeStep {
        timeStep := dt;
        inverseTimeStep := 1.0 / timeStep;
      }
      v := Control(error);
    }

    /** Re-arms the controller; gains, time step and Value are kept. */
    method Reset()
      modifies this`errorSum, this`lastError, this`firstRun
      ensures Memory() == Rearmed
    {
      errorSum := 0.0;
      lastError := 0.0;
      firstRun := true;
    }
  }
}
