/**
 * PID controller with first-call seeding, integrator freezing and gain setters.
 * The clock reading that the controller takes itself is a parameter `t` here.
 * The integrator limit I_L is stored but never applied: its clamping code is
 * disabled in the controller, and the model has none either.
 */
module PidControl {
  import opened Common

  /** I_TERM, which does not exist until a seed or a control call assigns it. */
  datatype IntegralValue = Unassigned | Assigned(value: real)

  /** Everything one controller holds; the constructor leaves I_TERM unassigned. */
  datatype PidState = PidState(
    kp: real, kd: real, ki: real, iL: real,
    errorSum: real, errorPrevious: real, tPrevious: real,
    seedFlag: int, freeze: int, firstTime: int,
    iTerm: IntegralValue)

  /** Why a control call stopped without an output. */
  datatype ControlError =
    | IntegralTermUnset       // I_TERM read before anything assigned it
    | ZeroTimeStep            // type 1 divides by dt = 0
    | UnknownControllerType   // a type other than 1 or 2 leaves the derivative unset

  datatype Controlled = Controlled(output: real, next: PidState)

  function Reset(s: PidState): PidState {
    s.(errorSum := 0.0, errorPrevious := 0.0, tPrevious := 0.0, seedFlag := 0, freeze := 0, firstTime := 1)
  }

  function Init(kp: real, kd: real, ki: real, iL: real): PidState {
    Reset(PidState(kp, kd, ki, iL, 0.0, 0.0, 0.0, 0, 0, 0, Unassigned))
  }

  function Seed(s: PidState, seedValue: real): PidState {
    Reset(s).(iTerm := Assigned(seedValue), seedFlag := 1)
  }

  function FreezeIntegrator(s: PidState, onOff: int): PidState {
    s.(freeze := onOff)
  }

  /** The derivative term before the gain: the error rate for type 1, the given
      rate for type 2. */
  function Derivative(error: real, errorPrevious: real, controlType: int, dadt: real, dt: real): real
    requires controlType == 1 ==> dt != 0.0
  {
    if controlType == 1 then (error - errorPrevious) / dt else dadt
  }

  /** The error sum after line-by-line integration: unchanged while frozen. */
  function IntegratedSum(s: PidState, error: real, dt: real): real {
    if s.freeze == 1 then s.errorSum else s.errorSum + error * dt
  }

  /** Whether a non-first call consumes the seed: it sets the error sum from I_TERM. */
  predicate UsesSeed(s: PidState) {
    s.ki != 0.0 && s.seedFlag == 1 && s.freeze == 0
  }

  /** I_TERM after a non-first call, given the integrated error sum. */
  function IntegralTerm(s: PidState, sum: real): real
    requires UsesSeed(s) ==> s.iTerm.Assigned?
  {
    if s.ki == 0.0 then 0.0 else if UsesSeed(s) then s.iTerm.value else sum * s.ki
  }

  /** One call of `control` at clock reading t. */
  function Control(s: PidState, target: real, actual: real, controlType: int, dadt: real, t: real)
    : Result<Controlled, ControlError>
  {
    if s.firstTime == 1 then
      if s.iTerm.Unassigned? then Err(IntegralTermUnset)
      else
        var output := if s.iTerm.value != 0.0 then s.iTerm.value else 0.0;
        Ok(Controlled(output, s.(tPrevious := t, firstTime := 0)))
    else
      var dt := t - s.tPrevious;
      var error := target - actual;
      if controlType == 1 && dt == 0.0 then Err(ZeroTimeStep)
      else if controlType != 1 && controlType != 2 then Err(UnknownControllerType)
      else if UsesSeed(s) && s.iTerm.Unassigned? then Err(IntegralTermUnset)
      else
        var derivative := Derivative(error, s.errorPrevious, controlType, dadt, dt);
        var sum := IntegratedSum(s, error, dt);
        var sum' := if UsesSeed(s) then s.iTerm.value / s.ki else sum;
        var iTerm := IntegralTerm(s, sum);
        var seedFlag := if UsesSeed(s) then 0 else s.seedFlag;
        Ok(Controlled(error * s.kp + derivative * s.kd + iTerm,
                      s.(errorSum := sum', iTerm := Assigned(iTerm), seedFlag := seedFlag,
                         tPrevious := t, errorPrevious := error)))
  }

  /** What every controller reachable from the constructor satisfies: the flags are
      0 or 1, and a pending seed always has its I_TERM. */
  predicate Valid(s: PidState) {
    && (s.seedFlag == 0 || s.seedFlag == 1)
    && (s.firstTime == 0 || s.firstTime == 1)
    && (s.seedFlag == 1 ==> s.iTerm.Assigned?)
  }

  // ---------------------------------------------------------------------------

  /** `reset` clears the error history and the flags; gains, I_L and I_TERM stay. */
  lemma ResetKeepsGains(s: PidState)
    ensures var r := Reset(s);
            && r.kp == s.kp && r.kd == s.kd && r.ki == s.ki && r.iL == s.iL && r.iTerm == s.iTerm
            && r.errorSum == 0.0 && r.errorPrevious == 0.0 && r.tPrevious == 0.0
            && r.seedFlag == 0 && r.freeze == 0 && r.firstTime == 1
  {
  }

  lemma InitValid(kp: real, kd: real, ki: real, iL: real)
    ensures Valid(Init(kp, kd, ki, iL)) && Init(kp, kd, ki, iL).iTerm.Unassigned?
  {
  }

  /** Every operation keeps the controller valid. */
  lemma OperationsPreserveValid(s: PidState, v: real, onOff: int,
                                target: real, actual: real, controlType: int, dadt: real, t: real)
    requires Valid(s)
    ensures Valid(Reset(s)) && Valid(Seed(s, v)) && Valid(FreezeIntegrator(s, onOff))
    ensures Valid(s.(kp := v)) && Valid(s.(kd := v)) && Valid(s.(ki := v))
    ensures Control(s, target, actual, controlType, dadt, t).Ok? ==>
              Valid(Control(s, target, actual, controlType, dadt, t).value.next)
  {
  }

  /** A call fails exactly in these cases, and in a valid controller a pending seed
      never fails. */
  lemma ControlFails(s: PidState, target: real, actual: real, controlType: int, dadt: real, t: real)
    ensures Control(s, target, actual, controlType, dadt, t).Err? <==>
              if s.firstTime == 1 then s.iTerm.Unassigned?
              else (controlType == 1 && t - s.tPrevious == 0.0)
                   || (controlType != 1 && controlType != 2)
                   || (UsesSeed(s) && s.iTerm.Unassigned?)
    ensures Valid(s) && s.firstTime != 1 && (controlType == 1 || controlType == 2)
            && (controlType == 1 ==> t != s.tPrevious)
            ==> Control(s, target, actual, controlType, dadt, t).Ok?
  {
  }

  /** The first call after a reset returns I_TERM, records the time and touches
      nothing else. */
  lemma FirstCallReturnsIntegralTerm(s: PidState, target: real, actual: real, controlType: int, dadt: real, t: real)
    requires s.firstTime == 1 && s.iTerm.Assigned?
    ensures Control(s, target, actual, controlType, dadt, t)
         == Ok(Controlled(s.iTerm.value, s.(tPrevious := t, firstTime := 0)))
  {
  }

  /** A later call outputs kp * error + kd * D + I_TERM and remembers the error and
      the time. */
  lemma OutputIsPid(s: PidState, target: real, actual: real, controlType: int, dadt: real, t: real)
    requires s.firstTime != 1
    requires Control(s, target, actual, controlType, dadt, t).Ok?
    ensures var c := Control(s, target, actual, controlType, dadt, t).value;
            var e := target - actual;
            && c.next.iTerm.Assigned?
            && c.output == s.kp * e + s.kd * Derivative(e, s.errorPrevious, controlType, dadt, t - s.tPrevious)
                           + c.next.iTerm.value
            && c.next.errorPrevious == e && c.next.tPrevious == t
            && c.next.kp == s.kp && c.next.kd == s.kd && c.next.ki == s.ki && c.next.iL == s.iL
            && c.next.freeze == s.freeze && c.next.firstTime == s.firstTime
  {
    var e := target - actual;
    var c := Control(s, target, actual, controlType, dadt, t).value;
    var d := Derivative(e, s.errorPrevious, controlType, dadt, t - s.tPrevious);
    assert c.output == e * s.kp + d * s.kd + c.next.iTerm.value;
  }

  /** With the integrator frozen the error sum does not move. */
  lemma FrozenIntegratorHolds(s: PidState, target: real, actual: real, controlType: int, dadt: real, t: real)
    requires s.firstTime != 1 && s.freeze == 1
    requires Control(s, target, actual, controlType, dadt, t).Ok?
    ensures Control(s, target, actual, controlType, dadt, t).value.next.errorSum == s.errorSum
    ensures Control(s, target, actual, controlType, dadt, t).value.next.seedFlag == s.seedFlag
  {
  }

  /** Unfrozen and without a pending seed, the error sum integrates error * dt and
      I_TERM is ki times it (or 0 when ki is 0). */
  lemma IntegratorAccumulates(s: PidState, target: real, actual: real, controlType: int, dadt: real, t: real)
    requires s.firstTime != 1 && s.freeze != 1 && !UsesSeed(s)
    requires Control(s, target, actual, controlType, dadt, t).Ok?
    ensures var next := Control(s, target, actual, controlType, dadt, t).value.next;
            && next.errorSum == s.errorSum + (target - actual) * (t - s.tPrevious)
            && next.iTerm == Assigned(if s.ki == 0.0 then 0.0 else next.errorSum * s.ki)
  {
    var next := Control(s, target, actual, controlType, dadt, t).value.next;
    var sum := IntegratedSum(s, target - actual, t - s.tPrevious);
    assert next.errorSum == sum;
    assert next.iTerm == Assigned(IntegralTerm(s, sum));
  }

  /** With ki = 0 the controller is a PD controller. */
  lemma ZeroIntegralGainIsPd(s: PidState, target: real, actual: real, controlType: int, dadt: real, t: real)
    requires s.firstTime != 1 && s.ki == 0.0
    requires Control(s, target, actual, controlType, dadt, t).Ok?
    ensures var e := target - actual;
            (Control(s, target, actual, controlType, dadt, t).value.output
             == s.kp * e + s.kd * Derivative(e, s.errorPrevious, controlType, dadt, t - s.tPrevious))
  {
    OutputIsPid(s, target, actual, controlType, dadt, t);
  }

  /** A pending seed is consumed by the first unfrozen call: I_TERM is kept and the
      error sum is set so that ki times it is I_TERM again. */
  lemma SeedConsumed(s: PidState, target: real, actual: real, controlType: int, dadt: real, t: real)
    requires s.firstTime != 1 && UsesSeed(s)
    requires Control(s, target, actual, controlType, dadt, t).Ok?
    ensures var next := Control(s, target, actual, controlType, dadt, t).value.next;
            && next.iTerm == s.iTerm && next.seedFlag == 0
            && next.errorSum * s.ki == s.iTerm.value
  {
  }

  /** Seeding gives a bumpless start: the first call returns the seed, the second
      uses it as its integral term, and the third integrates on from it. */
  lemma SeedIsBumpless(s: PidState, v: real,
                       t1: real, target2: real, actual2: real, type2: int, dadt2: real, t2: real,
                       target3: real, actual3: real, type3: int, dadt3: real, t3: real)
    requires s.ki != 0.0
    requires (type2 == 1 || type2 == 2) && (type2 == 1 ==> t2 != t1)
    requires (type3 == 1 || type3 == 2) && (type3 == 1 ==> t3 != t2)
    ensures var c1 := Control(Seed(s, v), 0.0, 0.0, 1, 0.0, t1);
            && c1.Ok? && c1.value.output == v
            && var c2 := Control(c1.value.next, target2, actual2, type2, dadt2, t2);
            && c2.Ok? && c2.value.next.iTerm == Assigned(v)
            && var c3 := Control(c2.value.next, target3, actual3, type3, dadt3, t3);
            && c3.Ok? && c3.value.next.iTerm == Assigned(v + s.ki * (target3 - actual3) * (t3 - t2))
  {
    var s1 := Seed(s, v);
    var c1 := Control(s1, 0.0, 0.0, 1, 0.0, t1);
    FirstCallReturnsIntegralTerm(s1, 0.0, 0.0, 1, 0.0, t1);
    var s2 := c1.value.next;
    assert s2.firstTime == 0 && s2.tPrevious == t1 && UsesSeed(s2) && s2.iTerm == Assigned(v);
    var c2 := Control(s2, target2, actual2, type2, dadt2, t2);
    ControlFails(s2, target2, actual2, type2, dadt2, t2);
    SeedConsumed(s2, target2, actual2, type2, dadt2, t2);
    var s3 := c2.value.next;
    assert s3.seedFlag == 0 && s3.freeze == 0 && s3.tPrevious == t2 && s3.ki == s.ki && s3.firstTime == 0;
    ControlFails(s3, target3, actual3, type3, dadt3, t3);
    IntegratorAccumulates(s3, target3, actual3, type3, dadt3, t3);
    var e, dt := target3 - actual3, t3 - t2;
    assert s3.errorSum * s.ki == v;
    assert (s3.errorSum + e * dt) * s.ki == v + s.ki * e * dt;
  }

  // ---------------------------------------------------------------------------

  class Pid {
    var kp: real
    var kd: real
    var ki: real
    var iL: real
    var errorSum: real
    var errorPrevious: real
    var tPrevious: real
    var seedFlag: int
    var freeze: int
    var firstTime: int
    var iTerm: IntegralValue

    function Snapshot(): PidState
      reads this
    {
      PidState(kp, kd, ki, iL, errorSum, errorPrevious, tPrevious, seedFlag, freeze, firstTime, iTerm)
    }

    constructor (kp: real, kd: real, ki: real, iL: real)
      ensures Snapshot() == Init(kp, kd, ki, iL)
    {
      this.kp, this.kd, this.ki, this.iL := kp, kd, ki, iL;
      iTerm := Unassigned;
      errorSum, errorPrevious, tPrevious := 0.0, 0.0, 0.0;
      seedFlag, freeze, firstTime := 0, 0, 1;
    }

    method ResetController()
      modifies this
      ensures Snapshot() == Reset(old(Snapshot()))
    {
      errorSum := 0.0;
      errorPrevious := 0.0;
      tPrevious := 0.0;
      seedFlag := 0;
      freeze := 0;
      firstTime := 1;
    }

    method SeedController(seedValue: real)
      modifies this
      ensures Snapshot() == Seed(old(Snapshot()), seedValue)
    {
      ResetController();
      iTerm := Assigned(seedValue);
      seedFlag := 1;
    }

    method SetFreeze(onOff: int)
      modifies this
      ensures Snapshot() == FreezeIntegrator(old(Snapshot()), onOff)
    {
      freeze := onOff;
    }

    method SetKp(newKp: real)
      modifies this
      ensures Snapshot() == old(Snapshot()).(kp := newKp)
    {
      kp := newKp;
    }

    method SetKd(newKd: real)
      modifies this
      ensures Snapshot() == old(Snapshot()).(kd := newKd)
    {
      kd := newKd;
    }

    method SetKi(newKi: real)
      modifies this
      ensures Snapshot() == old(Snapshot()).(ki := newKi)
    {
      ki := newKi;
    }

    /** One call of `control` at clock reading t; on an error nothing is stored. The
        clock reading comes before the two parameters that default to type 1 and
        dadt = 0, as in the source. */
    method ControlOutput(target: real, actual: real, t: real, controlType: int := 1, dadt: real := 0.0)
      returns (r: Result<real, ControlError>)
      modifies this
      ensures Control(old(Snapshot()), target, actual, controlType, dadt, t).Ok? ==>
                r == Ok(Control(old(Snapshot()), target, actual, controlType, dadt, t).value.output)
                && Snapshot() == Control(old(Snapshot()), target, actual, controlType, dadt, t).value.next
      ensures Control(old(Snapshot()), target, actual, controlType, dadt, t).Err? ==>
                r == Err(Control(old(Snapshot()), target, actual, controlType, dadt, t).error)
                && Snapshot() == old(Snapshot())
    {
      ghost var s := Snapshot();
      if firstTime == 1 {
        if iTerm.Unassigned? {
          return Err(IntegralTermUnset);
        }
        tPrevious := t;
        var output := if iTerm.value != 0.0 then iTerm.value else 0.0;
        firstTime := 0;
        return Ok(output);
      }
      var dt := t - tPrevious;
      var error := target - actual;
      var pTerm := error * kp;
      var derivative;
      if controlType == 1 {
        if dt == 0.0 {
          return Err(ZeroTimeStep);
        }
        derivative := (error - errorPrevious) / dt;
      } else if controlType == 2 {
        derivative := dadt;
      } else {
        return Err(UnknownControllerType);
      }
      var dTerm := derivative * kd;
      if ki != 0.0 && seedFlag == 1 && freeze == 0 && iTerm.Unassigned? {
        return Err(IntegralTermUnset);
      }
      if freeze != 1 {
        errorSum := errorSum + error * dt;
      }
      if ki != 0.0 {
        if seedFlag == 1 && freeze == 0 {
          errorSum := iTerm.value / ki;
          seedFlag := 0;
        } else {
          iTerm := Assigned(errorSum * ki);
        }
      } else {
        iTerm := Assigned(0.0);
      }
      assert derivative == Derivative(error, s.errorPrevious, controlType, dadt, dt);
      r := Ok(pTerm + dTerm + iTerm.value);
      tPrevious := t;
      errorPrevious := error;
      ghost var next := Control(s, target, actual, controlType, dadt, t).value.next;
      assert next.errorSum == errorSum;
      assert next.iTerm == iTerm;
      assert next.seedFlag == seedFlag;
      assert next == Snapshot();
      assert Control(s, target, actual, controlType, dadt, t).value.output == pTerm + dTerm + iTerm.value;
    }
  }
}
