/** The PWM actuators (src/components/actuator.py): a steering servo and a
    throttle ESC, both driven through one PCA9685 board. A message value of
    zero gives the neutral command, None gives none, and any other value is
    mapped linearly from [-1, 1] onto the actuator's range. */
module Actuator {
  import opened Py
  import opened Ranges

  /** A command given to the PCA9685 board. */
  datatype Command = SetAngle(channel: int, angle: int) | SetThrottle(channel: int, throttle: real)

  /** The PCA9685 board, seen through the commands it has been given, in order.
      The hardware (ServoKit) is not part of this model. */
  class Pca9685 {
    var commands: seq<Command>

    constructor()
      ensures commands == []
    {
      commands := [];
    }
  }

  const MinSteering: real := -1.0
  const MaxSteering: real := 1.0

  const DefaultStraightAngle: int := 105
  const DefaultFullRightAngle: int := 50
  const DefaultFullLeftAngle: int := 150
  const DefaultMinThrottle: real := -1.0
  const DefaultMaxThrottle: real := 1.0

  /** `map_range(v, lo, hi, yMin, yMax)` for a message value: the ranges are
      checked first (ZeroDivisionError), then `v - lo` needs a number (TypeError). */
  function MapValue(v: Value, lo: real, hi: real, yMin: real, yMax: real): (r: Result<real>)
    requires lo != hi
    ensures yMin == yMax ==> r == Err(ZeroDivisionError)
    ensures yMin != yMax && Number(v).None? ==> r == Err(TypeError)
    ensures yMin != yMax && Number(v).Some? ==> r == MapRange(Number(v).value, lo, hi, yMin, yMax)
    ensures r.Ok? ==> Number(v).Some? && r.value == yMin + (Number(v).value - lo) * Slope(lo, hi, yMin, yMax)
  {
    if yMin == yMax then Err(ZeroDivisionError)
    else match Number(v)
      case None => Err(TypeError)
      case Some(x) => MapRange(x, lo, hi, yMin, yMax)
  }

  /** What PWMSteering.on_message sends for a steering value: the straight
      angle for zero, nothing for None, otherwise the value mapped from
      [-1, 1] onto [full left, full right] and truncated by int(). */
  function SteeringCommand(channel: int, straightAngle: int, fullRightAngle: int, fullLeftAngle: int,
                           angle: Value): (r: Result<Option<Command>>)
    ensures EqualsZero(angle) ==> r == Ok(Some(SetAngle(channel, straightAngle)))
    ensures angle == VNone ==> r == Ok(None)
    ensures r.Err? <==>
      !EqualsZero(angle) && angle != VNone && (fullLeftAngle == fullRightAngle || Number(angle).None?)
    ensures r.Ok? && r.value.Some? && !EqualsZero(angle) ==>
      r.value.value == SetAngle(channel,
        Trunc(MapRange(Number(angle).value, MinSteering, MaxSteering, fullLeftAngle as real, fullRightAngle as real).value))
  {
    if EqualsZero(angle) then Ok(Some(SetAngle(channel, straightAngle)))
    else if angle == VNone then Ok(None)
    else match MapValue(angle, MinSteering, MaxSteering, fullLeftAngle as real, fullRightAngle as real)
      case Err(e) => Err(e)
      case Ok(y) => Ok(Some(SetAngle(channel, Trunc(y))))
  }

  /** What PWMThrottle.on_message sends for a throttle value: zero for zero,
      nothing for None, otherwise the value mapped from [-1, 1] onto
      [min throttle, max throttle]. */
  function ThrottleCommand(channel: int, minThrottle: real, maxThrottle: real, throttle: Value): (r: Result<Option<Command>>)
    ensures EqualsZero(throttle) ==> r == Ok(Some(SetThrottle(channel, 0.0)))
    ensures throttle == VNone ==> r == Ok(None)
    ensures r.Err? <==>
      !EqualsZero(throttle) && throttle != VNone && (minThrottle == maxThrottle || Number(throttle).None?)
    ensures r.Ok? && r.value.Some? && !EqualsZero(throttle) ==>
      r.value.value == SetThrottle(channel, MapRange(Number(throttle).value, -1.0, 1.0, minThrottle, maxThrottle).value)
  {
    if EqualsZero(throttle) then Ok(Some(SetThrottle(channel, 0.0)))
    else if throttle == VNone then Ok(None)
    else match MapValue(throttle, -1.0, 1.0, minThrottle, maxThrottle)
      case Err(e) => Err(e)
      case Ok(y) => Ok(Some(SetThrottle(channel, y)))
  }

  /** Full left (-1) turns the servo to the full-left angle. */
  lemma FullLeft(channel: int, straightAngle: int, fullRightAngle: int, fullLeftAngle: int)
    requires fullLeftAngle != fullRightAngle
    ensures SteeringCommand(channel, straightAngle, fullRightAngle, fullLeftAngle, VInt(-1))
         == Ok(Some(SetAngle(channel, fullLeftAngle)))
  {
    MapsMinToMin(MinSteering, MaxSteering, fullLeftAngle as real, fullRightAngle as real);
    TruncOfInteger(fullLeftAngle);
  }

  /** Full right (1) turns the servo to the full-right angle. */
  lemma FullRight(channel: int, straightAngle: int, fullRightAngle: int, fullLeftAngle: int)
    requires fullLeftAngle != fullRightAngle
    ensures SteeringCommand(channel, straightAngle, fullRightAngle, fullLeftAngle, VInt(1))
         == Ok(Some(SetAngle(channel, fullRightAngle)))
  {
    MapsMaxToMax(MinSteering, MaxSteering, fullLeftAngle as real, fullRightAngle as real);
    TruncOfInteger(fullRightAngle);
  }

  /** With the servo's right end below its left end (as with the defaults),
      every non-zero steering value in [-1, 1] gives an angle between the two
      ends. (0 gives the straight angle, which need not lie between them.) */
  lemma SteeringWithinServoRange(channel: int, straightAngle: int, fullRightAngle: int, fullLeftAngle: int, a: real)
    requires fullRightAngle < fullLeftAngle && -1.0 <= a <= 1.0 && a != 0.0
    ensures var r := SteeringCommand(channel, straightAngle, fullRightAngle, fullLeftAngle, VFloat(a));
      r.Ok? && r.value.Some? && r.value.value.SetAngle?
      && fullRightAngle <= r.value.value.angle <= fullLeftAngle
  {
    var left, right := fullLeftAngle as real, fullRightAngle as real;
    Decreasing(MinSteering, a, MinSteering, MaxSteering, left, right);
    Decreasing(a, MaxSteering, MinSteering, MaxSteering, left, right);
    MapsMinToMin(MinSteering, MaxSteering, left, right);
    MapsMaxToMax(MinSteering, MaxSteering, left, right);
    var y := MapRange(a, MinSteering, MaxSteering, left, right).value;
    assert right <= y <= left;
    TruncBetween(y, fullRightAngle, fullLeftAngle);
  }

  /** int() of a value between two integers stays between them. */
  lemma TruncBetween(y: real, lo: int, hi: int)
    requires lo as real <= y <= hi as real
    ensures lo <= Trunc(y) <= hi
  {
  }

  /** Full reverse (-1) gives the minimum throttle. */
  lemma FullReverse(channel: int, minThrottle: real, maxThrottle: real)
    requires minThrottle != maxThrottle
    ensures ThrottleCommand(channel, minThrottle, maxThrottle, VInt(-1)) == Ok(Some(SetThrottle(channel, minThrottle)))
  {
    MapsMinToMin(-1.0, 1.0, minThrottle, maxThrottle);
  }

  /** Full forward (1) gives the maximum throttle. */
  lemma FullForward(channel: int, minThrottle: real, maxThrottle: real)
    requires minThrottle != maxThrottle
    ensures ThrottleCommand(channel, minThrottle, maxThrottle, VInt(1)) == Ok(Some(SetThrottle(channel, maxThrottle)))
  {
    MapsMaxToMax(-1.0, 1.0, minThrottle, maxThrottle);
  }

  /** With min throttle below max throttle, every non-zero value in [-1, 1]
      gives a throttle between the two. (0 gives throttle 0, which lies
      outside them when the minimum is above 0.) */
  lemma ThrottleWithinRange(channel: int, minThrottle: real, maxThrottle: real, t: real)
    requires minThrottle < maxThrottle && -1.0 <= t <= 1.0 && t != 0.0
    ensures var r := ThrottleCommand(channel, minThrottle, maxThrottle, VFloat(t));
      r.Ok? && r.value.Some? && r.value.value.SetThrottle?
      && minThrottle <= r.value.value.throttle <= maxThrottle
  {
    Increasing(-1.0, t, -1.0, 1.0, minThrottle, maxThrottle);
    Increasing(t, 1.0, -1.0, 1.0, minThrottle, maxThrottle);
    MapsMinToMin(-1.0, 1.0, minThrottle, maxThrottle);
    MapsMaxToMax(-1.0, 1.0, minThrottle, maxThrottle);
  }

  /** The driver's log after a command decision: one command more, or none. */
  function After(commands: seq<Command>, decision: Option<Command>): seq<Command>
  {
    match decision
    case None => commands
    case Some(c) => commands + [c]
  }

  class PwmSteering {
    const channel: int
    const straightAngle: int
    const fullRightAngle: int
    const fullLeftAngle: int
    /** The current angle; set to straight at construction and not updated
        by on_message. */
    var angle: int

    constructor(channel: int, straightAngle: int, fullRightAngle: int, fullLeftAngle: int)
      ensures this.channel == channel && this.straightAngle == straightAngle
      ensures this.fullRightAngle == fullRightAngle && this.fullLeftAngle == fullLeftAngle
      ensures angle == straightAngle
    {
      this.channel := channel;
      this.straightAngle := straightAngle;
      this.fullRightAngle := fullRightAngle;
      this.fullLeftAngle := fullLeftAngle;
      angle := straightAngle;
    }

    /** start() returns None, so no run() is scheduled. */
    method Start() returns (r: Value)
      ensures !Truthy(r)
    {
      r := VNone;
    }

    /** on_message: at most one set_angle on the board; an exception from
        map_range leaves the board untouched. */
    method OnMessage(driver: Pca9685, ch: Value, value: Value) returns (err: Option<Exc>)
      modifies driver
      ensures match SteeringCommand(channel, straightAngle, fullRightAngle, fullLeftAngle, value)
        case Err(e) => err == Some(e) && driver.commands == old(driver.commands)
        case Ok(decision) => err.None? && driver.commands == After(old(driver.commands), decision)
    {
      var decision := SteeringCommand(channel, straightAngle, fullRightAngle, fullLeftAngle, value);
      if decision.Err? {
        return Some(decision.error);
      }
      if decision.value.Some? {
        driver.commands := driver.commands + [decision.value.value];
      }
      err := None;
    }
  }

  class PwmThrottle {
    const channel: int
    const minThrottle: real
    const maxThrottle: real
    /** The current throttle; zero at construction and not updated by on_message. */
    var throttle: real

    constructor(channel: int, minThrottle: real, maxThrottle: real)
      ensures this.channel == channel && this.minThrottle == minThrottle && this.maxThrottle == maxThrottle
      ensures throttle == 0.0
    {
      this.channel := channel;
      this.minThrottle := minThrottle;
      this.maxThrottle := maxThrottle;
      throttle := 0.0;
    }

    /** start() returns None, so no run() is scheduled. */
    method Start() returns (r: Value)
      ensures !Truthy(r)
    {
      r := VNone;
    }

    /** on_message: at most one set_throttle on the board; an exception from
        map_range leaves the board untouched. */
    method OnMessage(driver: Pca9685, ch: Value, value: Value) returns (err: Option<Exc>)
      modifies driver
      ensures match ThrottleCommand(channel, minThrottle, maxThrottle, value)
        case Err(e) => err == Some(e) && driver.commands == old(driver.commands)
        case Ok(decision) => err.None? && driver.commands == After(old(driver.commands), decision)
    {
      var decision := ThrottleCommand(channel, minThrottle, maxThrottle, value);
      if decision.Err? {
        return Some(decision.error);
      }
      if decision.value.Some? {
        driver.commands := driver.commands + [decision.value.value];
      }
      err := None;
    }
  }
}
