/** The joystick controller (src/components/joystick.py): it reads Linux
    joystick events (`struct js_event` of linux/joystick.h), keeps the state
    of every named axis and button, turns stick moves into steering and
    throttle and button presses into record, autonomous and throttle-scale
    changes, and publishes the five outputs after every event. The device
    file, its ioctl calls and the stop event are parameters of the model. */
module Joystick {
  import opened Py
  import opened Components
  import Utf8

  type byte = Utf8.byte

  const SteeringAxis: string := "left_stick_horz"
  const ThrottleAxis: string := "right_stick_vert"
  const AutonomousButton: string := "Y"
  const RecordButton: string := "B"
  const IncreaseButton: string := "R1"
  const DecreaseButton: string := "L1"

  /** As the supervisor sees it, start() returns True (a device name that is
      not UTF-8 makes it raise, which only JoystickController.Start models)
      and shutdown() passes; on_message is the base one, which raises TypeError. */
  const JoystickBehaviour: Behaviour := Behaviour(Returns(true), None, Some(TypeError))

  // ---------------------------------------------------------------- js_event

  /** One joystick event: timestamp in ms, signed value, event type and the
      number of the axis or button. */
  datatype JsEvent = JsEvent(time: int, value: int, typ: int, number: int)

  /** The field widths of `struct js_event`: u32, s16, u8, u8. */
  predicate WellFormed(e: JsEvent)
  {
    0 <= e.time < 0x1_0000_0000 && -0x8000 <= e.value < 0x8000 && 0 <= e.typ < 0x100 && 0 <= e.number < 0x100
  }

  /** `struct.unpack('IhBB', buf)` in the little-endian byte order of the
      car's boards; struct.error unless the buffer holds exactly 8 bytes. */
  function Unpack(buf: seq<byte>): (r: Result<JsEvent>)
    ensures r.Err? <==> |buf| != 8
    ensures r.Err? ==> r.error == StructError
    ensures r.Ok? ==> WellFormed(r.value)
  {
    if |buf| != 8 then Err(StructError)
    else
      var b: seq<int> := buf;
      var raw := b[4] + 0x100 * b[5];
      Ok(JsEvent(b[0] + 0x100 * b[1] + 0x1_0000 * b[2] + 0x100_0000 * b[3],
                 if raw >= 0x8000 then raw - 0x1_0000 else raw,
                 b[6], b[7]))
  }

  /** The 8 bytes the kernel writes for an event: the layout Unpack reads. */
  function Pack(e: JsEvent): (r: seq<byte>)
    requires WellFormed(e)
    ensures |r| == 8
  {
    var t := e.time;
    var raw := if e.value < 0 then e.value + 0x1_0000 else e.value;
    [t % 0x100, t / 0x100 % 0x100, t / 0x1_0000 % 0x100, t / 0x100_0000,
     raw % 0x100, raw / 0x100, e.typ, e.number]
  }

  /** Every event the kernel writes is read back unchanged. */
  lemma UnpackPack(e: JsEvent)
    requires WellFormed(e)
    ensures Unpack(Pack(e)) == Ok(e)
  {
    var b: seq<int> := Pack(e);
    var t := e.time;
    assert b[0] + 0x100 * b[1] + 0x1_0000 * b[2] + 0x100_0000 * b[3] == t by {
      SplitBase(t, 0x100);
      SplitBase(t / 0x100, 0x100);
      SplitBase(t / 0x1_0000, 0x100);
      assert t / 0x100 / 0x100 == t / 0x1_0000;
      assert t / 0x1_0000 / 0x100 == t / 0x100_0000;
    }
    var raw := if e.value < 0 then e.value + 0x1_0000 else e.value;
    SplitBase(raw, 0x100);
    assert b[4] + 0x100 * b[5] == raw;
  }

  /** Every 8-byte buffer is the kernel's layout of the event it decodes to. */
  lemma PackUnpack(buf: seq<byte>)
    requires |buf| == 8
    ensures Unpack(buf).Ok? && Pack(Unpack(buf).value) == buf
  {
    var e := Unpack(buf).value;
    var b := Pack(e);
    var t := e.time;
    var w: seq<int> := buf;
    assert t == w[0] + 0x100 * w[1] + 0x1_0000 * (w[2] + 0x100 * w[3]);
    assert t % 0x100 == buf[0] && t / 0x100 % 0x100 == buf[1] by {
      DigitsOf(t, w[0], w[1] + 0x100 * (w[2] + 0x100 * w[3]));
      DigitsOf(t / 0x100, w[1], w[2] + 0x100 * w[3]);
    }
    assert t / 0x1_0000 % 0x100 == buf[2] && t / 0x100_0000 == buf[3] by {
      DigitsOf(t, w[0], w[1] + 0x100 * (w[2] + 0x100 * w[3]));
      DigitsOf(t / 0x100, w[1], w[2] + 0x100 * w[3]);
      DigitsOf(t / 0x1_0000, w[2], w[3]);
      assert t / 0x100 / 0x100 == t / 0x1_0000;
      assert t / 0x1_0000 / 0x100 == t / 0x100_0000;
    }
    DigitsOf(w[4] + 0x100 * w[5], w[4], w[5]);
    assert b == buf;
  }

  lemma SplitBase(n: int, base: int)
    requires n >= 0 && base > 0
    ensures n == n % base + base * (n / base)
  {
  }

  /** The lowest base-256 digit of `d + 256 * q` is d, and the rest is q. */
  lemma DigitsOf(n: int, d: int, q: int)
    requires 0 <= d < 0x100 && q >= 0 && n == d + 0x100 * q
    ensures n % 0x100 == d && n / 0x100 == q
  {
  }

  /** `typ & mask != 0`. */
  predicate HasBit(typ: int, mask: bv8)
    requires 0 <= typ < 0x100
  {
    (typ as bv8) & mask != 0
  }

  const InitBit: bv8 := 0x80
  const ButtonBit: bv8 := 0x01
  const AxisBit: bv8 := 0x02

  /** An axis position as a fraction of full deflection. */
  function AxisValue(value: int): real
  {
    (value as real) / 32767.0
  }

  /** Over the whole range of a signed 16-bit event value the position lies
      in [-32768/32767, 1]: full deflection reads as 1 or -1, every value
      from -32767 up lies in [-1, 1], and the lowest value, -32768, reads
      slightly below -1. */
  lemma AxisValueRange(value: int)
    requires -32768 <= value <= 32767
    ensures -32768.0 / 32767.0 <= AxisValue(value) <= 1.0
    ensures -32767 <= value ==> -1.0 <= AxisValue(value)
    ensures value == -32768 ==> AxisValue(value) < -1.0
    ensures value == 32767 ==> AxisValue(value) == 1.0
    ensures value == -32767 ==> AxisValue(value) == -1.0
  {
  }

  // ---------------------------------------------------------------- one poll

  /** What _poll_joystick returns: the button and its new state, the axis and
      its new value; None where the event said nothing. */
  datatype Poll = Poll(button: Option<string>, buttonState: Option<int>, axis: Option<string>, axisVal: Option<real>)

  const NoInput: Poll := Poll(None, None, None, None)

  /** _poll_joystick for the bytes of one read, and the exception that ended
      it, if any. An empty read and an initialisation event (type bit 0x80)
      report nothing; a button event (bit 0x01) reports the button's name
      and state, an axis event (bit 0x02) the axis's name and value; a name
      that is empty is reported without a state. A number beyond the map
      raises IndexError after what was already reported. */
  function PollEvent(buf: seq<byte>, buttonMap: seq<string>, axisMap: seq<string>): (r: (Poll, Option<Exc>))
  {
    if buf == [] then (NoInput, None)
    else match Unpack(buf)
      case Err(e) => (NoInput, Some(e))
      case Ok(ev) =>
        if HasBit(ev.typ, InitBit) then (NoInput, None)
        else
          var b :=
            if !HasBit(ev.typ, ButtonBit) then Ok(NoInput)
            else if ev.number >= |buttonMap| then Err(IndexError)
            else
              var name := buttonMap[ev.number];
              Ok(NoInput.(button := Some(name), buttonState := if name != "" then Some(ev.value) else None));
          if b.Err? then (NoInput, Some(b.error))
          else if !HasBit(ev.typ, AxisBit) then (b.value, None)
          else if ev.number >= |axisMap| then (b.value, Some(IndexError))
          else
            var name := axisMap[ev.number];
            (b.value.(axis := Some(name), axisVal := if name != "" then Some(AxisValue(ev.value)) else None), None)
  }

  /** An initialisation event reports no button and no axis. */
  lemma InitEventIgnored(e: JsEvent, buttonMap: seq<string>, axisMap: seq<string>)
    requires WellFormed(e) && HasBit(e.typ, InitBit)
    ensures PollEvent(Pack(e), buttonMap, axisMap) == (NoInput, None)
  {
    UnpackPack(e);
  }

  /** A button event on a named button reports that button with the event's
      value as its state. */
  lemma ButtonEvent(e: JsEvent, buttonMap: seq<string>, axisMap: seq<string>)
    requires WellFormed(e) && !HasBit(e.typ, InitBit) && HasBit(e.typ, ButtonBit)
    requires e.number < |buttonMap| && buttonMap[e.number] != ""
    ensures var r := PollEvent(Pack(e), buttonMap, axisMap);
      r.0.button == Some(buttonMap[e.number]) && r.0.buttonState == Some(e.value)
  {
    UnpackPack(e);
  }

  /** An axis event on a named axis reports that axis with the event's value
      divided by 32767. */
  lemma AxisEvent(e: JsEvent, buttonMap: seq<string>, axisMap: seq<string>)
    requires WellFormed(e) && !HasBit(e.typ, InitBit) && !HasBit(e.typ, ButtonBit) && HasBit(e.typ, AxisBit)
    requires e.number < |axisMap| && axisMap[e.number] != ""
    ensures PollEvent(Pack(e), buttonMap, axisMap)
         == (Poll(None, None, Some(axisMap[e.number]), Some((e.value as real) / 32767.0)), None)
  {
    UnpackPack(e);
  }

  /** A read that is neither empty nor 8 bytes long raises struct.error. */
  lemma ShortReadFails(buf: seq<byte>, buttonMap: seq<string>, axisMap: seq<string>)
    requires buf != [] && |buf| != 8
    ensures PollEvent(buf, buttonMap, axisMap) == (NoInput, Some(StructError))
  {
  }

  // ---------------------------------------------------------------- triggers

  /** The outputs the controller publishes, plus the throttle scale. */
  datatype Controls = Controls(steering: real, throttle: real, autonomous: bool, record: bool, scale: real)

  const InitialControls: Controls := Controls(0.0, 0.0, false, false, 1.0)

  /** The handlers of the button-down trigger map; the up map holds only None. */
  datatype Action = NoAction | FlipRecord | FlipAutonomous | RaiseScale | LowerScale

  function DownTrigger(button: string): Action
  {
    if button == RecordButton then FlipRecord
    else if button == AutonomousButton then FlipAutonomous
    else if button == IncreaseButton then RaiseScale
    else if button == DecreaseButton then LowerScale
    else NoAction
  }

  function Apply(c: Controls, a: Action): Controls
  {
    match a
    case NoAction => c
    case FlipRecord => c.(record := !c.record)
    case FlipAutonomous => c.(autonomous := !c.autonomous)
    case RaiseScale => c.(scale := Round2(Min(1.0, c.scale + 0.01)))
    case LowerScale => c.(scale := Round2(Max(0.0, c.scale - 0.01)))
  }

  /** The axis trigger map: the steering stick sets steering, the throttle
      stick sets throttle reversed and scaled. */
  function Move(c: Controls, axis: string, v: real): Controls
  {
    if axis == SteeringAxis then c.(steering := v)
    else if axis == ThrottleAxis then c.(throttle := -1.0 * v * c.scale)
    else c
  }

  /** The trigger part of one run() iteration: the axis handler first, then
      the button-down handler for a state of 1 or more; a release (state 0)
      finds only None in the up map. Before start() the maps are empty. */
  function Handle(c: Controls, p: Poll, ready: bool): Controls
  {
    if !ready then c
    else
      var c1 := if p.axis.Some? && p.axisVal.Some? then Move(c, p.axis.value, p.axisVal.value) else c;
      if p.button.Some? && p.button.value != "" && p.buttonState.Some? && p.buttonState.value >= 1
      then Apply(c1, DownTrigger(p.button.value))
      else c1
  }

  /** A press of a button: B flips record, Y flips autonomous, R1 and L1 change
      only the scale, and no button touches steering or throttle. */
  lemma PressEffects(c: Controls, name: string, state: int)
    requires name != "" && state >= 1
    ensures var r := Handle(c, Poll(Some(name), Some(state), None, None), true);
      r.steering == c.steering && r.throttle == c.throttle
      && r.record == (c.record != (name == RecordButton))
      && r.autonomous == (c.autonomous != (name == AutonomousButton))
      && (name != IncreaseButton && name != DecreaseButton ==> r.scale == c.scale)
  {
  }

  /** A release changes nothing but what the axis part of the event does. */
  lemma ReleaseIgnored(c: Controls, p: Poll, ready: bool)
    requires p.buttonState == Some(0)
    ensures Handle(c, p, ready) == Handle(c, p.(button := None, buttonState := None), ready)
  {
  }

  /** Moving the sticks: steering follows the steering stick, throttle is the
      throttle stick reversed and multiplied by the scale. */
  lemma StickEffects(c: Controls, axis: string, v: real)
    ensures var r := Handle(c, Poll(None, None, Some(axis), Some(v)), true);
      (axis == SteeringAxis ==> r == c.(steering := v))
      && (axis == ThrottleAxis ==> r == c.(throttle := -(v * c.scale)))
      && (axis != SteeringAxis && axis != ThrottleAxis ==> r == c)
  {
  }

  lemma RoundHalfEvenMono(x: real, y: real)
    requires x <= y
    ensures RoundHalfEven(x) <= RoundHalfEven(y)
  {
  }

  lemma Round2Mono(x: real, y: real)
    requires x <= y
    ensures Round2(x) <= Round2(y)
  {
    RoundHalfEvenMono(x * 100.0, y * 100.0);
  }

  /** round() keeps a value between 0 and 1 between 0 and 1. */
  lemma Round2Unit(x: real)
    requires 0.0 <= x <= 1.0
    ensures 0.0 <= Round2(x) <= 1.0
  {
    Round2Mono(0.0, x);
    Round2Mono(x, 1.0);
    Round2OfHundredths(0);
    Round2OfHundredths(100);
  }

  /** The throttle scale never leaves [0, 1]. */
  lemma ScaleStaysInRange(c: Controls, p: Poll, ready: bool)
    requires 0.0 <= c.scale <= 1.0
    ensures 0.0 <= Handle(c, p, ready).scale <= 1.0
  {
    Round2Unit(Min(1.0, c.scale + 0.01));
    Round2Unit(Max(0.0, c.scale - 0.01));
  }

  /** On a scale of k hundredths, R1 moves one hundredth up to at most 1 and
      L1 one hundredth down to at least 0. */
  lemma ScaleSteps(c: Controls, k: int)
    requires 0 <= k <= 100 && c.scale == (k as real) / 100.0
    ensures Apply(c, RaiseScale).scale == (if k < 100 then k + 1 else 100) as real / 100.0
    ensures Apply(c, LowerScale).scale == (if k > 0 then k - 1 else 0) as real / 100.0
  {
    assert c.scale + 0.01 == ((k + 1) as real) / 100.0;
    assert c.scale - 0.01 == ((k - 1) as real) / 100.0;
    Round2OfHundredths(if k < 100 then k + 1 else 100);
    Round2OfHundredths(if k > 0 then k - 1 else 0);
  }

  /** What run() publishes, in order: steering, throttle, autonomous, record
      and the throttle scale. */
  function Published(c: Controls): (r: seq<Value>)
    ensures |r| == 5
    ensures r[0] == VFloat(c.steering) && r[1] == VFloat(c.throttle) && r[2] == VBool(c.autonomous)
    ensures r[3] == VBool(c.record) && r[4] == VFloat(c.scale)
  {
    [VFloat(c.steering), VFloat(c.throttle), VBool(c.autonomous), VBool(c.record), VFloat(c.scale)]
  }

  /** The controls after a run of inputs none of which raised. */
  function Replay(c: Controls, inputs: seq<seq<byte>>, buttonMap: seq<string>, axisMap: seq<string>, ready: bool): Controls
    decreases |inputs|
  {
    if inputs == [] then c
    else Handle(Replay(c, inputs[..|inputs| - 1], buttonMap, axisMap, ready),
                PollEvent(inputs[|inputs| - 1], buttonMap, axisMap).0, ready)
  }

  /** However many events arrive, the throttle scale stays in [0, 1]. */
  lemma {:induction false} ReplayKeepsScale(c: Controls, inputs: seq<seq<byte>>, buttonMap: seq<string>, axisMap: seq<string>, ready: bool)
    requires 0.0 <= c.scale <= 1.0
    ensures 0.0 <= Replay(c, inputs, buttonMap, axisMap, ready).scale <= 1.0
    decreases |inputs|
  {
    if inputs != [] {
      ReplayKeepsScale(c, inputs[..|inputs| - 1], buttonMap, axisMap, ready);
      ScaleStaysInRange(Replay(c, inputs[..|inputs| - 1], buttonMap, axisMap, ready),
                        PollEvent(inputs[|inputs| - 1], buttonMap, axisMap).0, ready);
    }
  }

  /** The stored button states after a poll: the state of the button it
      reported, when it reported one. */
  function StoreButton(states: map<string, int>, p: Poll): map<string, int>
  {
    if p.button.Some? && p.buttonState.Some? then states[p.button.value := p.buttonState.value] else states
  }

  /** The stored axis states after a poll: the value of the axis it
      reported, when it reported one. */
  function StoreAxis(states: map<string, real>, p: Poll): map<string, real>
  {
    if p.axis.Some? && p.axisVal.Some? then states[p.axis.value := p.axisVal.value] else states
  }

  /** The stored button and axis states after polling each of the reads in
      turn. A poll stores what it reported even when it then raised. */
  function StatesAfter(buttons: map<string, int>, axes: map<string, real>, inputs: seq<seq<byte>>,
                       buttonMap: seq<string>, axisMap: seq<string>): (map<string, int>, map<string, real>)
    decreases |inputs|
  {
    if inputs == [] then (buttons, axes)
    else
      var prev := StatesAfter(buttons, axes, inputs[..|inputs| - 1], buttonMap, axisMap);
      var p := PollEvent(inputs[|inputs| - 1], buttonMap, axisMap).0;
      (StoreButton(prev.0, p), StoreAxis(prev.1, p))
  }

  /** Polling one read more stores what that read reports. */
  lemma StatesAfterStep(buttons: map<string, int>, axes: map<string, real>, inputs: seq<seq<byte>>, i: nat,
                        buttonMap: seq<string>, axisMap: seq<string>)
    requires i < |inputs|
    ensures var prev := StatesAfter(buttons, axes, inputs[..i], buttonMap, axisMap);
      var p := PollEvent(inputs[i], buttonMap, axisMap).0;
      StatesAfter(buttons, axes, inputs[..i + 1], buttonMap, axisMap) == (StoreButton(prev.0, p), StoreAxis(prev.1, p))
  {
    PrefixOfPrefix(inputs, i + 1, i);
    assert inputs[..i + 1][i] == inputs[i];
  }

  /** One iteration of run() from controls c: the publish calls it makes, the
      controls after it and the exception that ends it. A failed read raises
      before the triggers; otherwise the controls follow Handle and the five
      outputs are published, which raises ValueError without a bus. */
  function Iteration(c: Controls, buf: seq<byte>, buttonMap: seq<string>, axisMap: seq<string>, ready: bool,
                     bus: Component?, publication: seq<Value>): (r: (seq<PublishCall>, Controls, Option<Exc>))
  {
    var (p, e) := PollEvent(buf, buttonMap, axisMap);
    if e.Some? then ([], c, e)
    else
      var c1 := Handle(c, p, ready);
      if bus == null then ([], c1, Some(ValueError))
      else
        var published := Publishes(bus.kind, publication, Published(c1));
        (published.0, c1, published.1)
  }

  /** A failed read changes nothing and publishes nothing; otherwise the
      controls follow Handle, and an iteration that completes had a bus,
      accepted every channel and published the new controls on every
      publication channel (of which there are at most five). */
  lemma IterationOutcome(c: Controls, buf: seq<byte>, buttonMap: seq<string>, axisMap: seq<string>, ready: bool,
                         bus: Component?, publication: seq<Value>)
    ensures var r := Iteration(c, buf, buttonMap, axisMap, ready, bus, publication);
      PollEvent(buf, buttonMap, axisMap).1.Some? ==> r == ([], c, PollEvent(buf, buttonMap, axisMap).1)
    ensures var r := Iteration(c, buf, buttonMap, axisMap, ready, bus, publication);
      PollEvent(buf, buttonMap, axisMap).1.None? ==> r.1 == Handle(c, PollEvent(buf, buttonMap, axisMap).0, ready)
    ensures var r := Iteration(c, buf, buttonMap, axisMap, ready, bus, publication);
      r.2.None? ==>
        bus != null && PollEvent(buf, buttonMap, axisMap).1.None?
        && r.0 == Zip(publication, Published(r.1)) && |publication| <= 5
  {
    var (p, e) := PollEvent(buf, buttonMap, axisMap);
    if e.None? && bus != null {
      PublishesZip(bus.kind, publication, Published(Handle(c, p, ready)));
    }
  }

  /** run() over a sequence of reads (the stop event is set once they run
      out): the publish calls of each iteration begun, the controls at the
      end, and the exception that ended the thread, if any. */
  function RunTrace(c: Controls, inputs: seq<seq<byte>>, buttonMap: seq<string>, axisMap: seq<string>, ready: bool,
                    bus: Component?, publication: seq<Value>): (r: (seq<seq<PublishCall>>, Controls, Option<Exc>))
    ensures |r.0| <= |inputs| && (r.2.None? ==> |r.0| == |inputs|) && (r.2.Some? ==> |r.0| >= 1)
    decreases |inputs|
  {
    if inputs == [] then ([], c, None)
    else
      var prev := RunTrace(c, inputs[..|inputs| - 1], buttonMap, axisMap, ready, bus, publication);
      if prev.2.Some? then prev
      else
        var it := Iteration(prev.1, inputs[|inputs| - 1], buttonMap, axisMap, ready, bus, publication);
        (prev.0 + [it.0], it.1, it.2)
  }

  /** A run ends at its first failing iteration: the trace of a longer run is
      that of any prefix that already failed. */
  lemma {:induction false} RunTraceStops(c: Controls, inputs: seq<seq<byte>>, k: nat, buttonMap: seq<string>, axisMap: seq<string>,
                                         ready: bool, bus: Component?, publication: seq<Value>)
    requires k <= |inputs| && RunTrace(c, inputs[..k], buttonMap, axisMap, ready, bus, publication).2.Some?
    ensures RunTrace(c, inputs, buttonMap, axisMap, ready, bus, publication)
         == RunTrace(c, inputs[..k], buttonMap, axisMap, ready, bus, publication)
    decreases |inputs|
  {
    if k < |inputs| {
      var front := inputs[..|inputs| - 1];
      assert front[..k] == inputs[..k];
      RunTraceStops(c, front, k, buttonMap, axisMap, ready, bus, publication);
    } else {
      assert inputs[..k] == inputs;
    }
  }

  /** A run that nothing ended ends at the controls Replay gives. */
  lemma {:induction false} RunTraceCompletes(c: Controls, inputs: seq<seq<byte>>, buttonMap: seq<string>, axisMap: seq<string>,
                                             ready: bool, bus: Component?, publication: seq<Value>)
    ensures var r := RunTrace(c, inputs, buttonMap, axisMap, ready, bus, publication);
      r.2.None? ==> r.1 == Replay(c, inputs, buttonMap, axisMap, ready)
    decreases |inputs|
  {
    if inputs != [] {
      var n := |inputs| - 1;
      RunTraceCompletes(c, inputs[..n], buttonMap, axisMap, ready, bus, publication);
    }
  }

  /** What run() publishes, iteration by iteration: every iteration before the
      last one that was begun (and the last one too when nothing raised)
      completes, from the controls Replay gives for the reads before it, and
      ends at the controls Replay gives for the reads up to it. */
  lemma RunTraceSteps(c: Controls, inputs: seq<seq<byte>>, buttonMap: seq<string>, axisMap: seq<string>,
                      ready: bool, bus: Component?, publication: seq<Value>)
    ensures var r := RunTrace(c, inputs, buttonMap, axisMap, ready, bus, publication);
      forall k :: 0 <= k < |r.0| && (k < |r.0| - 1 || r.2.None?) ==>
        Iteration(Replay(c, inputs[..k], buttonMap, axisMap, ready), inputs[k], buttonMap, axisMap, ready, bus, publication)
        == (r.0[k], Replay(c, inputs[..k + 1], buttonMap, axisMap, ready), None)
  {
    var r := RunTrace(c, inputs, buttonMap, axisMap, ready, bus, publication);
    forall k | 0 <= k < |r.0| && (k < |r.0| - 1 || r.2.None?)
      ensures Iteration(Replay(c, inputs[..k], buttonMap, axisMap, ready), inputs[k], buttonMap, axisMap, ready, bus, publication)
           == (r.0[k], Replay(c, inputs[..k + 1], buttonMap, axisMap, ready), None)
    {
      RunTraceStep(c, inputs, k, buttonMap, axisMap, ready, bus, publication);
    }
  }

  /** The k-th iteration of a run, when it completed. */
  lemma {:induction false} RunTraceStep(c: Controls, inputs: seq<seq<byte>>, k: nat, buttonMap: seq<string>, axisMap: seq<string>,
                                        ready: bool, bus: Component?, publication: seq<Value>)
    requires var r := RunTrace(c, inputs, buttonMap, axisMap, ready, bus, publication);
      k < |r.0| && (k < |r.0| - 1 || r.2.None?)
    ensures var r := RunTrace(c, inputs, buttonMap, axisMap, ready, bus, publication);
      Iteration(Replay(c, inputs[..k], buttonMap, axisMap, ready), inputs[k], buttonMap, axisMap, ready, bus, publication)
      == (r.0[k], Replay(c, inputs[..k + 1], buttonMap, axisMap, ready), None)
    decreases |inputs|
  {
    var n := |inputs| - 1;
    var front := inputs[..n];
    var prev := RunTrace(c, front, buttonMap, axisMap, ready, bus, publication);
    var r := RunTrace(c, inputs, buttonMap, axisMap, ready, bus, publication);
    if k < n && k < |prev.0| && (k < |prev.0| - 1 || prev.2.None?) {
      RunTraceStep(c, front, k, buttonMap, axisMap, ready, bus, publication);
      PrefixOfPrefix(inputs, n, k);
      PrefixOfPrefix(inputs, n, k + 1);
      assert r.0[k] == prev.0[k];
    } else {
      RunTraceCompletes(c, front, buttonMap, axisMap, ready, bus, publication);
      assert k == n && prev.2.None?;
      assert inputs[..k + 1] == inputs;
    }
  }

  /** The iteration that ended a run is the last one begun: it starts from the
      controls Replay gives for the reads before it, and its calls, controls
      and exception are the run's last entry, final controls and exception. */
  lemma {:induction false} RunTraceFails(c: Controls, inputs: seq<seq<byte>>, buttonMap: seq<string>, axisMap: seq<string>,
                                         ready: bool, bus: Component?, publication: seq<Value>)
    ensures var r := RunTrace(c, inputs, buttonMap, axisMap, ready, bus, publication);
      r.2.Some? ==>
        |r.0| >= 1
        && Iteration(Replay(c, inputs[..|r.0| - 1], buttonMap, axisMap, ready), inputs[|r.0| - 1],
                     buttonMap, axisMap, ready, bus, publication) == (r.0[|r.0| - 1], r.1, r.2)
    decreases |inputs|, 1
  {
    if inputs != [] {
      var front := inputs[..|inputs| - 1];
      if RunTrace(c, front, buttonMap, axisMap, ready, bus, publication).2.Some? {
        RunTraceFailsEarlier(c, inputs, buttonMap, axisMap, ready, bus, publication);
      } else {
        RunTraceFailsLast(c, inputs, buttonMap, axisMap, ready, bus, publication);
      }
    }
  }

  /** RunTraceFails when the reads before the last one already ended the run. */
  lemma {:induction false} RunTraceFailsEarlier(c: Controls, inputs: seq<seq<byte>>, buttonMap: seq<string>, axisMap: seq<string>,
                                                ready: bool, bus: Component?, publication: seq<Value>)
    requires inputs != [] && RunTrace(c, inputs[..|inputs| - 1], buttonMap, axisMap, ready, bus, publication).2.Some?
    ensures var r := RunTrace(c, inputs, buttonMap, axisMap, ready, bus, publication);
      r.2.Some? ==>
        |r.0| >= 1
        && Iteration(Replay(c, inputs[..|r.0| - 1], buttonMap, axisMap, ready), inputs[|r.0| - 1],
                     buttonMap, axisMap, ready, bus, publication) == (r.0[|r.0| - 1], r.1, r.2)
    decreases |inputs|, 0
  {
    var n := |inputs| - 1;
    var front := inputs[..n];
    var prev := RunTrace(c, front, buttonMap, axisMap, ready, bus, publication);
    RunTraceFails(c, front, buttonMap, axisMap, ready, bus, publication);
    assert RunTrace(c, inputs, buttonMap, axisMap, ready, bus, publication) == prev;
    var m := |prev.0| - 1;
    PrefixOfPrefix(inputs, n, m);
    assert front[m] == inputs[m];
  }

  /** RunTraceFails when the last read's iteration is the one that ran last. */
  lemma RunTraceFailsLast(c: Controls, inputs: seq<seq<byte>>, buttonMap: seq<string>, axisMap: seq<string>,
                          ready: bool, bus: Component?, publication: seq<Value>)
    requires inputs != [] && RunTrace(c, inputs[..|inputs| - 1], buttonMap, axisMap, ready, bus, publication).2.None?
    ensures var r := RunTrace(c, inputs, buttonMap, axisMap, ready, bus, publication);
      r.2.Some? ==>
        |r.0| >= 1
        && Iteration(Replay(c, inputs[..|r.0| - 1], buttonMap, axisMap, ready), inputs[|r.0| - 1],
                     buttonMap, axisMap, ready, bus, publication) == (r.0[|r.0| - 1], r.1, r.2)
  {
    var n := |inputs| - 1;
    var front := inputs[..n];
    var prev := RunTrace(c, front, buttonMap, axisMap, ready, bus, publication);
    RunTraceCompletes(c, front, buttonMap, axisMap, ready, bus, publication);
    var it := Iteration(prev.1, inputs[n], buttonMap, axisMap, ready, bus, publication);
    var r := RunTrace(c, inputs, buttonMap, axisMap, ready, bus, publication);
    assert r == (prev.0 + [it.0], it.1, it.2);
    assert |r.0| - 1 == n && r.0[n] == it.0;
  }

  /** A prefix of a prefix is a prefix. */
  lemma PrefixOfPrefix(s: seq<seq<byte>>, n: nat, k: nat)
    requires k <= n <= |s|
    ensures s[..n][..k] == s[..k]
  {
  }

  // ---------------------------------------------------------------- key maps

  /** Whether a name is a key of an `axis_keys`/`button_keys` mapping. */
  predicate Defines(keys: seq<(string, int)>, name: string)
  {
    exists i :: 0 <= i < |keys| && keys[i].0 == name
  }

  /** The constructor's checks: both sticks must be configured and the
      device file must exist, otherwise ValueError. */
  function ConfigError(axisKeys: seq<(string, int)>, deviceExists: bool): (r: Option<Exc>)
    ensures r.Some? ==> r == Some(ValueError)
    ensures r.None? <==> Defines(axisKeys, SteeringAxis) && Defines(axisKeys, ThrottleAxis) && deviceExists
  {
    if !Defines(axisKeys, SteeringAxis) || !Defines(axisKeys, ThrottleAxis) || !deviceExists then Some(ValueError)
    else None
  }

  /** `{keys[k]: k for k in keys}`: from code to readable name; when two names
      share a code, the later one wins. */
  function Names(keys: seq<(string, int)>): (m: map<int, string>)
    decreases |keys|
  {
    if keys == [] then map[] else Names(keys[..|keys| - 1])[keys[|keys| - 1].1 := keys[|keys| - 1].0]
  }

  /** A code is named exactly when some key maps to it, and its name is the
      last key that does. */
  lemma {:induction false} NamesLookup(keys: seq<(string, int)>, code: int)
    ensures code in Names(keys) <==> exists i :: 0 <= i < |keys| && keys[i].1 == code
    ensures forall i :: (0 <= i < |keys| && keys[i].1 == code && (forall j :: i < j < |keys| ==> keys[j].1 != code)
                         ==> code in Names(keys) && Names(keys)[code] == keys[i].0)
    decreases |keys|
  {
    if keys != [] {
      var init := keys[..|keys| - 1];
      NamesLookup(init, code);
      assert forall i :: 0 <= i < |init| ==> init[i] == keys[i];
      if code != keys[|keys| - 1].1 && exists i :: 0 <= i < |keys| && keys[i].1 == code {
        var i :| 0 <= i < |keys| && keys[i].1 == code;
        assert init[i].1 == code;
      }
    }
  }

  /** `names.get(code, 'unknown(0x%0{width}x)' % code)`. */
  function NameOf(names: map<int, string>, code: nat, width: nat): string
  {
    if code in names then names[code] else "unknown(0x" + Hex(code, width) + ")"
  }

  /** The names the map-building loop appends, one per code, in order. */
  function NamesOf(names: map<int, string>, codes: seq<nat>, width: nat): (r: seq<string>)
    ensures |r| == |codes|
    decreases |codes|
  {
    if codes == [] then [] else NamesOf(names, codes[..|codes| - 1], width) + [NameOf(names, codes[|codes| - 1], width)]
  }

  /** The i-th name is the name of the i-th code: its configured name, or
      `unknown(0x..)` with the code in zero-padded lower-case hexadecimal. */
  lemma {:induction false} NamesOfCodes(names: map<int, string>, codes: seq<nat>, width: nat)
    ensures forall i :: 0 <= i < |codes| ==> NamesOf(names, codes, width)[i] == NameOf(names, codes[i], width)
    decreases |codes|
  {
    if codes != [] {
      var init := codes[..|codes| - 1];
      NamesOfCodes(names, init, width);
      var r := NamesOf(names, codes, width);
      assert r == NamesOf(names, init, width) + [NameOf(names, codes[|codes| - 1], width)];
      forall i | 0 <= i < |codes|
        ensures r[i] == NameOf(names, codes[i], width)
      {
        if i < |init| {
          assert r[i] == NamesOf(names, init, width)[i];
          assert init[i] == codes[i];
        } else {
          assert r[i] == NameOf(names, codes[|codes| - 1], width);
        }
      }
    }
  }

  lemma NamesOfNext(names: map<int, string>, codes: seq<nat>, width: nat, i: nat)
    requires i < |codes|
    ensures NamesOf(names, codes[..i + 1], width) == NamesOf(names, codes[..i], width) + [NameOf(names, codes[i], width)]
  {
    assert codes[..i + 1][..i] == codes[..i];
  }

  /** `buf[:n]`: the first n entries, or all of them when there are fewer. */
  function Take<T>(s: seq<T>, n: nat): (r: seq<T>)
    ensures |r| == if n <= |s| then n else |s|
  {
    if n <= |s| then s[..n] else s
  }

  /** The state map after setting every name in `names` to v, in order. */
  function SetAll<T>(m: map<string, T>, names: seq<string>, v: T): map<string, T>
    decreases |names|
  {
    if names == [] then m else SetAll(m, names[..|names| - 1], v)[names[|names| - 1] := v]
  }

  /** After the loop every listed name holds v and every other key keeps
      its value; no other key appears. */
  lemma {:induction false} SetAllFacts<T>(m: map<string, T>, names: seq<string>, v: T)
    ensures forall k :: k in SetAll(m, names, v) <==> k in m || k in names
    ensures forall k :: k in names ==> SetAll(m, names, v)[k] == v
    ensures forall k :: k in m && k !in names ==> SetAll(m, names, v)[k] == m[k]
    decreases |names|
  {
    if names != [] {
      var init := names[..|names| - 1];
      SetAllFacts(m, init, v);
      assert forall k :: k in names <==> k in init || k == names[|names| - 1];
    }
  }

  lemma SetAllNext<T>(m: map<string, T>, names: seq<string>, name: string, v: T)
    ensures SetAll(m, names + [name], v) == SetAll(m, names, v)[name := v]
  {
    assert (names + [name])[..|names|] == names;
  }

  class JoystickController {
    /** The component part: channels and bus. */
    const base: Component
    const device: string
    /** Readable names of axis and button codes. */
    const axisNames: map<int, string>
    const buttonNames: map<int, string>
    var jsName: string
    var numAxes: nat
    var numButtons: nat
    /** Name of each axis and button number, in device order. */
    var axisMap: seq<string>
    var buttonMap: seq<string>
    var axisStates: map<string, real>
    var buttonStates: map<string, int>
    /** Whether start() has filled the trigger maps. */
    var triggersReady: bool
    var steering: real
    var throttle: real
    var autonomous: bool
    var record: bool
    var throttleScale: real

    function State(): Controls
      reads this
    {
      Controls(steering, throttle, autonomous, record, throttleScale)
    }

    predicate Valid()
      reads this
    {
      0.0 <= throttleScale <= 1.0
    }

    /** The fields __init__ sets once its checks have passed. */
    constructor(axisKeys: seq<(string, int)>, buttonKeys: seq<(string, int)>, device: string)
      ensures fresh(base) && base.kind == Plain && base.behaviour == JoystickBehaviour
      ensures base.subscription == [] && base.publication == [] && base.can == null && !base.channelNumWarned
      ensures this.device == device && axisNames == Names(axisKeys) && buttonNames == Names(buttonKeys)
      ensures jsName == "" && numAxes == 0 && numButtons == 0
      ensures axisMap == [] && buttonMap == [] && axisStates == map[] && buttonStates == map[]
      ensures !triggersReady && State() == InitialControls && Valid()
    {
      base := new Component(Plain, JoystickBehaviour);
      this.device := device;
      axisNames := Names(axisKeys);
      buttonNames := Names(buttonKeys);
      jsName := "";
      numAxes, numButtons := 0, 0;
      axisMap, buttonMap := [], [];
      axisStates, buttonStates := map[], map[];
      triggersReady := false;
      steering, throttle, autonomous, record := 0.0, 0.0, false, false;
      throttleScale := 1.0;
    }

    /** JoystickController(...): ValueError when a stick is missing from
        `axis_keys` or the device file does not exist; otherwise a new
        controller. Whether the file exists is a parameter. */
    static method Create(axisKeys: seq<(string, int)>, buttonKeys: seq<(string, int)>, device: string, deviceExists: bool)
      returns (js: JoystickController?, err: Option<Exc>)
      ensures err == ConfigError(axisKeys, deviceExists)
      ensures js == null <==> err.Some?
      ensures js != null ==> fresh(js) && fresh(js.base) && js.device == device
      ensures js != null ==> js.axisNames == Names(axisKeys) && js.buttonNames == Names(buttonKeys)
      ensures js != null ==> js.axisMap == [] && js.buttonMap == [] && !js.triggersReady
      ensures js != null ==> js.State() == InitialControls && js.Valid()
    {
      if !Defines(axisKeys, SteeringAxis) {
        return null, Some(ValueError);
      }
      if !Defines(axisKeys, ThrottleAxis) {
        return null, Some(ValueError);
      }
      if !deviceExists {
        return null, Some(ValueError);
      }
      js := new JoystickController(axisKeys, buttonKeys, device);
      err := None;
    }

    /** start(): _init_joystick, then the trigger maps, then True. The ioctl
        answers are parameters: the 64-byte name buffer, the axis and button
        counts and the axis and button code maps. A name that is not UTF-8
        raises UnicodeDecodeError before anything else changes. Each call
        appends to the axis and button maps. */
    method Start(nameBuf: seq<byte>, nAxes: byte, axisCodes: seq<byte>, nButtons: byte, buttonCodes: seq<nat>)
      returns (longRunning: bool, err: Option<Exc>)
      modifies this`jsName, this`numAxes, this`numButtons, this`axisMap, this`axisStates
      modifies this`buttonMap, this`buttonStates, this`triggersReady
      ensures Utf8.Decode(nameBuf).None? ==>
        err == Some(UnicodeDecodeError) && axisMap == old(axisMap) && buttonMap == old(buttonMap)
        && axisStates == old(axisStates) && buttonStates == old(buttonStates) && triggersReady == old(triggersReady)
        && jsName == old(jsName) && numAxes == old(numAxes) && numButtons == old(numButtons)
      ensures Utf8.Decode(nameBuf).Some? ==> err.None? && longRunning && triggersReady
      ensures Utf8.Decode(nameBuf).Some? ==>
        jsName == Utf8.Decode(nameBuf).value && numAxes == nAxes && numButtons == nButtons
      ensures var axes := NamesOf(axisNames, Take(axisCodes, nAxes), 2);
        Utf8.Decode(nameBuf).Some? ==> axisMap == old(axisMap) + axes && axisStates == SetAll(old(axisStates), axes, 0.0)
      ensures var buttons := NamesOf(buttonNames, Take(buttonCodes, nButtons), 3);
        Utf8.Decode(nameBuf).Some? ==> buttonMap == old(buttonMap) + buttons && buttonStates == SetAll(old(buttonStates), buttons, 0)
    {
      err := InitJoystick(nameBuf, nAxes, axisCodes, nButtons, buttonCodes);
      if err.Some? {
        return false, err;
      }
      InitTriggerMaps();
      longRunning := true;
    }

    /** _init_joystick: the device name, the axis and button counts, then the
        axis and button maps with every state at 0. */
    method InitJoystick(nameBuf: seq<byte>, nAxes: byte, axisCodes: seq<byte>, nButtons: byte, buttonCodes: seq<nat>)
      returns (err: Option<Exc>)
      modifies this`jsName, this`numAxes, this`numButtons, this`axisMap, this`axisStates
      modifies this`buttonMap, this`buttonStates
      ensures Utf8.Decode(nameBuf).None? ==>
        err == Some(UnicodeDecodeError) && axisMap == old(axisMap) && buttonMap == old(buttonMap)
        && axisStates == old(axisStates) && buttonStates == old(buttonStates)
        && jsName == old(jsName) && numAxes == old(numAxes) && numButtons == old(numButtons)
      ensures Utf8.Decode(nameBuf).Some? ==> err.None?
      ensures Utf8.Decode(nameBuf).Some? ==>
        jsName == Utf8.Decode(nameBuf).value && numAxes == nAxes && numButtons == nButtons
      ensures var axes := NamesOf(axisNames, Take(axisCodes, nAxes), 2);
        Utf8.Decode(nameBuf).Some? ==> axisMap == old(axisMap) + axes && axisStates == SetAll(old(axisStates), axes, 0.0)
      ensures var buttons := NamesOf(buttonNames, Take(buttonCodes, nButtons), 3);
        Utf8.Decode(nameBuf).Some? ==> buttonMap == old(buttonMap) + buttons && buttonStates == SetAll(old(buttonStates), buttons, 0)
    {
      var name := Utf8.Decode(nameBuf);
      if name.None? {
        return Some(UnicodeDecodeError);
      }
      jsName := name.value;
      numAxes := nAxes;
      numButtons := nButtons;
      AddAxes(Take(axisCodes, nAxes));
      AddButtons(Take(buttonCodes, nButtons));
      err := None;
    }

    /** _init_trigger_maps: from now on run() reacts to the sticks and buttons. */
    method InitTriggerMaps()
      modifies this`triggersReady
      ensures triggersReady
    {
      triggersReady := true;
    }

    /** The axis loop of _init_joystick: name each code and set its state to 0. */
    method AddAxes(codes: seq<nat>)
      modifies this`axisMap, this`axisStates
      ensures axisMap == old(axisMap) + NamesOf(axisNames, codes, 2)
      ensures axisStates == SetAll(old(axisStates), NamesOf(axisNames, codes, 2), 0.0)
    {
      for i := 0 to |codes|
        invariant axisMap == old(axisMap) + NamesOf(axisNames, codes[..i], 2)
        invariant axisStates == SetAll(old(axisStates), NamesOf(axisNames, codes[..i], 2), 0.0)
      {
        var axisName := NameOf(axisNames, codes[i], 2);
        NamesOfNext(axisNames, codes, 2, i);
        SetAllNext(old(axisStates), NamesOf(axisNames, codes[..i], 2), axisName, 0.0);
        axisMap := axisMap + [axisName];
        axisStates := axisStates[axisName := 0.0];
      }
      assert codes[..|codes|] == codes;
    }

    /** The button loop of _init_joystick: name each code and set its state to 0. */
    method AddButtons(codes: seq<nat>)
      modifies this`buttonMap, this`buttonStates
      ensures buttonMap == old(buttonMap) + NamesOf(buttonNames, codes, 3)
      ensures buttonStates == SetAll(old(buttonStates), NamesOf(buttonNames, codes, 3), 0)
    {
      for i := 0 to |codes|
        invariant buttonMap == old(buttonMap) + NamesOf(buttonNames, codes[..i], 3)
        invariant buttonStates == SetAll(old(buttonStates), NamesOf(buttonNames, codes[..i], 3), 0)
      {
        var buttonName := NameOf(buttonNames, codes[i], 3);
        NamesOfNext(buttonNames, codes, 3, i);
        SetAllNext(old(buttonStates), NamesOf(buttonNames, codes[..i], 3), buttonName, 0);
        buttonMap := buttonMap + [buttonName];
        buttonStates := buttonStates[buttonName := 0];
      }
      assert codes[..|codes|] == codes;
    }

    /** _poll_joystick on the bytes of one read: reports what PollEvent
        says and records each reported state in the state maps. */
    method PollJoystick(buf: seq<byte>) returns (p: Poll, err: Option<Exc>)
      modifies this`buttonStates, this`axisStates
      ensures (p, err) == PollEvent(buf, buttonMap, axisMap)
      ensures buttonStates == StoreButton(old(buttonStates), p) && (p.buttonState.Some? ==> p.button.Some?)
      ensures axisStates == StoreAxis(old(axisStates), p) && (p.axisVal.Some? ==> p.axis.Some?)
    {
      p, err := NoInput, None;
      if buf == [] {
        return;
      }
      var ev := Unpack(buf);
      if ev.Err? {
        return NoInput, Some(ev.error);
      }
      var e := ev.value;
      if HasBit(e.typ, InitBit) {
        return;
      }
      if HasBit(e.typ, ButtonBit) {
        if e.number >= |buttonMap| {
          return NoInput, Some(IndexError);
        }
        var button := buttonMap[e.number];
        p := p.(button := Some(button));
        if button != "" {
          buttonStates := buttonStates[button := e.value];
          p := p.(buttonState := Some(e.value));
        }
      }
      if HasBit(e.typ, AxisBit) {
        if e.number >= |axisMap| {
          return p, Some(IndexError);
        }
        var axis := axisMap[e.number];
        p := p.(axis := Some(axis));
        if axis != "" {
          var v := AxisValue(e.value);
          axisStates := axisStates[axis := v];
          p := p.(axisVal := Some(v));
        }
      }
    }

    /** _set_steering. */
    method SetSteering(v: real)
      modifies this`steering
      ensures steering == v
    {
      steering := v;
    }

    /** _set_throttle: the stick reads reversed, and the scale applies. */
    method SetThrottle(v: real)
      modifies this`throttle
      ensures throttle == -1.0 * v * throttleScale
    {
      throttle := -1.0 * v * throttleScale;
    }

    /** _toggle_record. */
    method ToggleRecord()
      modifies this`record
      ensures record == !old(record)
    {
      record := !record;
    }

    /** _toggle_autonomous. */
    method ToggleAutonomous()
      modifies this`autonomous
      ensures autonomous == !old(autonomous)
    {
      autonomous := !autonomous;
    }

    /** _increase_max_throttle: one hundredth more, at most 1, rounded to two
        decimals; the scale stays in [0, 1]. */
    method IncreaseMaxThrottle()
      requires Valid()
      modifies this`throttleScale
      ensures throttleScale == Round2(Min(1.0, old(throttleScale) + 0.01)) && Valid()
    {
      Round2Unit(Min(1.0, throttleScale + 0.01));
      throttleScale := Round2(Min(1.0, throttleScale + 0.01));
    }

    /** _decrease_max_throttle: one hundredth less, at least 0, rounded to two
        decimals; the scale stays in [0, 1]. */
    method DecreaseMaxThrottle()
      requires Valid()
      modifies this`throttleScale
      ensures throttleScale == Round2(Max(0.0, old(throttleScale) - 0.01)) && Valid()
    {
      Round2Unit(Max(0.0, throttleScale - 0.01));
      throttleScale := Round2(Max(0.0, throttleScale - 0.01));
    }

    /** The trigger part of one run() iteration. */
    method Trigger(p: Poll)
      requires Valid()
      modifies this`steering, this`throttle, this`autonomous, this`record, this`throttleScale
      ensures State() == Handle(old(State()), p, triggersReady) && Valid()
    {
      if !triggersReady {
        return;
      }
      if p.axis.Some? && p.axisVal.Some? {
        if p.axis.value == SteeringAxis {
          SetSteering(p.axisVal.value);
        } else if p.axis.value == ThrottleAxis {
          SetThrottle(p.axisVal.value);
        }
      }
      assert State() == if p.axis.Some? && p.axisVal.Some? then Move(old(State()), p.axis.value, p.axisVal.value) else old(State());
      if p.button.Some? && p.button.value != "" && p.buttonState.Some? && p.buttonState.value >= 1 {
        match DownTrigger(p.button.value)
        case NoAction =>
        case FlipRecord => ToggleRecord();
        case FlipAutonomous => ToggleAutonomous();
        case RaiseScale => IncreaseMaxThrottle();
        case LowerScale => DecreaseMaxThrottle();
      }
    }

    /** One iteration of run(): poll, run the triggers, publish the five
        outputs. An exception from the poll ends the iteration before the
        triggers; publishing without a bus raises ValueError, and otherwise
        fails as the bus's publish does or, at a sixth publication channel,
        with IndexError. */
    method RunOnce(buf: seq<byte>) returns (calls: seq<PublishCall>, err: Option<Exc>)
      requires Valid()
      modifies this`buttonStates, this`axisStates
      modifies this`steering, this`throttle, this`autonomous, this`record, this`throttleScale, base`channelNumWarned
      ensures buttonStates == StoreButton(old(buttonStates), PollEvent(buf, buttonMap, axisMap).0)
      ensures axisStates == StoreAxis(old(axisStates), PollEvent(buf, buttonMap, axisMap).0)
      ensures Valid() && axisMap == old(axisMap) && buttonMap == old(buttonMap) && triggersReady == old(triggersReady)
      ensures var (p, e) := PollEvent(buf, buttonMap, axisMap);
        e.Some? ==> err == e && calls == [] && State() == old(State())
      ensures var (p, e) := PollEvent(buf, buttonMap, axisMap);
        e.None? ==> State() == Handle(old(State()), p, triggersReady)
      ensures PollEvent(buf, buttonMap, axisMap).1.None? && base.can == null ==>
        calls == [] && err == Some(ValueError)
      ensures PollEvent(buf, buttonMap, axisMap).1.None? && base.can != null ==>
        (calls, err) == Publishes(base.can.kind, base.publication, Published(State()))
      ensures base.channelNumWarned
           == (old(base.channelNumWarned)
               || (PollEvent(buf, buttonMap, axisMap).1.None? && base.can != null && |base.publication| != 5))
      ensures (calls, State(), err) == Iteration(old(State()), buf, buttonMap, axisMap, triggersReady, base.can, base.publication)
    {
      var p, e := PollJoystick(buf);
      if e.Some? {
        return [], e;
      }
      Trigger(p);
      var warned;
      calls, warned, err := base.PublishMessage(Published(State()));
    }

    /** run(): one iteration per read until the inputs run out (the stop
        event) or an exception ends the thread. Every iteration begun is
        recorded with the publish calls it made, the failing one included;
        the whole run is RunTrace of the reads. */
    method Run(inputs: seq<seq<byte>>) returns (published: seq<seq<PublishCall>>, err: Option<Exc>)
      requires Valid()
      modifies this`buttonStates, this`axisStates
      modifies this`steering, this`throttle, this`autonomous, this`record, this`throttleScale, base`channelNumWarned
      ensures Valid() && axisMap == old(axisMap) && buttonMap == old(buttonMap) && triggersReady == old(triggersReady)
      ensures (published, State(), err)
           == RunTrace(old(State()), inputs, buttonMap, axisMap, triggersReady, base.can, base.publication)
      ensures |published| <= |inputs|
      ensures err.None? ==> |published| == |inputs|
      ensures (buttonStates, axisStates) == StatesAfter(old(buttonStates), old(axisStates), inputs[..|published|], buttonMap, axisMap)
      ensures err.None? ==> State() == Replay(old(State()), inputs, buttonMap, axisMap, triggersReady)
    {
      published, err := [], None;
      ghost var c0 := State();
      var i := 0;
      assert inputs[..0] == [];
      while i < |inputs| && err.None?
        invariant 0 <= i <= |inputs| && |published| == i
        invariant Valid() && axisMap == old(axisMap) && buttonMap == old(buttonMap) && triggersReady == old(triggersReady)
        invariant RunTrace(c0, inputs[..i], buttonMap, axisMap, triggersReady, base.can, base.publication)
               == (published, State(), err)
        invariant (buttonStates, axisStates) == StatesAfter(old(buttonStates), old(axisStates), inputs[..i], buttonMap, axisMap)
      {
        var calls;
        calls, err := RunOnce(inputs[i]);
        StatesAfterStep(old(buttonStates), old(axisStates), inputs, i, buttonMap, axisMap);
        PrefixOfPrefix(inputs, i + 1, i);
        assert inputs[..i + 1][i] == inputs[i];
        published := published + [calls];
        i := i + 1;
      }
      if err.Some? {
        RunTraceStops(c0, inputs, i, buttonMap, axisMap, triggersReady, base.can, base.publication);
      } else {
        assert inputs[..i] == inputs;
        RunTraceCompletes(c0, inputs, buttonMap, axisMap, triggersReady, base.can, base.publication);
      }
    }
  }
}
