/** The web controller (src/components/web_controller.py): the `/control`
    request handler turns query parameters into steering, throttle, record
    and autonomous controls and publishes them; received camera images are
    kept for the video stream. Flask routing and streaming are not modelled. */
module WebControl {
  import opened Py
  import opened Ranges
  import opened Components

  /** The four controls the handler publishes. */
  datatype Controls = Controls(steering: real, throttle: real, record: bool, autonomous: bool)

  const InitialControls: Controls := Controls(0.0, 0.0, false, false)

  /** The web slider ranges: steering in [-100, 100], throttle in [-170, 170]. */
  const SteerLimit: real := 100.0
  const ThrottleLimit: real := 170.0

  /** start() returns True; shutdown() and on_message() return normally. */
  const WebBehaviour: Behaviour := Behaviour(Returns(true), None, None)

  /** `map_range(n, -limit, limit, -1.0, 1.0)`: the slider position as a
      fraction of its limit. */
  function Scale(n: int, limit: real): (r: real)
    requires limit > 0.0
    ensures r == (n as real) / limit
  {
    var y := MapRange(n as real, -limit, limit, -1.0, 1.0).value;
    ScaleIsFraction(n as real, limit);
    y
  }

  lemma ScaleIsFraction(x: real, limit: real)
    requires limit > 0.0
    ensures MapRange(x, -limit, limit, -1.0, 1.0) == Ok(x / limit)
  {
    var k := Slope(-limit, limit, -1.0, 1.0);
    assert k * (2.0 * limit) == 2.0;
    assert k == 1.0 / limit by {
      assert (1.0 / limit) * (2.0 * limit) == 2.0;
      Cancel(k, 1.0 / limit, 2.0 * limit);
    }
    var r := MapRange(x, -limit, limit, -1.0, 1.0);
    assert r.Ok? && r.value == -1.0 + (x - -limit) * k;
    assert -1.0 + (x + limit) * k == x * k;
    assert x * k == x * (1.0 / limit);
    assert x * (1.0 / limit) == x / limit;
    assert r.value == x / limit;
  }

  /** `str(value) == 'true'`: only the exact string counts as true. */
  predicate IsTrue(s: string)
  {
    s == "true"
  }

  /** The controls after one `/control` request, with the exception that
      stopped the handler: `steer` and `throttle` go through int(), which
      raises ValueError on a malformed number after the earlier parameters
      have been applied; absent parameters leave their control unchanged. */
  function ControlStep(c: Controls, args: map<string, string>): (r: (Controls, Option<Exc>))
    ensures r.1.Some? ==> r.1 == Some(ValueError)
    ensures r.1.None? <==>
      ("steer" in args ==> ParseInt(args["steer"]).Ok?) && ("throttle" in args ==> ParseInt(args["throttle"]).Ok?)
  {
    if "steer" in args && ParseInt(args["steer"]).Err? then (c, Some(ValueError))
    else
      var c1 := if "steer" in args then c.(steering := Scale(ParseInt(args["steer"]).value, SteerLimit)) else c;
      if "throttle" in args && ParseInt(args["throttle"]).Err? then (c1, Some(ValueError))
      else
        var c2 := if "throttle" in args then c1.(throttle := Scale(ParseInt(args["throttle"]).value, ThrottleLimit)) else c1;
        var c3 := if "record" in args then c2.(record := IsTrue(args["record"])) else c2;
        var c4 := if "auto" in args then c3.(autonomous := IsTrue(args["auto"])) else c3;
        (c4, None)
  }

  /** What a successful request does to each control: a present parameter
      sets it (steering to n/100, throttle to n/170, record and autonomous
      to whether the value is exactly "true"), an absent one keeps it. */
  lemma ControlStepFields(c: Controls, args: map<string, string>)
    requires ControlStep(c, args).1.None?
    ensures var r := ControlStep(c, args).0;
      r.steering == (if "steer" in args then (ParseInt(args["steer"]).value as real) / 100.0 else c.steering)
      && r.throttle == (if "throttle" in args then (ParseInt(args["throttle"]).value as real) / 170.0 else c.throttle)
      && r.record == (if "record" in args then args["record"] == "true" else c.record)
      && r.autonomous == (if "auto" in args then args["auto"] == "true" else c.autonomous)
  {
  }

  /** A malformed `steer` changes nothing; a malformed `throttle` keeps the
      steering already applied and changes nothing else. */
  lemma ControlStepFailure(c: Controls, args: map<string, string>)
    requires ControlStep(c, args).1.Some?
    ensures var r := ControlStep(c, args).0;
      r.throttle == c.throttle && r.record == c.record && r.autonomous == c.autonomous
      && ("steer" in args && ParseInt(args["steer"]).Err? ==> r == c)
  {
  }

  /** The values a request publishes, in channel order. */
  function Published(c: Controls): (r: seq<Value>)
    ensures |r| == 4
    ensures r[0] == VFloat(c.steering) && r[1] == VFloat(c.throttle) && r[2] == VBool(c.record) && r[3] == VBool(c.autonomous)
  {
    [VFloat(c.steering), VFloat(c.throttle), VBool(c.record), VBool(c.autonomous)]
  }

  class WebController {
    /** The component part: channels and bus. */
    const base: Component
    /** The latest camera image; None until one is received. */
    var image: Value
    var steering: real
    var throttle: real
    var record: bool
    var autonomous: bool

    function State(): Controls
      reads this
    {
      Controls(steering, throttle, record, autonomous)
    }

    /** All controls start neutral, and there is no image yet. */
    constructor()
      ensures State() == InitialControls && image == VNone
      ensures fresh(base) && base.kind == Plain && base.behaviour == WebBehaviour
      ensures base.subscription == [] && base.publication == [] && base.can == null && !base.channelNumWarned
    {
      base := new Component(Plain, WebBehaviour);
      image := VNone;
      steering, throttle, record, autonomous := 0.0, 0.0, false, false;
    }

    /** start() returns True, so run() (the web server) is scheduled. */
    method Start() returns (longRunning: bool)
      ensures longRunning
    {
      longRunning := true;
    }

    /** send_control: apply the query parameters field by field, then publish
        steering, throttle, record and autonomous. An exception from int()
        ends the handler before anything is published. */
    method SendControl(args: map<string, string>) returns (calls: seq<PublishCall>, err: Option<Exc>)
      modifies this, base`channelNumWarned
      ensures State() == ControlStep(old(State()), args).0 && image == old(image)
      ensures ControlStep(old(State()), args).1.Some? ==>
        err == ControlStep(old(State()), args).1 && calls == [] && base.channelNumWarned == old(base.channelNumWarned)
      ensures ControlStep(old(State()), args).1.None? && base.can != null ==>
        (calls, err) == Publishes(base.can.kind, base.publication, Published(State()))
      ensures ControlStep(old(State()), args).1.None? && base.can == null ==>
        calls == [] && err == Some(ValueError)
      ensures ControlStep(old(State()), args).1.None? ==>
        base.channelNumWarned == FlagStep(old(base.channelNumWarned), |base.publication|, Call(base.can != null, 4))
    {
      calls := [];
      if "steer" in args {
        var n := ParseInt(args["steer"]);
        if n.Err? {
          return [], Some(n.error);
        }
        steering := Scale(n.value, SteerLimit);
      }
      if "throttle" in args {
        var n := ParseInt(args["throttle"]);
        if n.Err? {
          return [], Some(n.error);
        }
        throttle := Scale(n.value, ThrottleLimit);
      }
      if "record" in args {
        record := IsTrue(args["record"]);
      }
      if "auto" in args {
        autonomous := IsTrue(args["auto"]);
      }
      var warned;
      calls, warned, err := base.PublishMessage(Published(State()));
    }

    /** on_message keeps the payload as the latest image, whatever the channel. */
    method OnMessage(channel: Value, content: Value)
      modifies this`image
      ensures image == content
    {
      image := content;
    }
  }
}
