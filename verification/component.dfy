/** The base contract every car component shares (src/components/component.py):
    its channel lists, its bus handle, and publish_message. */
module Components {
  import opened Py

  /** What the supervisor can tell about an instance with isinstance():
      an ordinary component, a CAN bus, or a ZmqCAN bus in server or client mode. */
  datatype Kind = Plain | Bus | ZmqBus(serverMode: bool)

  /** What calling start() on an instance does: return a value whose truth says
      whether run() must be scheduled, raise, or check that the instance
      subscribes to at least `minChannels` channels (raising ValueError when
      it does not) and then return True. */
  datatype StartOutcome = Returns(longRunning: bool) | Raises(error: Exc) | NeedsChannels(minChannels: nat)

  /** What start() does on an instance with the given subscription. */
  function StartResult(start: StartOutcome, subscription: seq<Value>): (r: StartOutcome)
    ensures !r.NeedsChannels?
    ensures start.NeedsChannels? ==>
      r == if |subscription| < start.minChannels then Raises(ValueError) else Returns(true)
    ensures !start.NeedsChannels? ==> r == start
  {
    match start
    case NeedsChannels(n) => if |subscription| < n then Raises(ValueError) else Returns(true)
    case _ => start
  }

  /** The outcome of the overridable methods of one component class:
      start(), shutdown() (None: returns) and on_message() (None: returns). */
  datatype Behaviour = Behaviour(start: StartOutcome, shutdown: Option<Exc>, onMessage: Option<Exc>)

  /** The base class's own start, shutdown and on_message all raise TypeError
      (component.py:17-39); run() does nothing. A subclass that does not
      override a method keeps this outcome. */
  const BaseBehaviour: Behaviour := Behaviour(Raises(TypeError), Some(TypeError), Some(TypeError))

  /** What a ZmqCAN does, in either mode: start() returns True; ZmqCAN
      defines neither shutdown nor on_message, so both are the base class's,
      which raise TypeError. */
  const ZmqCanBehaviour: Behaviour := Behaviour(Returns(true), Some(TypeError), Some(TypeError))

  /** One `can.publish(channel, message)` call. */
  datatype PublishCall = PublishCall(channel: Value, message: Value)

  /** The publish calls `for i in range(len(channels)): publish(channels[i], content[i])`
      gets through: channel i paired with value i, as long as both exist. */
  function Zip(channels: seq<Value>, content: seq<Value>): (calls: seq<PublishCall>)
    ensures |calls| == if |channels| <= |content| then |channels| else |content|
    ensures forall i :: 0 <= i < |calls| ==> calls[i] == PublishCall(channels[i], content[i])
  {
    if channels == [] || content == [] then []
    else [PublishCall(channels[0], content[0])] + Zip(channels[1..], content[1..])
  }

  /** What one `can.publish(channel, message)` raises, by the bus's class: a
      plain component has no publish method (AttributeError), the abstract
      CAN's publish raises TypeError, and a ZmqCAN's encodes the channel,
      which only a str can do (AttributeError otherwise). */
  function PublishOutcome(bus: Kind, channel: Value): (r: Option<Exc>)
    ensures r.None? <==> bus.ZmqBus? && channel.VStr?
  {
    match bus
    case Plain => Some(AttributeError)
    case Bus => Some(TypeError)
    case ZmqBus(_) => if channel.VStr? then None else Some(AttributeError)
  }

  /** What `for i in range(len(channels)): can.publish(channels[i], content[i])`
      does on a bus of the given kind: the calls it makes, the last one being
      the call that raised if one did, and the exception that stopped it,
      which is IndexError when the values run out first. */
  function Publishes(bus: Kind, channels: seq<Value>, content: seq<Value>): (r: (seq<PublishCall>, Option<Exc>))
    ensures |r.0| <= |channels| && |r.0| <= |content|
    ensures !bus.ZmqBus? ==> |r.0| <= 1
    decreases |channels|
  {
    if channels == [] then ([], None)
    else if content == [] then ([], Some(IndexError))
    else
      var call := PublishCall(channels[0], content[0]);
      match PublishOutcome(bus, channels[0])
      case Some(e) => ([call], Some(e))
      case None =>
        var rest := Publishes(bus, channels[1..], content[1..]);
        ([call] + rest.0, rest.1)
  }

  /** The calls made are the first ones of the full pairing of channels with
      values, and the loop completes exactly when every channel has a value
      and the bus accepts every channel, in which case all pairs are published. */
  lemma {:induction false} PublishesZip(bus: Kind, channels: seq<Value>, content: seq<Value>)
    ensures var r := Publishes(bus, channels, content);
      r.0 == Zip(channels, content)[..|r.0|]
    ensures var r := Publishes(bus, channels, content);
      r.1.None? <==>
        |channels| <= |content| && forall i :: 0 <= i < |channels| ==> PublishOutcome(bus, channels[i]).None?
    ensures var r := Publishes(bus, channels, content);
      r.1.None? ==> r.0 == Zip(channels, content)
    decreases |channels|
  {
    if channels != [] && content != [] && PublishOutcome(bus, channels[0]).None? {
      PublishesZip(bus, channels[1..], content[1..]);
      assert forall i :: 0 <= i < |channels[1..]| ==> channels[1..][i] == channels[i + 1];
    }
  }

  /** The publish loop's step at index i, for calls `done` made before it:
      what is left to do, in terms of the calls from i + 1 on. */
  lemma PublishesFrom(bus: Kind, channels: seq<Value>, content: seq<Value>, i: nat, done: seq<PublishCall>)
    requires i < |channels| && i <= |content|
    ensures var r := Publishes(bus, channels[i..], content[i..]);
      if i == |content| then done + r.0 == done && r.1 == Some(IndexError)
      else
        var call := PublishCall(channels[i], content[i]);
        var rest := Publishes(bus, channels[i + 1..], content[i + 1..]);
        if PublishOutcome(bus, channels[i]).Some? then done + r.0 == done + [call] && r.1 == PublishOutcome(bus, channels[i])
        else done + r.0 == (done + [call]) + rest.0 && r.1 == rest.1
  {
    assert channels[i..][1..] == channels[i + 1..];
    if i < |content| {
      assert content[i..][1..] == content[i + 1..];
    }
  }

  /** When publishing fails, either the values ran out after every channel
      that had one was published without error (IndexError), or the last call
      made raised the bus's own exception and every call before it succeeded. */
  lemma {:induction false} PublishStops(bus: Kind, channels: seq<Value>, content: seq<Value>)
    ensures var r := Publishes(bus, channels, content);
      r.1.Some? ==>
        (r.1 == Some(IndexError) && |r.0| == |content| < |channels|
         && forall i :: 0 <= i < |content| ==> PublishOutcome(bus, channels[i]).None?)
        || (0 < |r.0| <= |channels| && r.1 == PublishOutcome(bus, channels[|r.0| - 1])
            && forall i :: 0 <= i < |r.0| - 1 ==> PublishOutcome(bus, channels[i]).None?)
    decreases |channels|
  {
    if channels != [] && content != [] && PublishOutcome(bus, channels[0]).None? {
      PublishStops(bus, channels[1..], content[1..]);
      assert forall i :: 0 <= i < |channels[1..]| ==> channels[1..][i] == channels[i + 1];
    }
  }

  /** On a ZmqCAN with str channels, every channel that has a value is
      published, and only missing values raise (IndexError). */
  lemma {:induction false} PublishesOnZmq(serverMode: bool, channels: seq<Value>, content: seq<Value>)
    requires forall i :: 0 <= i < |channels| ==> channels[i].VStr?
    ensures Publishes(ZmqBus(serverMode), channels, content)
         == (Zip(channels, content), if |content| < |channels| then Some(IndexError) else None)
    decreases |channels|
  {
    if channels != [] && content != [] {
      PublishesOnZmq(serverMode, channels[1..], content[1..]);
    }
  }

  /** Whether a publish_message call logs the count-mismatch warning. */
  predicate WarnsNow(warned: bool, nChannels: nat, nValues: nat)
  {
    !warned && nChannels != nValues
  }

  /** One publish_message call as far as the warning is concerned: whether a bus
      was attached and how many values were passed. */
  datatype Call = Call(withBus: bool, nValues: nat)

  /** The warned flag after one call. */
  predicate FlagStep(warned: bool, nChannels: nat, call: Call)
  {
    warned || (call.withBus && call.nValues != nChannels)
  }

  /** The warned flag after a sequence of calls. */
  predicate FlagAfter(warned: bool, nChannels: nat, calls: seq<Call>)
    decreases |calls|
  {
    if calls == [] then warned
    else FlagAfter(FlagStep(warned, nChannels, calls[0]), nChannels, calls[1..])
  }

  /** How many warnings a sequence of calls logs. */
  function Warnings(warned: bool, nChannels: nat, calls: seq<Call>): nat
    decreases |calls|
  {
    if calls == [] then 0
    else
      (if calls[0].withBus && WarnsNow(warned, nChannels, calls[0].nValues) then 1 else 0)
      + Warnings(FlagStep(warned, nChannels, calls[0]), nChannels, calls[1..])
  }

  /** The mismatch warning is logged at most once per instance, whatever the
      sequence of calls, and never again once the flag is set. */
  lemma {:induction false} WarnsAtMostOnce(warned: bool, nChannels: nat, calls: seq<Call>)
    ensures Warnings(warned, nChannels, calls) <= if warned then 0 else 1
    decreases |calls|
  {
    if calls != [] {
      var next := FlagStep(warned, nChannels, calls[0]);
      WarnsAtMostOnce(next, nChannels, calls[1..]);
      if calls[0].withBus && WarnsNow(warned, nChannels, calls[0].nValues) {
        assert next;
      }
    }
  }

  /** The flag is set after a sequence of calls exactly when it was set before
      or some call with a bus passed a mismatched number of values. */
  lemma {:induction false} FlagSticks(warned: bool, nChannels: nat, calls: seq<Call>)
    ensures FlagAfter(warned, nChannels, calls)
        <==> warned || exists i :: 0 <= i < |calls| && calls[i].withBus && calls[i].nValues != nChannels
    decreases |calls|
  {
    if calls != [] {
      var next := FlagStep(warned, nChannels, calls[0]);
      FlagSticks(next, nChannels, calls[1..]);
      if exists i :: 0 <= i < |calls[1..]| && calls[1..][i].withBus && calls[1..][i].nValues != nChannels {
        var i :| 0 <= i < |calls[1..]| && calls[1..][i].withBus && calls[1..][i].nValues != nChannels;
        assert calls[i + 1] == calls[1..][i];
      }
      if exists i :: 0 <= i < |calls| && calls[i].withBus && calls[i].nValues != nChannels {
        var i :| 0 <= i < |calls| && calls[i].withBus && calls[i].nValues != nChannels;
        if i > 0 {
          assert calls[1..][i - 1] == calls[i];
        }
      }
    }
  }

  class Component {
    /** The dynamic class of the instance, as isinstance() sees it. */
    const kind: Kind
    /** What the instance's class defines for start/shutdown/on_message. */
    const declared: Behaviour
    /** What the instance's start/shutdown/on_message do: a ZmqCAN's are
        ZmqCAN's own, whatever else the class is said to define. */
    const behaviour: Behaviour := if kind.ZmqBus? then ZmqCanBehaviour else declared
    /** Channels the component listens to, in order. */
    var subscription: seq<Value>
    /** Channels the component publishes to; value i goes to channel i. */
    var publication: seq<Value>
    /** The bus handle; null until the supervisor wires one in. */
    var can: Component?
    var channelNumWarned: bool

    /** A new component has no channels, no bus and has not warned. */
    constructor(kind: Kind, declared: Behaviour)
      ensures this.kind == kind && this.declared == declared
      ensures subscription == [] && publication == [] && can == null && !channelNumWarned
    {
      this.kind := kind;
      this.declared := declared;
      subscription := [];
      publication := [];
      can := null;
      channelNumWarned := false;
    }

    /** The base run() is an empty long-running job. */
    method Run()
    {
    }

    /** publish_message(*content): the publish calls made on the bus, whether
        the mismatch warning was logged, and the exception raised if any.
        Without a bus it raises ValueError before doing anything; otherwise it
        stops at the first call the bus rejects, or raises IndexError when it
        indexes past the values. */
    method PublishMessage(content: seq<Value>) returns (calls: seq<PublishCall>, warned: bool, err: Option<Exc>)
      modifies this`channelNumWarned
      ensures can == null ==> calls == [] && err == Some(ValueError)
      ensures warned == (can != null && WarnsNow(old(channelNumWarned), |publication|, |content|))
      ensures channelNumWarned == FlagStep(old(channelNumWarned), |publication|, Call(can != null, |content|))
      ensures can != null ==> (calls, err) == Publishes(can.kind, publication, content)
    {
      calls, warned := [], false;
      if can == null {
        err := Some(ValueError);
        return;
      }
      if |publication| != |content| && !channelNumWarned {
        warned := true;
        channelNumWarned := true;
      }
      err := None;
      var i := 0;
      assert publication[0..] == publication && content[0..] == content;
      assert calls + Publishes(can.kind, publication, content).0 == Publishes(can.kind, publication, content).0;
      while i < |publication|
        invariant 0 <= i <= |publication| && i <= |content| && err.None?
        invariant channelNumWarned == FlagStep(old(channelNumWarned), |publication|, Call(true, |content|))
        invariant Publishes(can.kind, publication, content).0 == calls + Publishes(can.kind, publication[i..], content[i..]).0
        invariant Publishes(can.kind, publication, content).1 == Publishes(can.kind, publication[i..], content[i..]).1
      {
        PublishesFrom(can.kind, publication, content, i, calls);
        if i == |content| {
          err := Some(IndexError);
          return;
        }
        var call := PublishCall(publication[i], content[i]);
        var outcome := PublishOutcome(can.kind, publication[i]);
        calls := calls + [call];
        if outcome.Some? {
          err := outcome;
          return;
        }
        i := i + 1;
      }
      assert publication[i..] == [];
      assert Publishes(can.kind, publication[i..], content[i..]) == ([], None);
      assert calls + [] == calls;
    }
  }
}
