/** The ZeroMQ bus (src/components/zmq_can.py). A server-mode instance is the
    broker: it pulls frames pushed by clients and re-sends them on its PUB
    socket. A client-mode instance pushes frames to the broker, subscribes its
    SUB socket to channel prefixes, and calls the listener registered for the
    channel of each frame it receives. Sockets are modelled as frame queues. */
module ZmqCan {
  import opened Py
  import Utf8
  import opened Components

  /** `pickle.dumps(message)`: the serialized form is opaque; the model keeps
      the value that was serialized, so `pickle.loads` gives it back. */
  datatype Pickled = Pickled(message: Value)

  /** A two-part frame: the UTF-8 bytes of the channel name and the pickled message. */
  datatype Frame = Frame(channel: seq<Utf8.byte>, payload: Pickled)

  /** One call `listeners[channel](channel, message)` made by a client. */
  datatype Delivery = Delivery(listener: Component, channel: Value, message: Value)

  /** The frame publish(channel, message) sends; only a str channel has
      `.encode()`, anything else raises AttributeError. The frame carries
      the channel and the message so that a receiver recovers both. */
  function MakeFrame(channel: Value, message: Value): (r: Result<Frame>)
    ensures r.Err? <==> !channel.VStr?
    ensures r.Err? ==> r.error == AttributeError
    ensures r.Ok? ==> Utf8.Decode(r.value.channel) == Some(channel.s) && r.value.payload.message == message
  {
    if channel.VStr? then
      Utf8.DecodeEncode(channel.s);
      Ok(Frame(Utf8.Encode(channel.s), Pickled(message)))
    else Err(AttributeError)
  }

  /** Handling one received frame on a client: decode the channel (a
      malformed name raises UnicodeDecodeError), look its listener up by exact
      name (KeyError when none is registered), then unpickle the message. */
  function Consume(listeners: map<Value, Component>, f: Frame): (r: Result<Delivery>)
    ensures r.Ok? <==> Utf8.Decode(f.channel).Some? && VStr(Utf8.Decode(f.channel).value) in listeners
    ensures r.Ok? ==> r.value.channel == VStr(Utf8.Decode(f.channel).value) && r.value.channel in listeners
    ensures r.Ok? ==> r.value == Delivery(listeners[r.value.channel], r.value.channel, f.payload.message)
  {
    match Utf8.Decode(f.channel)
    case None => Err(UnicodeDecodeError)
    case Some(s) =>
      if VStr(s) in listeners then Ok(Delivery(listeners[VStr(s)], VStr(s), f.payload.message))
      else Err(KeyError)
  }

  /** A delivered channel name is exactly the one the frame was sent on: two
      different byte strings never reach a listener under the same name. */
  lemma ConsumedChannelWasSent(listeners: map<Value, Component>, f: Frame)
    requires Consume(listeners, f).Ok?
    ensures Utf8.Encode(Consume(listeners, f).value.channel.s) == f.channel
  {
    Utf8.EncodeDecode(f.channel);
  }

  predicate IsPrefix(p: seq<Utf8.byte>, b: seq<Utf8.byte>)
  {
    |p| <= |b| && b[..|p|] == p
  }

  /** Whether the SUB socket's subscriptions let a frame through: ZeroMQ
      matches each subscription as a prefix of the first frame part. */
  predicate PassesFilter(topics: seq<seq<Utf8.byte>>, f: Frame)
  {
    exists i :: 0 <= i < |topics| && IsPrefix(topics[i], f.channel)
  }

  /** The frames of a broadcast that a subscriber receives, in broadcast order. */
  function Filter(topics: seq<seq<Utf8.byte>>, frames: seq<Frame>): (r: seq<Frame>)
    ensures forall f :: f in r <==> f in frames && PassesFilter(topics, f)
    ensures (forall f :: f in frames ==> PassesFilter(topics, f)) ==> r == frames
    ensures forall f :: multiset(r)[f] == if PassesFilter(topics, f) then multiset(frames)[f] else 0
  {
    if frames == [] then []
    else
      assert frames == [frames[0]] + frames[1..];
      if PassesFilter(topics, frames[0]) then [frames[0]] + Filter(topics, frames[1..])
      else Filter(topics, frames[1..])
  }

  /** Filtering a broadcast in two parts gives the filtered parts one after
      the other: what a subscriber receives keeps the broadcast order. */
  lemma {:induction false} FilterAppend(topics: seq<seq<Utf8.byte>>, a: seq<Frame>, b: seq<Frame>)
    ensures Filter(topics, a + b) == Filter(topics, a) + Filter(topics, b)
    decreases |a|
  {
    if a == [] {
      assert a + b == b;
    } else {
      assert (a + b)[0] == a[0] && (a + b)[1..] == a[1..] + b;
      FilterAppend(topics, a[1..], b);
      var head := if PassesFilter(topics, a[0]) then [a[0]] else [];
      assert Filter(topics, a) == head + Filter(topics, a[1..]);
      assert Filter(topics, a + b) == head + Filter(topics, a[1..] + b);
      AppendAssoc(head, Filter(topics, a[1..]), Filter(topics, b));
    }
  }

  lemma AppendAssoc(x: seq<Frame>, y: seq<Frame>, z: seq<Frame>)
    ensures x + (y + z) == (x + y) + z
  {
  }

  /** The listener registrations and SUB topics after `subscribe(channels, listener)`
      on a client, with the exception that stopped it: each channel is entered in
      the listener map first (a list or dict channel is unhashable and raises
      TypeError before anything is written), then handed to the SUB socket,
      which accepts only str topics and raises TypeError for any other value. */
  function Register(listeners: map<Value, Component>, topics: seq<seq<Utf8.byte>>,
                    channels: seq<Value>, listener: Component)
    : (r: (map<Value, Component>, seq<seq<Utf8.byte>>, Option<Exc>))
    ensures r.2.None? <==> forall i :: 0 <= i < |channels| ==> channels[i].VStr?
    ensures r.2.Some? ==> r.2 == Some(TypeError)
    decreases |channels|
  {
    if channels == [] then (listeners, topics, None)
    else
      var c := channels[0];
      if !Hashable(c) then (listeners, topics, Some(TypeError))
      else if !c.VStr? then (listeners[c := listener], topics, Some(TypeError))
      else
        var rest := Register(listeners[c := listener], topics + [Utf8.Encode(c.s)], channels[1..], listener);
        assert forall i :: 0 <= i < |channels[1..]| ==> channels[1..][i] == channels[i + 1];
        rest
  }

  /** The listener map after subscribe: every channel it got to is mapped to
      the listener (all of them when it succeeds), earlier registrations of
      other channels are kept, and nothing else is added. */
  lemma {:induction false} RegisterListeners(listeners: map<Value, Component>, topics: seq<seq<Utf8.byte>>,
                                             channels: seq<Value>, listener: Component)
    ensures var r := Register(listeners, topics, channels, listener);
      r.2.None? ==> forall c :: c in channels ==> c in r.0 && r.0[c] == listener
    ensures var r := Register(listeners, topics, channels, listener);
      (forall c :: c in listeners ==> c in r.0)
      && (forall c :: c in r.0 ==> c in listeners || (c in channels && Hashable(c)))
      && (forall c :: c in listeners && c !in channels ==> r.0[c] == listeners[c])
    decreases |channels|
  {
    if channels != [] && channels[0].VStr? {
      var c := channels[0];
      RegisterListeners(listeners[c := listener], topics + [Utf8.Encode(c.s)], channels[1..], listener);
      assert forall x :: x in channels ==> x == c || x in channels[1..];
    }
  }

  /** The SUB topics after subscribe: the earlier ones are kept, and on success
      the UTF-8 encoding of each channel follows, in order. */
  lemma {:induction false} RegisterTopics(listeners: map<Value, Component>, topics: seq<seq<Utf8.byte>>,
                                          channels: seq<Value>, listener: Component)
    ensures var r := Register(listeners, topics, channels, listener);
      |r.1| >= |topics| && r.1[..|topics|] == topics
    ensures var r := Register(listeners, topics, channels, listener);
      r.2.None? ==>
        |r.1| == |topics| + |channels|
        && forall i :: 0 <= i < |channels| ==> r.1[|topics| + i] == Utf8.Encode(channels[i].s)
    decreases |channels|
  {
    if channels != [] && channels[0].VStr? {
      var c := channels[0];
      var t := topics + [Utf8.Encode(c.s)];
      RegisterTopics(listeners[c := listener], t, channels[1..], listener);
      var r := Register(listeners, topics, channels, listener);
      assert r.1[..|t|][..|topics|] == r.1[..|topics|];
      if r.2.None? {
        forall i | 0 <= i < |channels|
          ensures r.1[|topics| + i] == Utf8.Encode(channels[i].s)
        {
          if i > 0 {
            assert channels[1..][i - 1] == channels[i];
          }
        }
      }
    }
  }

  /** Whether a listener call raises: the listener is a component's
      on_message, whose outcome is part of its behaviour. */
  predicate ListenerRaises(d: Delivery)
  {
    d.listener.behaviour.onMessage.Some?
  }

  /** Whether handling a frame ends in an exception. */
  predicate Stops(o: Result<Delivery>)
  {
    o.Err? || ListenerRaises(o.value)
  }

  /** What handling each frame of a queue would do, in queue order. */
  function Outcomes(listeners: map<Value, Component>, queue: seq<Frame>): (r: seq<Result<Delivery>>)
    ensures |r| == |queue|
  {
    if queue == [] then [] else [Consume(listeners, queue[0])] + Outcomes(listeners, queue[1..])
  }

  /** The outcome at each position is that of handling the frame there. */
  lemma {:induction false} OutcomeAt(listeners: map<Value, Component>, queue: seq<Frame>, i: nat)
    requires i < |queue|
    ensures Outcomes(listeners, queue)[i] == Consume(listeners, queue[i])
    decreases i
  {
    if i > 0 {
      OutcomeAt(listeners, queue[1..], i - 1);
      assert queue[1..][i - 1] == queue[i];
    }
  }

  datatype BatchResult = BatchResult(consumed: nat, deliveries: seq<Delivery>, failed: bool)

  /** One poll batch over the outcomes of the queued frames: at most `events`
      frames are taken; an exception (undecodable channel, no listener for the
      exact channel, a listener that raises) is logged and ends the batch. */
  function Run(outcomes: seq<Result<Delivery>>, events: nat): (r: BatchResult)
    ensures r.consumed <= |outcomes| && r.consumed <= events
    ensures |r.deliveries| <= r.consumed
    ensures !r.failed ==> r.consumed == |r.deliveries| && (r.consumed == events || r.consumed == |outcomes|)
    decreases events
  {
    if events == 0 || outcomes == [] then BatchResult(0, [], false)
    else match outcomes[0]
      case Err(_) => BatchResult(1, [], true)
      case Ok(d) =>
        if ListenerRaises(d) then BatchResult(1, [d], true)
        else
          var rest := Run(outcomes[1..], events - 1);
          BatchResult(1 + rest.consumed, [d] + rest.deliveries, rest.failed)
  }

  /** What one poll batch of a client does: how many frames it takes off the
      SUB socket, the listener calls it makes, and whether it ended on an
      exception. */
  function Batch(listeners: map<Value, Component>, queue: seq<Frame>, events: nat): (r: BatchResult)
    ensures r.consumed <= |queue| && r.consumed <= events
    ensures |r.deliveries| <= r.consumed
    ensures !r.failed ==> r.consumed == |r.deliveries| && (r.consumed == events || r.consumed == |queue|)
  {
    Run(Outcomes(listeners, queue), events)
  }

  /** The deliveries of a run are the outcomes it took, in order, and only
      the last outcome it took can be one that stops it. */
  lemma {:induction false} RunInOrder(outcomes: seq<Result<Delivery>>, events: nat)
    ensures var r := Run(outcomes, events);
      forall i :: 0 <= i < |r.deliveries| ==> outcomes[i] == Ok(r.deliveries[i])
    ensures var r := Run(outcomes, events);
      forall i :: 0 <= i < r.consumed && (i < r.consumed - 1 || !r.failed) ==> !Stops(outcomes[i])
    ensures var r := Run(outcomes, events);
      r.failed ==> r.consumed >= 1 && Stops(outcomes[r.consumed - 1])
    decreases events
  {
    var r := Run(outcomes, events);
    if events > 0 && outcomes != [] && !Stops(outcomes[0]) {
      var rest := Run(outcomes[1..], events - 1);
      RunInOrder(outcomes[1..], events - 1);
      forall i | 0 <= i < |r.deliveries|
        ensures outcomes[i] == Ok(r.deliveries[i])
      {
        if i > 0 {
          assert r.deliveries[i] == rest.deliveries[i - 1];
          assert outcomes[1..][i - 1] == outcomes[i];
        }
      }
      forall i | 0 <= i < r.consumed && (i < r.consumed - 1 || !r.failed)
        ensures !Stops(outcomes[i])
      {
        if i > 0 {
          assert outcomes[1..][i - 1] == outcomes[i];
        }
      }
      if r.failed {
        assert outcomes[1..][rest.consumed - 1] == outcomes[r.consumed - 1];
      }
    }
  }

  /** The listener calls of a batch are those of its first frames, in queue order. */
  lemma BatchCallsInOrder(listeners: map<Value, Component>, queue: seq<Frame>, events: nat)
    ensures var r := Batch(listeners, queue, events);
      forall i :: 0 <= i < |r.deliveries| ==> Consume(listeners, queue[i]) == Ok(r.deliveries[i])
  {
    var os := Outcomes(listeners, queue);
    RunInOrder(os, events);
    var r := Run(os, events);
    forall i | 0 <= i < |r.deliveries|
      ensures Consume(listeners, queue[i]) == Ok(r.deliveries[i])
    {
      OutcomeAt(listeners, queue, i);
    }
  }

  /** Only the last call of a batch can be to a listener that raises. */
  lemma OnlyLastListenerRaises(listeners: map<Value, Component>, queue: seq<Frame>, events: nat)
    ensures var r := Batch(listeners, queue, events);
      forall i :: 0 <= i < |r.deliveries| && (i < |r.deliveries| - 1 || !r.failed) ==> !ListenerRaises(r.deliveries[i])
  {
    var os := Outcomes(listeners, queue);
    RunInOrder(os, events);
    var r := Run(os, events);
    forall i | 0 <= i < |r.deliveries| && (i < |r.deliveries| - 1 || !r.failed)
      ensures !ListenerRaises(r.deliveries[i])
    {
      OutcomeAt(listeners, queue, i);
      assert !Stops(os[i]);
    }
  }

  /** A batch that ends on an exception ends on the frame that raised it. */
  lemma BatchStopsAtFailure(listeners: map<Value, Component>, queue: seq<Frame>, events: nat)
    ensures var r := Batch(listeners, queue, events);
      r.failed ==> r.consumed >= 1 && Stops(Consume(listeners, queue[r.consumed - 1]))
  {
    var os := Outcomes(listeners, queue);
    RunInOrder(os, events);
    var r := Run(os, events);
    if r.failed {
      OutcomeAt(listeners, queue, r.consumed - 1);
    }
  }

  class ZmqCAN {
    const serverMode: bool
    /** Server: frames pushed by clients and not yet received (PULL socket). */
    var pullQueue: seq<Frame>
    /** Server: frames sent on the PUB socket, in order. */
    var pubSent: seq<Frame>
    /** Client: frames sent on the PUSH socket, in order. */
    var pushSent: seq<Frame>
    /** Client: the SUB socket's subscriptions. */
    var topics: seq<seq<Utf8.byte>>
    /** Client: frames received by the SUB socket and not yet consumed. */
    var subQueue: seq<Frame>
    /** Client only: the listener registered for each channel. */
    var listeners: Option<map<Value, Component>>
    /** Client: the listener calls made so far, in order. */
    var deliveries: seq<Delivery>
    /** Errors logged by the run loop. */
    var errorsLogged: nat

    ghost predicate Valid()
      reads this
    {
      listeners.Some? <==> !serverMode
    }

    /** Only a client-mode instance has a listener map, and it starts empty. */
    constructor(serverMode: bool)
      ensures Valid() && this.serverMode == serverMode
      ensures listeners == if serverMode then None else Some(map[])
      ensures pullQueue == [] && pubSent == [] && pushSent == [] && topics == [] && subQueue == []
      ensures deliveries == [] && errorsLogged == 0
    {
      this.serverMode := serverMode;
      listeners := if serverMode then None else Some(map[]);
      pullQueue, pubSent, pushSent, topics, subQueue := [], [], [], [], [];
      deliveries, errorsLogged := [], 0;
    }

    /** start() always asks for run() to be scheduled. */
    method Start() returns (longRunning: bool)
      ensures longRunning
    {
      longRunning := true;
    }

    /** publish(channel, message): exactly one frame, on the PUB socket in
        server mode and on the PUSH socket in client mode; its outcome is the
        one publish_message sees from a ZmqCAN bus. */
    method Publish(channel: Value, message: Value) returns (err: Option<Exc>)
      modifies this`pubSent, this`pushSent
      ensures !channel.VStr? ==> err == Some(AttributeError) && pubSent == old(pubSent) && pushSent == old(pushSent)
      ensures channel.VStr? ==> err == None
      ensures err == PublishOutcome(ZmqBus(serverMode), channel)
      ensures channel.VStr? && serverMode ==>
        pubSent == old(pubSent) + [MakeFrame(channel, message).value] && pushSent == old(pushSent)
      ensures channel.VStr? && !serverMode ==>
        pushSent == old(pushSent) + [MakeFrame(channel, message).value] && pubSent == old(pubSent)
    {
      var frame := MakeFrame(channel, message);
      if frame.Err? {
        return Some(AttributeError);
      }
      if serverMode {
        pubSent := pubSent + [frame.value];
      } else {
        pushSent := pushSent + [frame.value];
      }
      err := None;
    }

    /** subscribe(channels, listener): a server has no listener map, so any
        channel raises AttributeError; a client registers the listener for each
        channel in turn, a later registration replacing an earlier one, and
        stops with TypeError at an unhashable or non-str channel. */
    method Subscribe(channels: seq<Value>, listener: Component) returns (err: Option<Exc>)
      requires Valid()
      modifies this`listeners, this`topics
      ensures Valid()
      ensures serverMode ==> listeners == old(listeners) && topics == old(topics)
      ensures serverMode ==> err == if channels == [] then None else Some(AttributeError)
      ensures !serverMode ==> (listeners.value, topics, err) == Register(old(listeners).value, old(topics), channels, listener)
    {
      if serverMode {
        err := if channels == [] then None else Some(AttributeError);
        return;
      }
      var i := 0;
      err := None;
      while i < |channels|
        invariant 0 <= i <= |channels| && listeners.Some?
        invariant Register(old(listeners).value, old(topics), channels, listener)
               == Register(listeners.value, topics, channels[i..], listener)
      {
        var c := channels[i];
        if !Hashable(c) {
          err := Some(TypeError);
          return;
        }
        listeners := Some(listeners.value[c := listener]);
        if !c.VStr? {
          err := Some(TypeError);
          assert channels[i..][1..] == channels[i + 1..];
          return;
        }
        topics := topics + [Utf8.Encode(c.s)];
        assert channels[i..][1..] == channels[i + 1..];
        i := i + 1;
      }
    }

    /** Frames from the broker's PUB socket arriving at this client's SUB
        socket: only those its subscriptions let through, in broadcast order. */
    method Receive(frames: seq<Frame>)
      modifies this`subQueue
      ensures subQueue == old(subQueue) + Filter(topics, frames)
    {
      subQueue := subQueue + Filter(topics, frames);
    }

    /** The broker's run loop for `iterations` turns: each turn receives the
        oldest pulled frame and re-sends it unchanged on the PUB socket (a turn
        with nothing pulled waits and sends nothing). */
    method RunBroker(iterations: nat)
      requires serverMode
      modifies this`pullQueue, this`pubSent
      ensures var k := if iterations <= |old(pullQueue)| then iterations else |old(pullQueue)|;
        pubSent == old(pubSent) + old(pullQueue)[..k] && pullQueue == old(pullQueue)[k..]
    {
      var n := 0;
      while n < iterations
        invariant 0 <= n <= iterations
        invariant var k := if n <= |old(pullQueue)| then n else |old(pullQueue)|;
          pubSent == old(pubSent) + old(pullQueue)[..k] && pullQueue == old(pullQueue)[k..]
      {
        if pullQueue != [] {
          var received := pullQueue[0];
          pullQueue := pullQueue[1..];
          pubSent := pubSent + [received];
        }
        n := n + 1;
      }
    }

    /** One turn of a client's run loop: `range(events)` is taken over the
        result of the SUB socket's poll, which is an event mask (0, or 1 for
        POLLIN when a message is waiting), so the source takes at most one
        message per turn. The model takes any count: each message is
        received, decoded and handed to its listener until the count is used
        up or an exception ends the batch. */
    method PollOnce(events: nat)
      requires Valid() && !serverMode
      modifies this`subQueue, this`deliveries, this`errorsLogged
      ensures var b := Batch(old(listeners).value, old(subQueue), events);
        subQueue == old(subQueue)[b.consumed..]
        && deliveries == old(deliveries) + b.deliveries
        && errorsLogged == old(errorsLogged) + (if b.failed then 1 else 0)
    {
      var n, taken, failed := ConsumeBatch(listeners.value, subQueue, events);
      subQueue := subQueue[n..];
      deliveries := deliveries + taken;
      if failed {
        errorsLogged := errorsLogged + 1;
      }
    }
  }

  /** The inner `for i in range(events)` loop of a client's run loop over the
      frames waiting on its SUB socket: it handles frames until the event count
      or the queue is used up, or until one raises. */
  method ConsumeBatch(ls: map<Value, Component>, q: seq<Frame>, events: nat)
    returns (n: nat, taken: seq<Delivery>, failed: bool)
    ensures Batch(ls, q, events) == BatchResult(n, taken, failed)
  {
    ghost var os := Outcomes(ls, q);
    ghost var rest := Run(os, events);
    taken, failed, n := [], false, 0;
    assert os[n..] == os;
    assert Run(os, events) == Then(0, [], rest);
    while n < events && n < |q| && !failed
      invariant n <= |q| && Run(os, events) == Then(n, taken, rest)
      invariant !failed ==> n <= events && rest == Run(os[n..], events - n)
      invariant failed ==> rest == BatchResult(0, [], true)
    {
      taken, failed, rest := TakeFrame(ls, q, os, events, n, taken);
      n := n + 1;
    }
    ThenEnd(os, events, n, taken, failed, rest);
  }

  /** When the loop stops, nothing is left of the batch. */
  lemma ThenEnd(os: seq<Result<Delivery>>, events: nat, n: nat, taken: seq<Delivery>, failed: bool, rest: BatchResult)
    requires n <= |os|
    requires !failed ==> n <= events && rest == Run(os[n..], events - n) && (n == events || n == |os|)
    requires failed ==> rest == BatchResult(0, [], true)
    ensures Then(n, taken, rest) == BatchResult(n, taken, failed)
  {
    assert taken + [] == taken;
  }

  /** One turn of that loop: the frame is handled, its delivery (if any) is
      added to those taken so far, and an exception ends the batch; `rest` is
      what remains of the batch after it. */
  method TakeFrame(ls: map<Value, Component>, q: seq<Frame>, ghost os: seq<Result<Delivery>>,
                   events: nat, n: nat, taken: seq<Delivery>)
    returns (taken': seq<Delivery>, failed: bool, ghost rest: BatchResult)
    requires os == Outcomes(ls, q) && n < |q| && n < events
    ensures Then(n, taken, Run(os[n..], events - n)) == Then(n + 1, taken', rest)
    ensures !failed ==> rest == Run(os[n + 1..], events - (n + 1))
    ensures failed ==> rest == BatchResult(0, [], true)
  {
    RunAdvance(os, events, n, taken);
    OutcomeAt(ls, q, n);
    var d := Consume(ls, q[n]);
    if d.Err? {
      assert taken + [] == taken;
      return taken, true, BatchResult(0, [], true);
    }
    taken' := taken + [d.value];
    failed := ListenerRaises(d.value);
    if failed {
      assert taken' + [] == taken';
      rest := BatchResult(0, [], true);
    } else {
      rest := Run(os[n + 1..], events - (n + 1));
    }
  }

  /** A batch's first `n` frames taken, with their deliveries, followed by the rest. */
  function Then(n: nat, taken: seq<Delivery>, rest: BatchResult): BatchResult
  {
    BatchResult(n + rest.consumed, taken + rest.deliveries, rest.failed)
  }

  /** One outcome further into the run, from the point of view of the whole run. */
  lemma RunAdvance(os: seq<Result<Delivery>>, events: nat, n: nat, taken: seq<Delivery>)
    requires n < |os| && n < events
    ensures Then(n, taken, Run(os[n..], events - n)) ==
        if os[n].Err? then BatchResult(n + 1, taken, true)
        else if ListenerRaises(os[n].value) then BatchResult(n + 1, taken + [os[n].value], true)
        else Then(n + 1, taken + [os[n].value], Run(os[n + 1..], events - (n + 1)))
  {
    assert os[n..][0] == os[n];
    assert os[n..][1..] == os[n + 1..];
    if os[n].Err? {
      assert taken + [] == taken;
    } else if !ListenerRaises(os[n].value) {
      var rest := Run(os[n + 1..], events - (n + 1));
      assert taken + ([os[n].value] + rest.deliveries) == (taken + [os[n].value]) + rest.deliveries;
    }
  }

  /** A message published on a channel a client subscribed to gets through
      the client's prefix filter and reaches the listener registered for that
      channel with the original channel name and message. */
  lemma PublishedMessageReachesListener(c: string, m: Value, listeners: map<Value, Component>,
                                        topics: seq<seq<Utf8.byte>>)
    requires VStr(c) in listeners && Utf8.Encode(c) in topics
    ensures MakeFrame(VStr(c), m).Ok?
    ensures PassesFilter(topics, MakeFrame(VStr(c), m).value)
    ensures Consume(listeners, MakeFrame(VStr(c), m).value) == Ok(Delivery(listeners[VStr(c)], VStr(c), m))
  {
    var f := MakeFrame(VStr(c), m).value;
    var i :| 0 <= i < |topics| && topics[i] == Utf8.Encode(c);
    assert IsPrefix(topics[i], f.channel);
  }

  /** A subscription to a channel also lets through frames on every longer
      channel name that starts with it (a subscription to "steer" passes
      "steering"), but the listener lookup is by exact name, so when no
      listener is registered under the longer name, consuming such a frame
      raises KeyError and no listener is called. */
  lemma PrefixSubscriptionMismatch(s: string, t: string, listeners: map<Value, Component>, m: Value)
    requires VStr(s + t) !in listeners
    ensures MakeFrame(VStr(s + t), m).Ok?
    ensures PassesFilter([Utf8.Encode(s)], MakeFrame(VStr(s + t), m).value)
    ensures Consume(listeners, MakeFrame(VStr(s + t), m).value) == Err(KeyError)
  {
    var f := MakeFrame(VStr(s + t), m).value;
    Utf8.EncodePrefix(s, t);
    assert IsPrefix(Utf8.Encode(s), f.channel);
    assert [Utf8.Encode(s)][0] == Utf8.Encode(s);
  }

  /** Registering a listener twice for a channel keeps only the later one. */
  lemma LaterSubscriptionReplaces(listeners: map<Value, Component>, topics: seq<seq<Utf8.byte>>,
                                  c: string, first: Component, second: Component)
    ensures var r1 := Register(listeners, topics, [VStr(c)], first);
            var r2 := Register(r1.0, r1.1, [VStr(c)], second);
            r2.2.None? && VStr(c) in r2.0 && r2.0[VStr(c)] == second
  {
    var r1 := Register(listeners, topics, [VStr(c)], first);
    RegisterListeners(r1.0, r1.1, [VStr(c)], second);
  }
}
