# A verified model of the mycar component runtime

The car runtime is a set of components that talk over a publish/subscribe
bus (the "CAN"). A supervisor, `Car`, builds the components from the
`components` section of a configuration and keeps them in a registry keyed
by class name. It hands each component the bus and starts them in
registry order. This project models that runtime in Dafny and proves what
its code promises:

- `component.py` — the base component. It holds the channel lists and a bus
  handle. `publish_message` pairs values with channels by position and logs
  the count-mismatch warning once. Modelled in `component.dfy`.
- `car.py` — the supervisor. It selects each class's arguments and pops the
  reserved `subscription`/`publication` keys out of the configuration. It
  keeps the registry and its insertion order, detects the bus and wires it,
  and runs `start`/`shutdown` in registry order. Modelled in `car.dfy`.
- `zmq_can.py` — the ZeroMQ bus. A server-mode instance relays what clients
  push. A client sends frames of (UTF-8 channel, pickled message), filters
  what it receives by prefix, and dispatches on the exact channel. Modelled
  in `zmq_can.dfy`; the UTF-8 codec and its round trips are in `utf8.dfy`.
- `map_range.py` — linear mapping between ranges, with its
  division-by-zero cases. Modelled in `map_range.dfy`.
- `actuator.py` — the steering servo and throttle ESC. Each turns a message
  into at most one command for the PCA9685 board. Modelled in `actuator.dfy`.
- `web_controller.py` — the `/control` request handler and the image store.
  Modelled in `web_controller.dfy`.
- `joystick.py` — the Linux joystick reader. It builds the axis and button
  name maps, decodes `js_event` records, and maps presses and stick moves to
  the five published outputs. Modelled in `joystick.dfy`.
- `pid.py` — the PID line follower's bookkeeping. This covers the
  cross-track error, the steering law with integrator reset and dynamic
  clamp, the twiddle tuning step, and message dispatch. Modelled in `pid.dfy`.
- `camera.py` — the GStreamer pipeline string and the capture choice.
  Modelled in `camera.dfy`.

`py.dfy` holds the Python semantics the models share. It has one datatype
for Python values and one for exceptions. It also has truthiness, `int()`
on reals and on strings, `round(x, 2)`, `%x`/`%d` formatting, and dict
operations over insertion-ordered entry lists.

## How the code is followed

Where the behaviour of the code and its documentation differ, the model
follows the code:

- `publish_message` with fewer values than channels publishes the first
  ones and then raises IndexError, because `content[i]` is indexed past its
  end. Only the warning is non-fatal. An exception from the bus's own
  `publish` ends it too, after the call that raised (`Components.Publishes`).
- `Car._start_component` (car.py:114) starts `Thread(target=run)` with no
  arguments. The `run(self, stop_event)` of ZmqCAN (zmq_can.py:46), the
  joystick (joystick.py:182), the line follower (pid.py:243) and the web
  controller (web_controller.py:45) then raise TypeError in that thread, and
  their loops are never reached through `Car`; only the camera's and the
  base class's `run(self)` run. The supervisor records the scheduling of
  run() (`Supervisor.Launch`). Each run loop is modelled on its own, as
  it would behave if it were given a stop event.
- The joystick's own name maps give the last duplicate key the win, as a
  dict comprehension does.
- `_pid_steering` weighs the change of the error with coefficient 1 and its
  integral with coefficient 2, as the code indexes them. The docstring names
  them the other way round.
- In train mode the constructor divides the coefficients by ten. With the
  default Python list this raises TypeError, so train mode needs a saved
  NumPy array (`Pid.DefaultCoeffsCannotTrain`).
- A stop signal with no training step taken raises ZeroDivisionError inside
  the tuning step. `moving` then stays true (`Pid.PidLineFollower.OnMessage`).
- A class that does not override `start`, `shutdown` or `on_message` keeps
  the base class's TypeError. ZmqCAN defines no `shutdown`, so
  `Car.shutdown` stops with TypeError at the bus
  (`Supervisor.ShutdownHaltsAtZmqCan`).
- A non-iterable `publication` value is appended to the subscription list,
  and a string channel is iterable, so it is split into characters
  (`Supervisor.SubscriptionAfter`).
- `sys.platform` on Windows is `win32`, which does not contain `windows`.
  Only macOS therefore opens the camera device directly
  (`Camera.PlatformChoice`).

Polymorphism is represented by data. Each component carries its kind
(plain, CAN, or ZmqCAN in server or client mode), which is what
`isinstance` sees. It also carries the outcome of its `start`, `shutdown`
and `on_message` (`Behaviour`). An instance of ZmqCAN kind always has ZmqCAN's own
outcomes (`Components.ZmqCanBehaviour`), whatever the class catalog says.
These outcomes are fixed per class, except
that a `start` which checks the subscription (pid.py's) depends on how many
channels the instance has. Each component module also models its methods
in full, with the inputs they depend on.

## Model

| member | source | states |
|---|---|---|
| Components.Zip | src/components/component.py:54-55 | the publish calls pair channel i with value i, in index order, one per channel as long as a value exists; extra values are dropped |
| Components.WarnsAtMostOnce | src/components/component.py:49-52 | over any sequence of publish_message calls the mismatch warning is logged at most once, and never once the flag is set |
| Components.FlagSticks | src/components/component.py:49-52 | after a sequence of calls the flag is set exactly when it was set before or some call with a bus passed a mismatched number of values |
| Components.Component.constructor | src/components/component.py:11-15 | a new component has no subscription, no publication, no bus and the warned flag clear |
| Components.Publishes | src/components/component.py:54-55 | the loop makes at most one call per channel and per value, and on a bus other than a ZmqCAN at most one, since that call raises |
| Components.PublishesZip | src/components/component.py:54-55 | the calls made are a prefix of Zip(channels, content); the loop completes exactly when every channel has a value and the bus accepts every channel, and then all of Zip is published |
| Components.PublishStops | src/components/component.py:54-55 | a failed loop either ran out of values after publishing every value it had (IndexError) or stopped at its last call with that call's own exception, every earlier call having succeeded |
| Components.PublishesOnZmq | src/components/component.py:54-55 | on a ZmqCAN with str channels all of Zip is published, and the only error is IndexError when there are fewer values than channels |
| Components.Component.PublishMessage | src/components/component.py:41-55 | with no bus: ValueError, no publish call, flag unchanged; with a bus: the calls and the error are those of Publishes on the bus's kind (the bus's own exception stops the loop), the warning is logged exactly when the flag goes from clear to set; only the flag can change |
| Ranges.MapRange | src/utils/map_range.py:4-14 | ZeroDivisionError exactly when the output or the input range is empty; otherwise yMin + (x - xMin) * (yMax - yMin) / (xMax - xMin) |
| Ranges.MapsMinToMin | src/utils/map_range.py:8-14 | the lower end of the input range maps to the lower end of the output range |
| Ranges.MapsMaxToMax | src/utils/map_range.py:8-14 | the upper end of the input range maps to the upper end of the output range |
| Ranges.SlopeInverse | src/utils/map_range.py:8-12 | the slopes of a mapping and of its inverse multiply to one |
| Ranges.RoundTrip | src/utils/map_range.py:4-14 | mapping back with the ranges swapped returns the original value |
| Ranges.Increasing | src/utils/map_range.py:8-14 | the mapping is monotonically increasing when both ranges point the same way |
| Ranges.Decreasing | src/utils/map_range.py:8-14 | the mapping is monotonically decreasing when the ranges point opposite ways |
| Py.Number | src/components/actuator.py:52-54 | a message value takes part in arithmetic exactly when it is a bool, int or float, with its numeric value |
| Py.Trunc | src/components/actuator.py:52-54 | int() of a real truncates toward zero |
| Py.TruncOfInteger | src/components/actuator.py:52-54 | int() of an integral real is that integer |
| Py.ParseInt | src/components/web_controller.py:67-72 | int() of a string fails only with ValueError |
| Py.ParseDecimal | src/components/web_controller.py:67-72 | int() reads back the decimal form of every integer |
| Py.IterItems | src/car.py:92-97 | iterating a string gives its characters, a list its items, a dict its keys |
| Py.Pop | src/car.py:89-90 | dict.pop(k, None) removes every entry for k and nothing else; it gives the value stored under k (Lookup) when k is present and None when k is absent |
| Py.LookupWithout | src/car.py:89-90 | popping one key keeps every other key with the value stored under it |
| Py.Lookup | src/car.py:80-81 | indexing a dict by a present key gives the value stored under it |
| Py.Replace | src/car.py:89-90 | writing a dict entry keeps every key's position and changes only that key's value |
| Py.LookupReplace | src/car.py:89-90 | reading a key after writing it gives the value written |
| Py.Round2 | src/components/joystick.py:172-179 | round(x, 2) is within 0.005 of x |
| Py.RoundHalfEven | src/components/joystick.py:172-179 | Python's round() gives an integer within 0.5 of its argument |
| Py.Round2OfHundredths | src/components/joystick.py:172-179 | round(x, 2) leaves an exact number of hundredths unchanged |
| Py.HexLayout | src/components/joystick.py:92-104 | the zero-padded %0Nx form has at least N characters, ends with the hex digits of the code and is padded with '0' |
| Py.DecimalString | src/components/camera.py:67-71 | %d of an integer is non-empty and starts with '-' exactly when it is negative |
| Utf8.DecodeEncode | src/components/zmq_can.py:60-72 | decoding the UTF-8 encoding of a channel name gives the name back |
| Utf8.EncodeDecode | src/components/zmq_can.py:60-72 | a byte string that decodes is the encoding of what it decodes to |
| Utf8.EncodePrefix | src/components/zmq_can.py:79-81 | the encoding of a concatenation is the concatenation of the encodings |
| ZmqCan.MakeFrame | src/components/zmq_can.py:65-72 | publish builds a frame only for a str channel (AttributeError otherwise); its first part decodes to the channel and its payload unpickles to the message |
| ZmqCan.Consume | src/components/zmq_can.py:59-61 | a frame is delivered exactly when its channel decodes and a listener is registered under exactly that name; the delivery is (that listener, channel, message) |
| ZmqCan.ConsumedChannelWasSent | src/components/zmq_can.py:59-61 | the delivered channel name is exactly the one the frame was sent with |
| ZmqCan.Filter | src/components/zmq_can.py:57-59 | the SUB socket keeps exactly the frames some subscription is a prefix of, each as many times as it arrived, and drops every other frame |
| ZmqCan.FilterAppend | src/components/zmq_can.py:57-59 | filtering frames that arrive in two batches gives the first batch's survivors followed by the second's, so arrival order is kept |
| ZmqCan.Register | src/components/zmq_can.py:74-81 | subscribe completes exactly when every channel is a str, and otherwise raises TypeError (an unhashable channel before its map entry is written) |
| ZmqCan.RegisterListeners | src/components/zmq_can.py:79-80 | on success every channel is mapped to the new listener; other channels keep theirs; the only keys added are hashable channels, so a list or dict channel is never written |
| ZmqCan.RegisterTopics | src/components/zmq_can.py:79-81 | the earlier SUB topics are kept and, on success, the encodings of the channels follow in order |
| ZmqCan.LaterSubscriptionReplaces | src/components/zmq_can.py:79-80 | subscribing a second listener to a channel leaves only the second one |
| ZmqCan.Outcomes | src/components/zmq_can.py:58-61 | one handling outcome per queued frame |
| ZmqCan.OutcomeAt | src/components/zmq_can.py:58-61 | the outcome at each position is that of handling the frame there |
| ZmqCan.Run | src/components/zmq_can.py:55-63 | a poll batch takes at most `events` frames; without a failure it delivers every frame it takes and stops only at the count or the end of the queue |
| ZmqCan.Batch | src/components/zmq_can.py:55-63 | the same bounds for a client's batch over its queue |
| ZmqCan.RunInOrder | src/components/zmq_can.py:55-63 | the deliveries are the first outcomes taken, in order, and only the last outcome taken can stop the batch |
| ZmqCan.BatchCallsInOrder | src/components/zmq_can.py:58-61 | the listener calls of a batch are those of its first frames, in queue order |
| ZmqCan.OnlyLastListenerRaises | src/components/zmq_can.py:58-63 | only the last listener called in a batch can be one that raises |
| ZmqCan.BatchStopsAtFailure | src/components/zmq_can.py:58-63 | a batch that fails ends on the frame that failed, and skips the rest of the poll count |
| ZmqCan.PublishedMessageReachesListener | src/components/zmq_can.py:59-72 | a message published on a channel a client subscribed to passes its filter and reaches that channel's listener with the original channel and message |
| ZmqCan.PrefixSubscriptionMismatch | src/components/zmq_can.py:55-63 | a subscription also lets through frames on longer channel names; with no exact listener those raise KeyError and no listener is called |
| ZmqCan.ZmqCAN.constructor | src/components/zmq_can.py:17-40 | only a client has a listener map, and it starts empty; all queues start empty |
| ZmqCan.ZmqCAN.Start | src/components/zmq_can.py:42-44 | start always asks for run to be scheduled |
| ZmqCan.ZmqCAN.Publish | src/components/zmq_can.py:65-72 | exactly one frame, on the PUB socket in server mode and on the PUSH socket in client mode; a non-str channel sends nothing and raises AttributeError, which is the outcome PublishOutcome gives publish_message for a ZmqCAN bus |
| ZmqCan.ZmqCAN.Subscribe | src/components/zmq_can.py:74-81 | a client's listener map and topics become those of Register; a server has no listener map and raises AttributeError for any channel |
| ZmqCan.ZmqCAN.Receive | src/components/zmq_can.py:57-59 | arriving frames join the client's queue exactly as Filter lets them through |
| ZmqCan.ZmqCAN.RunBroker | src/components/zmq_can.py:47-53 | the broker re-sends the frames it pulls unchanged and in order |
| ZmqCan.ZmqCAN.PollOnce | src/components/zmq_can.py:54-63 | one poll turn takes and delivers what Batch says, logs one error when the batch fails, and leaves the rest queued |
| ZmqCan.ConsumeBatch | src/components/zmq_can.py:58-63 | the loop over one poll count computes Batch |
| Supervisor.Contains | src/car.py:78-83 | `name in value` is key membership for a dict, substring for a str, item membership for a list and TypeError otherwise |
| Supervisor.SelectArgs | src/car.py:78-83 | a null module config gives no arguments, a present class-name key gives its sub-map, otherwise the whole module map; TypeError only for a non-dict container holding the name or a non-container |
| Supervisor.Extract | src/car.py:89-90 | the two reserved keys are popped, giving the values stored under them (None when absent), and the keyword arguments are the other entries; a list raises TypeError and other values AttributeError |
| Supervisor.SubscriptionAfter | src/car.py:92-97 | an iterable subscription is extended item by item, a non-iterable one appended, and a non-iterable publication is appended to the subscription list too; the list has exactly that many entries |
| Supervisor.PublicationAfter | src/car.py:95-97 | only an iterable publication reaches the publication list |
| Supervisor.Prepare | src/car.py:78-91 | a null module config gives a call without arguments; otherwise the keyword arguments never contain the reserved keys and the configuration keeps its module keys |
| Supervisor.PreparePops | src/car.py:78-91 | a class with no entry of its own takes the whole module mapping: the reserved keys are popped out of that mapping in the configuration |
| Supervisor.SharedArgsPoppedOnce | src/car.py:78-91 | when several classes share a module map, the first pops the reserved keys, so the next gets the same arguments and no channels |
| Supervisor.Insert | src/car.py:101-102 | registry keys keep first-insertion order: a new name goes last, a repeated one keeps its place, and keys stay distinct |
| Supervisor.RegistryDistinct | src/car.py:122-132 | the registry's instances in key order are pairwise distinct |
| Supervisor.RegistryCovers | src/car.py:122-132 | the instances in key order are exactly the registered instances |
| Supervisor.SubscribeError | src/car.py:123-124 | subscribing through a client-mode ZmqCAN fails exactly when a channel is not a str; any other bus raises |
| Supervisor.ClientSubscribeError | src/car.py:123-124 | the supervisor's view of a client's subscribe error is the bus's own |
| Components.StartResult | src/components/pid.py:233-238 | a start that checks its subscriptions raises ValueError with fewer channels than it needs and returns True otherwise; any other start outcome is fixed by the class |
| Supervisor.Launch | src/car.py:111-116 | start is called first; run is scheduled exactly when start (given the instance's subscription) returns true, and an exception from start propagates |
| Supervisor.SubscribeBeforeStart | src/car.py:122-125 | a component with a bus and channels is subscribed before it is started; otherwise it is just started |
| Supervisor.StartCompletes | src/car.py:118-125 | Car.start completes exactly when no component's subscribe or start raises, and then every component was started; otherwise it stops at the first that raised |
| Supervisor.ShutdownStopsAtFirstRaise | src/car.py:127-132 | shutdown is called once on each component in order up to the first that raises, and on none after it |
| Supervisor.ShutdownHaltsAtZmqCan | src/car.py:127-132 | any component of ZmqCAN kind in the sequence (server or client) makes shutdown raise at the latest there, and nothing after it is shut down |
| Supervisor.Car.constructor | src/car.py:18-29 | an empty registry, no bus, nothing done yet |
| Supervisor.Car.InitializeComponentClass | src/car.py:73-99 | an unknown class raises AttributeError and a non-Component one TypeError; otherwise the arguments are prepared (popping the reserved keys from the configuration) and the new instance gets the popped channels |
| Supervisor.Car.AddComponent | src/car.py:101-109 | the instance is stored under its class name (a new name goes last in the order), a CAN becomes the bus, and a client-mode ZmqCAN raises TypeError after being stored |
| Supervisor.Car.ParseConfig | src/car.py:31-71 | on success every module declared a class, the registry order is the classes' first-insertion order, there is no client-mode bus, and the bus is wired: shared by reference, or a new started client per component |
| Supervisor.Car.AddModules | src/car.py:37-58 | the modules are processed in file order and the registry order accumulates their classes |
| Supervisor.Car.AddModule | src/car.py:37-58 | a module without a source file raises FileNotFoundError, one without classes ValueError, otherwise each class is added in source order |
| Supervisor.Car.AddClasses | src/car.py:56-58 | the classes of a module are added in order |
| Supervisor.Car.AddClass | src/car.py:53-58 | one class is initialized and added |
| Supervisor.Car.WireBus | src/car.py:60-71 | with no bus nothing changes; a plain CAN is shared by every component, the bus included; a ZmqCAN gives every component its own started client |
| Supervisor.Car.Start | src/car.py:118-125 | the events and the error are StartTrace over the registry in order |
| Supervisor.Car.Shutdown | src/car.py:127-132 | the events and the error are ShutdownTrace over the registry in order |
| Supervisor.ShareBus | src/car.py:70-71 | every component ends holding the same bus reference |
| Supervisor.GiveClients | src/car.py:64-69 | every component holds its own fresh client-mode ZmqCAN, each started and its run scheduled |
| Supervisor.NewInstance | src/car.py:85-97 | the new instance's channel lists are SubscriptionAfter and PublicationAfter of the popped values |
| Supervisor.StartAll | src/car.py:122-125 | the start loop computes StartTrace |
| Supervisor.ShutdownAll | src/car.py:131-132 | the shutdown loop computes ShutdownTrace |
| Actuator.MapValue | src/components/actuator.py:52-54 | the ranges are checked first (ZeroDivisionError), then a non-number value raises TypeError, otherwise map_range of its numeric value |
| Actuator.SteeringCommand | src/components/actuator.py:43-54 | zero gives set_angle(straight), None gives no command, other values set_angle of the truncated mapped value, errors exactly for a degenerate range or a non-number |
| Actuator.ThrottleCommand | src/components/actuator.py:81-85 | zero gives set_throttle 0, None no command, other values the mapped throttle, errors exactly for a degenerate range or a non-number |
| Actuator.FullLeft | src/components/actuator.py:52-54 | steering -1 commands the full-left angle |
| Actuator.FullRight | src/components/actuator.py:52-54 | steering 1 commands the full-right angle |
| Actuator.SteeringWithinServoRange | src/components/actuator.py:52-54 | with the defaults' orientation every non-zero steering value in [-1, 1] commands an angle between the two ends; 0 commands the straight angle whatever the ends (`Actuator.SteeringCommand`) |
| Actuator.FullReverse | src/components/actuator.py:84-85 | throttle -1 commands the minimum throttle |
| Actuator.FullForward | src/components/actuator.py:84-85 | throttle 1 commands the maximum throttle |
| Actuator.ThrottleWithinRange | src/components/actuator.py:84-85 | every non-zero throttle value in [-1, 1] commands a throttle between minimum and maximum; 0 commands throttle 0 whatever the range (`Actuator.ThrottleCommand`) |
| Actuator.PwmSteering.constructor | src/components/actuator.py:17-38 | the settings are kept and the angle starts straight |
| Actuator.PwmSteering.Start | src/components/actuator.py:40-41 | start returns None, so no run is scheduled |
| Actuator.PwmSteering.OnMessage | src/components/actuator.py:43-54 | the board receives exactly SteeringCommand's command, or nothing; an error leaves it untouched |
| Actuator.PwmThrottle.constructor | src/components/actuator.py:65-76 | the settings are kept and the throttle starts at zero |
| Actuator.PwmThrottle.Start | src/components/actuator.py:78-79 | start returns None, so no run is scheduled |
| Actuator.PwmThrottle.OnMessage | src/components/actuator.py:81-85 | the board receives exactly ThrottleCommand's command, or nothing; an error leaves it untouched |
| WebControl.Scale | src/components/web_controller.py:67-72 | a slider value maps to its fraction of the slider limit |
| WebControl.ScaleIsFraction | src/components/web_controller.py:67-72 | map_range from [-limit, limit] to [-1, 1] is division by the limit |
| WebControl.ControlStep | src/components/web_controller.py:67-76 | a request fails (with ValueError) exactly when a present steer or throttle is not an integer |
| WebControl.ControlStepFields | src/components/web_controller.py:67-76 | after a successful request steering is steer/100, throttle is throttle/170, record and autonomous are whether the value is exactly "true"; absent parameters keep their control |
| WebControl.ControlStepFailure | src/components/web_controller.py:67-72 | a malformed steer changes nothing; a malformed throttle keeps only the steering already applied |
| WebControl.Published | src/components/web_controller.py:78 | a request publishes steering, throttle, record, autonomous, in that order |
| WebControl.WebController.constructor | src/components/web_controller.py:20-39 | all controls neutral and no image |
| WebControl.WebController.Start | src/components/web_controller.py:41-43 | start returns True |
| WebControl.WebController.SendControl | src/components/web_controller.py:63-79 | the controls become ControlStep's; a failed request publishes nothing and leaves the warned flag; a successful one publishes the four controls as Publishes does on the bus's kind, with the bus's own errors, and sets the warned flag when there is a bus and the publication list does not have four channels |
| WebControl.WebController.OnMessage | src/components/web_controller.py:94-95 | the payload becomes the latest image, whatever the channel |
| Joystick.Unpack | src/components/joystick.py:210-213 | struct.unpack('IhBB') fails exactly on a read that is not 8 bytes and otherwise yields a u32, an s16 and two u8 |
| Joystick.UnpackPack | src/components/joystick.py:213 | decoding the little-endian layout of an event gives the event back |
| Joystick.PackUnpack | src/components/joystick.py:213 | every 8-byte read decodes, and re-encoding gives the same bytes |
| Joystick.AxisValueRange | src/components/joystick.py:229 | for every signed 16-bit value, value/32767 lies in [-32768/32767, 1]; it lies in [-1, 1] from -32767 up, reaches 1 and -1 at 32767 and -32767, and -32768 reads below -1 |
| Joystick.InitEventIgnored | src/components/joystick.py:215-217 | an event with the init bit reports no button and no axis |
| Joystick.ButtonEvent | src/components/joystick.py:219-224 | a button event reports the mapped button name with the event value |
| Joystick.AxisEvent | src/components/joystick.py:226-232 | an axis event reports the mapped axis name with value/32767 |
| Joystick.ShortReadFails | src/components/joystick.py:210-213 | a non-empty read of other than 8 bytes raises struct.error and reports nothing |
| Joystick.PressEffects | src/components/joystick.py:187-191 | a press of B flips record, Y flips autonomous, R1 raises and L1 lowers the scale; steering and throttle are untouched |
| Joystick.ReleaseIgnored | src/components/joystick.py:193-194 | a release runs no handler: the up map holds only None |
| Joystick.StickEffects | src/components/joystick.py:147-152 | the steering stick sets steering, the throttle stick sets throttle to minus the value times the scale |
| Joystick.RoundHalfEvenMono | src/components/joystick.py:172-179 | round() is monotone |
| Joystick.Round2Mono | src/components/joystick.py:172-179 | round(x, 2) is monotone |
| Joystick.Round2Unit | src/components/joystick.py:172-179 | round(x, 2) keeps a value of [0, 1] in [0, 1] |
| Joystick.ScaleStaysInRange | src/components/joystick.py:168-196 | whatever the event, the throttle scale stays in [0, 1] |
| Joystick.ScaleSteps | src/components/joystick.py:168-180 | from k hundredths, R1 gives min(k + 1, 100) hundredths and L1 max(k - 1, 0) hundredths |
| Joystick.Published | src/components/joystick.py:196 | each iteration publishes steering, throttle, autonomous, record, throttle scale, in that order |
| Joystick.ReplayKeepsScale | src/components/joystick.py:182-196 | over any sequence of reads the scale stays in [0, 1] |
| Joystick.ConfigError | src/components/joystick.py:44-69 | the constructor raises ValueError exactly when a required stick is not configured or the device does not exist |
| Joystick.NamesLookup | src/components/joystick.py:53-59 | a code has a name exactly when some key maps to it, and the name is the last such key |
| Joystick.NamesOf | src/components/joystick.py:92-104 | one name per code read |
| Joystick.NamesOfCodes | src/components/joystick.py:92-104 | name i is the configured name of code i, or unknown(0x..) with the code in hex |
| Joystick.Take | src/components/joystick.py:92-101 | the map covers the first num_axes (num_buttons) codes, or all when fewer were returned |
| Joystick.SetAllFacts | src/components/joystick.py:92-104 | every name read gets state 0, other states are kept, nothing else is added |
| Joystick.JoystickController.constructor | src/components/joystick.py:25-69 | name maps from the configured keys, empty axis and button maps and states, neutral controls, scale 1 |
| Joystick.JoystickController.Create | src/components/joystick.py:25-69 | construction fails exactly with ConfigError, and otherwise yields the initial state |
| Joystick.JoystickController.Start | src/components/joystick.py:109-113 | an undecodable device name raises UnicodeDecodeError and changes nothing (name, counts, maps, states, triggers); otherwise the maps gain the named axes and buttons, their states are 0, the triggers are ready and run is scheduled |
| Joystick.JoystickController.InitJoystick | src/components/joystick.py:71-107 | the device name is decoded, then the axis and button maps are built from the codes read; an undecodable name raises UnicodeDecodeError before anything is stored |
| Joystick.JoystickController.InitTriggerMaps | src/components/joystick.py:115-145 | the trigger maps become active |
| Joystick.JoystickController.AddAxes | src/components/joystick.py:92-95 | the axis map gains the named codes in order and each of their states becomes 0.0 |
| Joystick.JoystickController.AddButtons | src/components/joystick.py:101-104 | the button map gains the named codes in order and each of their states becomes 0 |
| Joystick.JoystickController.PollJoystick | src/components/joystick.py:198-234 | the report is PollEvent's, and the reported button or axis state is stored |
| Joystick.JoystickController.SetSteering | src/components/joystick.py:147-148 | steering becomes the axis value |
| Joystick.JoystickController.SetThrottle | src/components/joystick.py:150-152 | throttle becomes minus the axis value times the scale |
| Joystick.JoystickController.ToggleRecord | src/components/joystick.py:154-159 | record is flipped |
| Joystick.JoystickController.ToggleAutonomous | src/components/joystick.py:161-166 | autonomous is flipped |
| Joystick.JoystickController.IncreaseMaxThrottle | src/components/joystick.py:168-173 | the scale becomes round(min(1, scale + 0.01), 2) and stays in [0, 1] |
| Joystick.JoystickController.DecreaseMaxThrottle | src/components/joystick.py:175-180 | the scale becomes round(max(0, scale - 0.01), 2) and stays in [0, 1] |
| Joystick.JoystickController.Trigger | src/components/joystick.py:187-194 | the controls become Handle's: the stick handler first, then the press handler |
| Joystick.JoystickController.RunOnce | src/components/joystick.py:183-196 | only the controls, the two state maps and the warned flag change; the calls, new controls and exception are Iteration's; the reported button or axis state is stored; the warned flag is set when a read succeeded, there is a bus and the publication list does not have five channels |
| Joystick.IterationOutcome | src/components/joystick.py:183-196 | a failed read changes nothing and publishes nothing; otherwise the controls follow Handle; an iteration that completes had a bus and a good read, and published the new controls pairwise on every publication channel, of which there are at most five |
| Joystick.RunTrace | src/components/joystick.py:182-196 | at most one entry per read; a run that nothing ended has one entry per read, and one that was ended has at least one |
| Joystick.RunTraceStops | src/components/joystick.py:182-196 | the run ends at its first exception: no read after the failing one is taken |
| Joystick.RunTraceCompletes | src/components/joystick.py:182-196 | a run that nothing ended leaves the controls Replay gives for all reads |
| Joystick.RunTraceSteps | src/components/joystick.py:182-196 | every completed iteration k starts from Replay of the first k reads, publishes its trace entry, and ends at Replay of the first k + 1 reads |
| Joystick.RunTraceStep | src/components/joystick.py:182-196 | the same for one given completed iteration |
| Joystick.RunTraceFails | src/components/joystick.py:182-196 | a run that was ended was ended by its last iteration begun, which started from Replay of the reads before it; its calls, controls and exception are the trace's last entry, final controls and exception |
| Joystick.JoystickController.Run | src/components/joystick.py:182-196 | only the controls, the two state maps and the warned flag change; the calls of every iteration begun (the failing one's included), the final controls and the exception are RunTrace's; the state maps are StatesAfter the reads polled; without an exception every read is taken and the controls are Replay of the reads |
| Pid.Tenth | src/components/pid.py:72-73 | dividing by ten works element-wise on an array and raises TypeError on a list |
| Pid.DefaultCoeffsCannotTrain | src/components/pid.py:65-73 | train mode with the default coefficient list raises TypeError |
| Pid.Cte | src/components/pid.py:125-130 | the cross-track error plus the line centre is the car position |
| Pid.IntegralLimitsOrdered | src/components/pid.py:209-215 | the lower integral limit never exceeds the upper one |
| Pid.Clamp | src/components/pid.py:217-220 | the clamped value lies within the limits and is unchanged when already inside |
| Pid.IntegralTerm | src/components/pid.py:203-220 | the integral term lies between the limits the proportional term leaves |
| Pid.Saturate | src/components/pid.py:225-231 | the output is in [-1, 1], equals its input inside, and is the nearer limit outside |
| Pid.PidSteering | src/components/pid.py:188-231 | the steering is in [-1, 1], the previous error becomes cte, and the integrator is reset within 10 of the line and accumulates cte otherwise |
| Pid.SteeringSaturates | src/components/pid.py:222-231 | the output is minus the sum of the three terms when that is in [-1, 1], and the nearer limit otherwise |
| Pid.AntiWindup | src/components/pid.py:209-220 | while the proportional term is inside (-1, 1), proportional plus integral stays in [-1, 1] |
| Pid.NearLineForgets | src/components/pid.py:203-207 | within 10 of the line the integral term is 0 |
| Pid.Judge | src/components/pid.py:156-178 | judging a later epoch changes no counter |
| Pid.Twiddle | src/components/pid.py:132-186 | ZeroDivisionError exactly when no step was taken; otherwise the step count and summed error are 0 and the epoch advances by one |
| Pid.TwiddleCycles | src/components/pid.py:157-178 | the tuned coefficient stays in {0, 1, 2} and moves to the next exactly after an improvement going forward or any backward step |
| Pid.TwiddleFirstEpoch | src/components/pid.py:138-146 | the first epoch records the mean error as best and tries the coefficient one delta higher |
| Pid.TwiddleTriesOtherWay | src/components/pid.py:164-181 | no improvement going forward moves the coefficient one delta below where it was and turns backward |
| Pid.TwiddleImproves | src/components/pid.py:157-175 | an improvement records the new best error and grows the delta by ten per cent |
| Pid.TwiddleIsLocal | src/components/pid.py:146-181 | only the coefficients tuned before and after can change, and only the delta of the one tuned before |
| Pid.PidLineFollower.constructor | src/components/pid.py:56-83 | no image, stopped, error memory 0, throttle 1, training counters 0, tuning starts forward on the first coefficient |
| Pid.PidLineFollower.Create | src/components/pid.py:65-79 | the stored or default coefficients are used; train mode fails exactly when they cannot be divided by ten, and otherwise the deltas are a tenth of them |
| Pid.PidLineFollower.Start | src/components/pid.py:233-238 | ValueError with fewer than two subscriptions, True otherwise; this is what the supervisor's StartResult gives for PidBehaviour |
| Pid.PidLineFollower.PidSteer | src/components/pid.py:188-231 | the steering and the remembered errors are PidSteering's on the current coefficients |
| Pid.PidLineFollower.TwiddlePidParams | src/components/pid.py:132-186 | the arrays and counters become Twiddle's result, or stay unchanged on ZeroDivisionError |
| Pid.PidLineFollower.JudgeStep | src/components/pid.py:156-178 | the arrays and tuning state become Judge's result |
| Pid.PidLineFollower.OnMessage | src/components/pid.py:271-282 | the first subscription stores the image, the second sets moving (running one tuning step on a stop in train mode), the third sets the throttle; a missing subscription raises IndexError |
| Pid.PidLineFollower.RunOnce | src/components/pid.py:244-267 | with an image while moving, the image is used; a found line gives one steering step (plus one training step and its squared error), then raises AttributeError without publishing when there are not three publication channels (the detector drew no output image), and otherwise publishes steering, throttle and image; in the other cases 0, 0, None; each publish is Publishes on the bus's kind, with the bus's own errors, and the warned flag follows FlagStep for three values |
| Camera.GstreamerPipeline | src/components/camera.py:61-71 | every pipeline ends in appsink |
| Camera.CsiPipelineHead | src/components/camera.py:66-68 | the CSI device's pipeline starts with nvarguscamerasrc |
| Camera.UsbPipelineHead | src/components/camera.py:69-71 | any other device gets a v4l2src pipeline naming the device argument |
| Camera.UsbPipelineNotCsi | src/components/camera.py:66-71 | a device other than the CSI one never gets an nvarguscamerasrc pipeline |
| Camera.UsbIgnoresCaptureSettings | src/components/camera.py:69-71 | the v4l2src pipeline ignores capture size, frame rate and flip |
| Camera.CsiIgnoresDeviceArgument | src/components/camera.py:66-68 | the CSI pipeline ignores the device argument; the branch is chosen by the component's own device |
| Camera.Lower | src/components/camera.py:40 | lower() maps each ASCII capital to its small letter and keeps every other character |
| Camera.CaptureSource | src/components/camera.py:39-54 | the device itself exactly when the platform name contains darwin or windows, the pipeline of the settings otherwise |
| Camera.PlatformChoice | src/components/camera.py:40 | darwin opens the device; linux and win32 build a pipeline |
| Camera.Camera.constructor | src/components/camera.py:14-37 | the settings are kept and no capture is open |
| Camera.Camera.Default | src/components/camera.py:14-21 | the default settings: /dev/video0, 1280x720 from 3280x2464, 21 fps, no flip |
| Camera.Camera.Start | src/components/camera.py:39-59 | the capture is opened on CaptureSource and start returns True |
| Camera.Camera.RunOnce | src/components/camera.py:73-76 | each frame read is published as Publishes does on the bus's kind, with the bus's own errors; without a bus ValueError; the warned flag follows FlagStep for one value |

## Left out

- The TypeError that `run(self, stop_event)` raises when `Car` starts it without a stop event is not an event in the supervisor's log; it happens in the new thread, after start() has returned.
- Threads, daemon flags, stop events, sleeps and logging. Scheduling run() is an event in the supervisor's log; run loops are modelled one iteration at a time, or over a given sequence of inputs.
- YAML loading, reading module sources, `ast` class discovery and `importlib` are a catalog given as a parameter (class names per module, what a name resolves to, what a constructor returns).
- `can.py`'s abstract CAN class is a component kind, not a class of its own. Its publish and subscribe raise TypeError: `Components.PublishOutcome` gives that error to publish_message for a CAN bus, and `Supervisor.SubscribeError` gives it for subscribing through one.
- ZeroMQ sockets are frame queues. `pickle` is a symbolic payload that gives back the value it was made from. A failure in the broker's receive or send is not modelled.
- The camera capture (`cv2.VideoCapture`, reading frames, the warm-up sleep) is not modelled; frames are opaque values.
- The joystick device file, its `ioctl` calls and its reads are parameters: the name buffer, the counts, the code lists and each 8-byte read.
- The image processing of pid.py (`_preprocess_image`, `_find_and_fit_line`, calibration loading, drawing on the output image, saving line_not_found images) is not modelled. `Pid.PidLineFollower.RunOnce` takes the detection result as parameters; of the drawing it models only the AttributeError raised when the detector made no output image, which it makes only for three publication channels (pid.py:107-110).
- Components.Component: a subclass of ZmqCAN that defines its own shutdown or on_message is not modelled; the repository has none, and an instance of ZmqCAN kind always behaves as ZmqCAN.
- JoystickBehaviour: the supervisor's view has start() return True; the UnicodeDecodeError that a non-UTF-8 device name raises is modelled by `Joystick.JoystickController.Start` only, so `Supervisor.Launch` does not see it.
- PidBehaviour: the supervisor's and the ZmqCAN listener's view has on_message return; the ZeroDivisionError and IndexError it raises in some states are modelled by `Pid.PidLineFollower.OnMessage` only, so `ZmqCan.ListenerRaises` does not see them.
- Pid.PidLineFollower.TwiddlePidParams: writing the coefficients to a file and its possible I/O errors are not modelled.
- Pid.PidLineFollower.Create: coefficient files that do not hold exactly three coefficients are not modelled.
- Pid.PidLineFollower.RunOnce: the source returns the ints -1 and 1 when it clamps; the model publishes them as the floats -1.0 and 1.0, which compare equal.
- Pid.PidLineFollower.PidSteer: the arithmetic is the function `Pid.PidSteering`; the method stores its result and does not repeat the source's statement order.
- Pid.PidLineFollower.constructor: outside train mode the source has no training fields and no deltas; the model keeps them at their initial values, and nothing reads them.
- Flask routing, the video stream and `web_controller_server.py` are not modelled; request arguments are a map from names to strings.
- Components.Publishes: on a plain component (which `Car` never makes a bus) Python raises AttributeError when it looks up `publish`, before it indexes the values, so with fewer values than channels it raises AttributeError where the model gives IndexError, and it makes no call where the model records the call it attempted.
- Py.ParseInt: Python's int() also accepts surrounding whitespace and underscores between digits; the model accepts only an optional sign and decimal digits.
- Floating point: all floats are reals, so there is no rounding error; round(x, 2) is half-even rounding on the exact value.
- The PCA9685 board (`pca9685.py`, ServoKit) is a log of the commands it was given.
- `video_recorder.py`, `cv_utils.py`, `line_detection.py` and `__init__.py` are not part of this model.
