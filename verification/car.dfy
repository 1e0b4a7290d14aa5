/** The supervisor (src/car.py): builds the car's components from the
    `components` section of the configuration, keeps them in a registry keyed
    by class name, wires the bus into every component, and starts and shuts
    them down in registry order. Class discovery (`ast` over the module source,
    `importlib`, `getattr`) is given as a catalog; starting a thread for run()
    is recorded as an event. */
module Supervisor {
  import opened Py
  import opened Components
  import ZmqCan
  import Utf8

  /** What a class's constructor returns, as far as the supervisor can tell:
      the instance's dynamic class and what its start/shutdown/on_message do. */
  datatype Instance = Instance(kind: Kind, behaviour: Behaviour)

  /** What `getattr(importlib.import_module('components.' + module), name)`
      finds: nothing, a class that is not a Component subclass, or a
      Component subclass. */
  datatype ClassInfo = NotFound | NotAComponent | ComponentClass

  /** The components package as the supervisor sees it: the class names found
      in each module's source, in order (a module without a source file is
      absent), what each name resolves to, and what calling a class with the
      given keyword arguments (None: no arguments) returns or raises. */
  datatype Catalog = Catalog(
    classes: map<string, seq<string>>,
    resolve: (string, string) -> ClassInfo,
    construct: (string, string, Option<seq<(string, Value)>>) -> Result<Instance>)

  /** What the supervisor does to components, in order. */
  datatype Event =
    | Subscribed(bus: Component, channels: seq<Value>, listener: Component)
    | Started(component: Component)
    | RunScheduled(component: Component)
    | ShutDown(component: Component)

  // ---------------------------------------------------------------- argument selection

  /** Python's `name in v` for a module's configuration value. */
  function Contains(v: Value, name: string): (r: Result<bool>)
    ensures r.Err? <==> !(v.VDict? || v.VStr? || v.VList?)
    ensures r.Err? ==> r.error == TypeError
    ensures v.VDict? ==> r == Ok(HasKey(v.entries, name))
  {
    match v
    case VDict(entries) => Ok(HasKey(entries, name))
    case VStr(s) => Ok(IsSubstring(name, s))
    case VList(items) => Ok(VStr(name) in items)
    case _ => Err(TypeError)
  }

  /** Where a class's arguments come from: none (the module maps to null), the
      entry under the class's own name, or the module's whole mapping. */
  datatype ArgSource = NoArgs | ClassArgs(args: Value) | ModuleArgs(args: Value)

  /** Arguments of a class: none when the module maps to null, the sub-map
      under the class name when the module's mapping has that key, the whole
      module mapping otherwise. Indexing a string or a list by the class name
      raises TypeError, and so does `in` on a value that is not a container. */
  function SelectArgs(moduleConfig: Value, cls: string): (r: Result<ArgSource>)
    ensures moduleConfig == VNone <==> r == Ok(NoArgs)
    ensures moduleConfig.VDict? && HasKey(moduleConfig.entries, cls) ==> r == Ok(ClassArgs(Lookup(moduleConfig.entries, cls)))
    ensures moduleConfig.VDict? && !HasKey(moduleConfig.entries, cls) ==> r == Ok(ModuleArgs(moduleConfig))
    ensures r.Err? ==> r.error == TypeError && !moduleConfig.VDict?
    ensures r.Ok? && r.value.ClassArgs? ==> moduleConfig.VDict?
  {
    if moduleConfig == VNone then Ok(NoArgs)
    else match Contains(moduleConfig, cls)
      case Err(e) => Err(e)
      case Ok(present) =>
        if !present then Ok(ModuleArgs(moduleConfig))
        else if moduleConfig.VDict? then Ok(ClassArgs(Lookup(moduleConfig.entries, cls)))
        else Err(TypeError)
  }

  function ArgsOf(src: ArgSource): Value
  {
    if src.NoArgs? then VNone else src.args
  }

  /** `args.pop('subscription', None)` then `args.pop('publication', None)`:
      the remaining keyword arguments and the two popped values. Only a dict
      has a two-argument pop: a list's pop raises TypeError, other values have
      no pop at all (AttributeError). */
  function Extract(args: Value): (r: Result<(seq<(string, Value)>, Value, Value)>)
    ensures r.Ok? <==> args.VDict?
    ensures args.VList? ==> r == Err(TypeError)
    ensures !args.VDict? && !args.VList? ==> r == Err(AttributeError)
    ensures r.Ok? ==> !HasKey(r.value.0, "subscription") && !HasKey(r.value.0, "publication")
    ensures r.Ok? ==> forall e :: e in r.value.0 <==> e in args.entries && e.0 != "subscription" && e.0 != "publication"
    ensures r.Ok? && !HasKey(args.entries, "subscription") ==> r.value.1 == VNone
    ensures r.Ok? && !HasKey(args.entries, "publication") ==> r.value.2 == VNone
    ensures r.Ok? && HasKey(args.entries, "subscription") ==> r.value.1 == Lookup(args.entries, "subscription")
    ensures r.Ok? && HasKey(args.entries, "publication") ==> r.value.2 == Lookup(args.entries, "publication")
  {
    match args
    case VDict(entries) =>
      var (sub, afterSub) := Pop(entries, "subscription");
      var (pub, rest) := Pop(afterSub, "publication");
      if HasKey(entries, "publication") then
        LookupWithout(entries, "subscription", "publication");
        Ok((rest, sub, pub))
      else Ok((rest, sub, pub))
    case VList(_) => Err(TypeError)
    case _ => Err(AttributeError)
  }

  /** The instance's subscription list after the popped values are added:
      an iterable subscription is extended item by item (a string channel
      name becomes one channel per character), a non-iterable one is appended;
      a non-iterable publication is appended to the subscription list too. */
  function SubscriptionAfter(sub: Value, pub: Value): (r: seq<Value>)
    ensures sub == VNone && (pub == VNone || IsIterable(pub)) ==> r == []
    ensures sub != VNone && IsIterable(sub) ==> |r| >= |IterItems(sub)| && r[..|IterItems(sub)|] == IterItems(sub)
    ensures sub != VNone && !IsIterable(sub) ==> |r| > 0 && r[0] == sub
    ensures pub != VNone && !IsIterable(pub) ==> |r| > 0 && r[|r| - 1] == pub
    ensures |r| == (if sub == VNone then 0 else if IsIterable(sub) then |IterItems(sub)| else 1)
                   + (if pub != VNone && !IsIterable(pub) then 1 else 0)
  {
    (if sub == VNone then [] else if IsIterable(sub) then IterItems(sub) else [sub])
    + (if pub != VNone && !IsIterable(pub) then [pub] else [])
  }

  /** The instance's publication list: only an iterable publication reaches it. */
  function PublicationAfter(pub: Value): (r: seq<Value>)
    ensures pub == VNone || !IsIterable(pub) ==> r == []
    ensures pub != VNone && IsIterable(pub) ==> r == IterItems(pub)
  {
    if pub != VNone && IsIterable(pub) then IterItems(pub) else []
  }

  /** How one class of a module is to be built: the keyword arguments of the
      constructor call (None: no arguments), the popped `subscription` and
      `publication` values (None when absent), and the configuration after the
      pops, which remove the two reserved keys from the dictionary they came from. */
  datatype Plan = Plan(kwargs: Option<seq<(string, Value)>>, subscription: Value,
                       publication: Value, config: seq<(string, Value)>)

  function Prepare(config: seq<(string, Value)>, moduleName: string, cls: string): (r: Result<Plan>)
    requires HasKey(config, moduleName)
    ensures Lookup(config, moduleName) == VNone ==> r == Ok(Plan(None, VNone, VNone, config))
    ensures r.Ok? ==> KeysOf(r.value.config) == KeysOf(config)
    ensures r.Ok? && r.value.kwargs.Some? ==>
      !HasKey(r.value.kwargs.value, "subscription") && !HasKey(r.value.kwargs.value, "publication")
  {
    match SelectArgs(Lookup(config, moduleName), cls)
    case Err(e) => Err(e)
    case Ok(src) =>
      var args := ArgsOf(src);
      if args == VNone then Ok(Plan(None, VNone, VNone, config))
      else match Extract(args)
        case Err(e) => Err(e)
        case Ok((rest, sub, pub)) =>
          var value :=
            if src.ClassArgs? then VDict(Replace(Lookup(config, moduleName).entries, cls, VDict(rest)))
            else VDict(rest);
          ReplaceKeepsKeys(config, moduleName, value);
          Ok(Plan(Some(rest), sub, pub, Replace(config, moduleName, value)))
  }

  /** A module that declares several classes, with a mapping that has no entry
      under their names, hands its whole mapping to each of them. The first
      class's construction pops `subscription` and `publication` out of that
      mapping itself, so the next class is built with the same keyword
      arguments but gets no channels. */
  lemma SharedArgsPoppedOnce(config: seq<(string, Value)>, moduleName: string, first: string, second: string)
    requires HasKey(config, moduleName)
    requires var v := Lookup(config, moduleName);
      v.VDict? && !HasKey(v.entries, first) && !HasKey(v.entries, second)
    ensures Prepare(config, moduleName, first).Ok?
    ensures var p := Prepare(config, moduleName, first).value;
      HasKey(p.config, moduleName)
      && Prepare(p.config, moduleName, second) == Ok(Plan(p.kwargs, VNone, VNone, p.config))
  {
    PreparePops(config, moduleName, first);
    var entries := Lookup(config, moduleName).entries;
    ExtractKeepsAbsent(entries, second);
    PrepareAfterReplace(config, moduleName, second, Extract(VDict(entries)).value.0);
  }

  /** Once the module mapping has been replaced by one without the reserved
      keys and without the class's name, the class gets that mapping and no
      channels, and the configuration stays as it is. */
  lemma PrepareAfterReplace(config: seq<(string, Value)>, moduleName: string, cls: string, rest: seq<(string, Value)>)
    requires HasKey(config, moduleName)
    requires !HasKey(rest, cls) && !HasKey(rest, "subscription") && !HasKey(rest, "publication")
    ensures var written := Replace(config, moduleName, VDict(rest));
      HasKey(written, moduleName) && Prepare(written, moduleName, cls) == Ok(Plan(Some(rest), VNone, VNone, written))
  {
    var written := Replace(config, moduleName, VDict(rest));
    LookupReplace(config, moduleName, VDict(rest));
    assert forall i :: 0 <= i < |written| && written[i].0 == moduleName ==> written[i].1 == VDict(rest);
    PrepareAfterPop(written, moduleName, cls, rest);
  }

  /** A key the mapping lacks is still missing after the reserved keys are popped. */
  lemma ExtractKeepsAbsent(entries: seq<(string, Value)>, k: string)
    requires !HasKey(entries, k)
    ensures Extract(VDict(entries)).Ok? && !HasKey(Extract(VDict(entries)).value.0, k)
  {
    var rest := Extract(VDict(entries)).value.0;
    forall i | 0 <= i < |rest|
      ensures rest[i].0 != k
    {
      assert rest[i] in rest;
    }
  }

  /** Preparing a class with no entry of its own in a module mapping pops the
      reserved keys out of the whole mapping. */
  lemma PreparePops(config: seq<(string, Value)>, moduleName: string, cls: string)
    requires HasKey(config, moduleName)
    requires var v := Lookup(config, moduleName); v.VDict? && !HasKey(v.entries, cls)
    ensures var e := Extract(Lookup(config, moduleName));
      e.Ok? && Prepare(config, moduleName, cls)
        == Ok(Plan(Some(e.value.0), e.value.1, e.value.2, Replace(config, moduleName, VDict(e.value.0))))
  {
    var v := Lookup(config, moduleName);
    assert SelectArgs(v, cls) == Ok(ModuleArgs(v));
  }

  /** Preparing a class whose module mapping has already had the reserved keys
      popped out, and has no entry under the class's name. */
  lemma PrepareAfterPop(config: seq<(string, Value)>, moduleName: string, cls: string, rest: seq<(string, Value)>)
    requires HasKey(config, moduleName) && Lookup(config, moduleName) == VDict(rest)
    requires forall i :: 0 <= i < |config| && config[i].0 == moduleName ==> config[i].1 == VDict(rest)
    requires !HasKey(rest, cls) && !HasKey(rest, "subscription") && !HasKey(rest, "publication")
    ensures Prepare(config, moduleName, cls) == Ok(Plan(Some(rest), VNone, VNone, config))
  {
    assert SelectArgs(VDict(rest), cls) == Ok(ModuleArgs(VDict(rest)));
    assert Extract(VDict(rest)) == Ok((rest, VNone, VNone));
    ReplaceSame(config, moduleName, VDict(rest));
  }

  /** Writing a key's value keeps the dict's keys and their order. */
  lemma ReplaceKeepsKeys(entries: seq<(string, Value)>, k: string, v: Value)
    ensures KeysOf(Replace(entries, k, v)) == KeysOf(entries)
  {
    var r := Replace(entries, k, v);
    assert forall i :: 0 <= i < |r| ==> KeysOf(r)[i] == KeysOf(entries)[i];
  }

  /** The keys of a dict, in insertion order. */
  function KeysOf(entries: seq<(string, Value)>): (r: seq<string>)
    ensures |r| == |entries| && forall i :: 0 <= i < |r| ==> r[i] == entries[i].0
  {
    seq(|entries|, i requires 0 <= i < |entries| => entries[i].0)
  }

  // ---------------------------------------------------------------- registry order

  /** The registry's key order after adding `names` in turn: a new name goes
      at the end, a name already present keeps its place. */
  function Insert(order: seq<string>, names: seq<string>): (r: seq<string>)
    ensures forall x :: x in r <==> x in order || x in names
    ensures (forall i, j :: 0 <= i < j < |order| ==> order[i] != order[j]) ==>
            forall i, j :: 0 <= i < j < |r| ==> r[i] != r[j]
    ensures |order| <= |r| && r[..|order|] == order
  {
    if names == [] then order
    else
      var prev := Insert(order, names[..|names| - 1]);
      var x := names[|names| - 1];
      assert forall y :: y in names <==> y in names[..|names| - 1] || y == x by {
        assert names == names[..|names| - 1] + [x];
      }
      if x in prev then prev else prev + [x]
  }

  /** The module has a source file that declares at least one class. */
  predicate HasClasses(catalog: Catalog, m: string)
  {
    m in catalog.classes && catalog.classes[m] != []
  }

  /** Every class name the modules declare, module by module; a module with
      no source file contributes none. */
  function AllClasses(catalog: Catalog, modules: seq<string>): seq<string>
  {
    if modules == [] then []
    else
      var m := modules[|modules| - 1];
      AllClasses(catalog, modules[..|modules| - 1]) + (if m in catalog.classes then catalog.classes[m] else [])
  }

  /** Adding a list of names in two parts is adding the first, then the second. */
  lemma {:induction false} InsertAppend(order: seq<string>, a: seq<string>, b: seq<string>)
    ensures Insert(order, a + b) == Insert(Insert(order, a), b)
    decreases |b|
  {
    if b == [] {
      assert a + b == a;
    } else {
      var b' := b[..|b| - 1];
      assert (a + b)[..|a + b| - 1] == a + b';
      assert (a + b)[|a + b| - 1] == b[|b| - 1];
      InsertAppend(order, a, b');
    }
  }

  /** The registry order after one more module's classes are added. */
  lemma NextOrder(catalog: Catalog, modules: seq<string>, i: nat, after: seq<string>)
    requires i < |modules| && HasClasses(catalog, modules[i])
    requires after == Insert(Insert([], AllClasses(catalog, modules[..i])), catalog.classes[modules[i]])
    ensures after == Insert([], AllClasses(catalog, modules[..i + 1]))
  {
    assert modules[..i + 1][..i] == modules[..i] && modules[..i + 1][i] == modules[i];
    InsertAppend([], AllClasses(catalog, modules[..i]), catalog.classes[modules[i]]);
  }

  lemma ClassesStep(catalog: Catalog, modules: seq<string>, i: nat)
    requires i < |modules| && HasClasses(catalog, modules[i])
    requires forall j :: 0 <= j < i ==> HasClasses(catalog, modules[j])
    ensures forall j :: 0 <= j < i + 1 ==> HasClasses(catalog, modules[j])
  {
  }

  /** Adding the names one more step: the next name is appended unless present. */
  lemma InsertNext(order: seq<string>, names: seq<string>, k: nat)
    requires k < |names|
    ensures var prev := Insert(order, names[..k]);
      Insert(order, names[..k + 1]) == if names[k] in prev then prev else prev + [names[k]]
  {
    assert names[..k + 1][..k] == names[..k];
  }

  lemma HasKeyOfKeys(entries: seq<(string, Value)>, k: string)
    requires k in KeysOf(entries)
    ensures HasKey(entries, k)
  {
    var i :| 0 <= i < |entries| && KeysOf(entries)[i] == k;
    assert entries[i].0 == k;
  }

  /** No client-mode ZmqCAN in the registry. */
  predicate NoClients(components: map<string, Component>)
  {
    forall k :: k in components ==> components[k].kind != ZmqBus(false)
  }

  /** The bus, when there is one, is a CAN: a base CAN or a server-mode ZmqCAN. */
  predicate BusKind(can: Component?)
  {
    can == null || can.kind == Bus || can.kind == ZmqBus(true)
  }

  /** The bus handle of each component, in order. */
  function Buses(cs: seq<Component>): (r: seq<Component?>)
    reads set c | c in cs
    ensures |r| == |cs| && forall j :: 0 <= j < |cs| ==> r[j] == cs[j].can
  {
    if cs == [] then [] else [cs[0].can] + Buses(cs[1..])
  }

  /** Every component holds the same bus. */
  ghost predicate SharesBus(cs: seq<Component>, bus: Component)
    reads set c | c in cs
  {
    forall j :: 0 <= j < |cs| ==> cs[j].can == bus
  }

  /** Every component holds a client-mode ZmqCAN of its own. */
  ghost predicate OwnClients(cs: seq<Component>)
    reads set c | c in cs
  {
    (forall j :: 0 <= j < |cs| ==>
       cs[j].can != null && cs[j].can.kind == ZmqBus(false) && cs[j].can.behaviour == ZmqCanBehaviour)
    && forall j1, j2 :: 0 <= j1 < j2 < |cs| ==> cs[j1].can != cs[j2].can
  }

  /** The events of starting each component's own client, in order: each is
      started and its run() scheduled. */
  ghost predicate ClientLaunches(events: seq<Event>, cs: seq<Component>)
    reads set c | c in cs
  {
    |events| == 2 * |cs|
    && forall j :: 0 <= j < |cs| ==>
         cs[j].can != null && events[2 * j] == Started(cs[j].can) && events[2 * j + 1] == RunScheduled(cs[j].can)
  }

  /** The registry's components in registry order. */
  function Values(components: map<string, Component>, order: seq<string>): (r: seq<Component>)
    requires forall k :: k in order ==> k in components
    ensures |r| == |order| && forall i :: 0 <= i < |r| ==> r[i] == components[order[i]]
  {
    if order == [] then [] else [components[order[0]]] + Values(components, order[1..])
  }

  /** In a registry whose key order lists each key once and whose keys hold
      distinct instances, the instances in registry order are distinct. */
  lemma RegistryDistinct(components: map<string, Component>, order: seq<string>)
    requires forall k :: k in components <==> k in order
    requires forall i, j :: 0 <= i < j < |order| ==> order[i] != order[j]
    requires forall k1, k2 :: k1 in components && k2 in components && k1 != k2 ==> components[k1] != components[k2]
    ensures var cs := Values(components, order);
      forall j1, j2 :: 0 <= j1 < j2 < |cs| ==> cs[j1] != cs[j2]
  {
  }

  /** The instances in registry order are exactly the registered instances. */
  lemma RegistryCovers(components: map<string, Component>, order: seq<string>)
    requires forall k :: k in components <==> k in order
    ensures forall c :: c in components.Values <==> c in Values(components, order)
  {
    var cs := Values(components, order);
    forall c | c in components.Values
      ensures c in cs
    {
      var k :| k in components && components[k] == c;
      var j :| 0 <= j < |order| && order[j] == k;
      assert cs[j] == c;
    }
  }

  // ---------------------------------------------------------------- start and shutdown

  /** What `can.subscribe(channels, listener)` raises, by the bus's class: a
      ZmqCAN client accepts only str channels, a server-mode ZmqCAN has no
      listener map, the base CAN's subscribe raises TypeError, and a plain
      component has no subscribe method. */
  function SubscribeError(bus: Kind, channels: seq<Value>): (r: Option<Exc>)
    ensures bus == ZmqBus(false) ==> (r.None? <==> forall i :: 0 <= i < |channels| ==> channels[i].VStr?)
    ensures bus != ZmqBus(false) ==> r.Some?
  {
    match bus
    case ZmqBus(serverMode) =>
      if serverMode then Some(AttributeError)
      else if forall i :: 0 <= i < |channels| ==> channels[i].VStr? then None
      else Some(TypeError)
    case Bus => Some(TypeError)
    case Plain => Some(AttributeError)
  }

  /** _start_component: start() is called; when it returns a true value run()
      is scheduled, when it raises the exception propagates. */
  function Launch(c: Component): (r: (seq<Event>, Option<Exc>))
    reads c
    ensures |r.0| >= 1 && r.0[0] == Started(c)
    ensures RunScheduled(c) in r.0 <==> StartResult(c.behaviour.start, c.subscription) == Returns(true)
    ensures r.1.Some? <==> StartResult(c.behaviour.start, c.subscription).Raises?
    ensures r.1.Some? ==> r.1.value == StartResult(c.behaviour.start, c.subscription).error
  {
    match StartResult(c.behaviour.start, c.subscription)
    case Returns(longRunning) => if longRunning then ([Started(c), RunScheduled(c)], None) else ([Started(c)], None)
    case Raises(e) => ([Started(c)], Some(e))
  }

  /** One component in Car.start: it is subscribed to its channels first,
      when it has a bus and at least one channel, then started. */
  function StartOne(c: Component): (r: (seq<Event>, Option<Exc>))
    reads c
  {
    if c.can != null && |c.subscription| > 0 then
      var sub := Subscribed(c.can, c.subscription, c);
      var e := SubscribeError(c.can.kind, c.subscription);
      if e.Some? then ([sub], e) else ([sub] + Launch(c).0, Launch(c).1)
    else Launch(c)
  }

  /** Car.start over components in registry order, stopping at the first exception. */
  function StartTrace(cs: seq<Component>): (r: (seq<Event>, Option<Exc>))
    reads set c | c in cs
  {
    if cs == [] then ([], None)
    else
      var first := StartOne(cs[0]);
      if first.1.Some? then first
      else var rest := StartTrace(cs[1..]); (first.0 + rest.0, rest.1)
  }

  /** Car.shutdown over components in registry order, stopping at the first exception. */
  function ShutdownTrace(cs: seq<Component>): (r: (seq<Event>, Option<Exc>))
  {
    if cs == [] then ([], None)
    else if cs[0].behaviour.shutdown.Some? then ([ShutDown(cs[0])], cs[0].behaviour.shutdown)
    else var rest := ShutdownTrace(cs[1..]); ([ShutDown(cs[0])] + rest.0, rest.1)
  }

  /** A component with a bus and channels is subscribed before it is started,
      and when its subscription raises it is not started at all; without a
      bus or channels it is just started. */
  lemma SubscribeBeforeStart(c: Component)
    ensures var r := StartOne(c);
      c.can != null && |c.subscription| > 0 ==>
        r.0[0] == Subscribed(c.can, c.subscription, c)
        && (Started(c) in r.0 <==> SubscribeError(c.can.kind, c.subscription).None?)
    ensures !(c.can != null && |c.subscription| > 0) ==> StartOne(c) == Launch(c)
    ensures var r := StartOne(c);
      r.1.None? ==> Started(c) in r.0 && (RunScheduled(c) in r.0 <==> StartResult(c.behaviour.start, c.subscription) == Returns(true))
  {
  }

  /** Subscribing through a client-mode ZmqCAN raises exactly what the bus's
      own subscribe raises. */
  lemma ClientSubscribeError(listeners: map<Value, Component>, topics: seq<seq<Utf8.byte>>,
                             channels: seq<Value>, listener: Component)
    ensures SubscribeError(ZmqBus(false), channels) == ZmqCan.Register(listeners, topics, channels, listener).2
  {
  }

  /** Car.start completes exactly when no component's subscription or start
      raises; then every component has been started. Otherwise the exception
      is that of the first component that raised. */
  lemma {:induction false} StartCompletes(cs: seq<Component>)
    ensures StartTrace(cs).1.None? <==> forall j :: 0 <= j < |cs| ==> StartOne(cs[j]).1.None?
    ensures StartTrace(cs).1.None? ==> forall j :: 0 <= j < |cs| ==> Started(cs[j]) in StartTrace(cs).0
    ensures StartTrace(cs).1.Some? ==>
      exists k :: 0 <= k < |cs| && StartTrace(cs).1 == StartOne(cs[k]).1
        && forall j :: 0 <= j < k ==> StartOne(cs[j]).1.None?
    decreases |cs|
  {
    if cs != [] {
      var t := StartTrace(cs);
      SubscribeBeforeStart(cs[0]);
      if StartOne(cs[0]).1.None? {
        var tail := cs[1..];
        StartCompletes(tail);
        assert forall j :: 1 <= j < |cs| ==> cs[j] == tail[j - 1];
        if t.1.Some? {
          var k :| 0 <= k < |tail| && StartTrace(tail).1 == StartOne(tail[k]).1
            && forall j :: 0 <= j < k ==> StartOne(tail[j]).1.None?;
          assert StartTrace(cs).1 == StartOne(cs[k + 1]).1;
        }
      } else {
        assert StartTrace(cs).1 == StartOne(cs[0]).1;
      }
    }
  }

  /** Car.shutdown calls shutdown() on the components in order up to the first
      that raises and on none after it; it completes exactly when none raises. */
  lemma {:induction false} ShutdownStopsAtFirstRaise(cs: seq<Component>)
    ensures var t := ShutdownTrace(cs);
      |t.0| <= |cs| && forall j :: 0 <= j < |t.0| ==> t.0[j] == ShutDown(cs[j])
    ensures var t := ShutdownTrace(cs);
      t.1.None? <==> |t.0| == |cs| && forall j :: 0 <= j < |cs| ==> cs[j].behaviour.shutdown.None?
    ensures var t := ShutdownTrace(cs);
      t.1.Some? ==>
        |t.0| >= 1 && t.1 == cs[|t.0| - 1].behaviour.shutdown
        && forall j :: 0 <= j < |t.0| - 1 ==> cs[j].behaviour.shutdown.None?
    decreases |cs|
  {
    if cs != [] && cs[0].behaviour.shutdown.None? {
      var tail := cs[1..];
      ShutdownStopsAtFirstRaise(tail);
      assert forall j :: 1 <= j < |cs| ==> cs[j] == tail[j - 1];
    }
  }

  /** A ZmqCAN defines no shutdown, so Car.shutdown raises TypeError at the
      latest when it reaches one, and never shuts down what comes after it. */
  lemma ShutdownHaltsAtZmqCan(cs: seq<Component>, k: nat)
    requires k < |cs| && cs[k].kind.ZmqBus?
    ensures ShutdownTrace(cs).1.Some? && |ShutdownTrace(cs).0| <= k + 1
  {
    ShutdownStopsAtFirstRaise(cs);
  }

  class Car {
    /** The `components` section of the configuration: module name to its
        arguments, in file order. The reserved keys are popped out of it. */
    var config: seq<(string, Value)>
    /** The module names of the configuration, in file order; popping the
        reserved keys never changes them. */
    const modules: seq<string>
    /** The registry: class name to instance. */
    var components: map<string, Component>
    /** The registry's keys in insertion order (Python dict order). */
    var order: seq<string>
    /** The bus: the last CAN instance added. */
    var can: Component?
    /** What the supervisor has done to components, in order. */
    var log: seq<Event>

    ghost predicate Valid()
      reads this
    {
      KeysOf(config) == modules
      && (forall k :: k in components <==> k in order)
      && (forall i, j :: 0 <= i < j < |order| ==> order[i] != order[j])
      && (forall k1, k2 :: k1 in components && k2 in components && k1 != k2 ==> components[k1] != components[k2])
    }

    /** Car.__init__ before the configuration is parsed: an empty registry and no bus. */
    constructor(config: seq<(string, Value)>)
      ensures Valid() && this.config == config
      ensures components == map[] && order == [] && can == null && log == []
    {
      this.config := config;
      modules := KeysOf(config);
      components, order, can, log := map[], [], null, [];
    }

    /** _initialize_component_class: resolve the class, select its arguments
        and pop the reserved keys out of the configuration, call the class,
        then add the popped channels to the new instance's lists. */
    method InitializeComponentClass(moduleName: string, cls: string, catalog: Catalog) returns (r: Result<Component>)
      requires HasKey(config, moduleName)
      modifies this`config
      ensures catalog.resolve(moduleName, cls) == NotFound ==> r == Err(AttributeError) && config == old(config)
      ensures catalog.resolve(moduleName, cls) == NotAComponent ==> r == Err(TypeError) && config == old(config)
      ensures catalog.resolve(moduleName, cls) == ComponentClass ==>
        match Prepare(old(config), moduleName, cls)
        case Err(e) => r == Err(e) && config == old(config)
        case Ok(plan) =>
          config == plan.config
          && match catalog.construct(moduleName, cls, plan.kwargs)
             case Err(e) => r == Err(e)
             case Ok(inst) =>
               r.Ok? && fresh(r.value) && r.value.kind == inst.kind && r.value.declared == inst.behaviour
               && r.value.subscription == SubscriptionAfter(plan.subscription, plan.publication)
               && r.value.publication == PublicationAfter(plan.publication)
               && r.value.can == null && !r.value.channelNumWarned
      ensures r.Ok? ==> fresh(r.value)
    {
      var info := catalog.resolve(moduleName, cls);
      if info == NotFound {
        return Err(AttributeError);
      }
      if info == NotAComponent {
        return Err(TypeError);
      }
      var plan := Prepare(config, moduleName, cls);
      if plan.Err? {
        return Err(plan.error);
      }
      config := plan.value.config;
      var built := catalog.construct(moduleName, cls, plan.value.kwargs);
      if built.Err? {
        return Err(built.error);
      }
      var c := NewInstance(built.value, plan.value.subscription, plan.value.publication);
      r := Ok(c);
    }

    /** _add_component: the instance is stored under its class name (replacing,
        in place, an instance of the same name); a CAN instance becomes the bus,
        except that a client-mode ZmqCAN is refused after it was stored. */
    method AddComponent(name: string, inst: Component) returns (err: Option<Exc>)
      requires Valid() && inst !in components.Values
      modifies this`components, this`order, this`can
      ensures Valid()
      ensures components == old(components)[name := inst]
      ensures order == if name in old(components) then old(order) else old(order) + [name]
      ensures err == if inst.kind == ZmqBus(false) then Some(TypeError) else None
      ensures can == if inst.kind == Bus || inst.kind == ZmqBus(true) then inst else old(can)
      ensures err.None? && NoClients(old(components)) ==> NoClients(components)
      ensures BusKind(old(can)) ==> BusKind(can)
    {
      if name !in components {
        order := order + [name];
      }
      components := components[name := inst];
      if inst.kind == Plain {
        return None;
      }
      if inst.kind == ZmqBus(false) {
        return Some(TypeError);
      }
      can := inst;
      err := None;
    }

    /** _parse_config: the modules of the configuration are taken in file
        order, and the classes found in each module's source are built and
        added in turn (one class or several, the same steps); a module without
        a source file raises FileNotFoundError, one that declares no class
        ValueError, and the first exception ends parsing. Then the bus is wired
        in, and the clients it starts are logged. It runs from Car.__init__, on
        an empty registry. */
    method ParseConfig(catalog: Catalog) returns (err: Option<Exc>)
      requires Valid() && components == map[] && order == [] && can == null
      modifies this
      ensures Valid()
      ensures err.Some? ==> log == old(log)
      ensures err.None? ==> forall m :: m in modules ==> HasClasses(catalog, m)
      ensures err.None? ==> order == Insert([], AllClasses(catalog, modules))
      ensures err.None? ==> NoClients(components) && BusKind(can)
      ensures err.None? && can == null ==> log == old(log)
      ensures var cs := Values(components, order);
        err.None? && can != null && !can.kind.ZmqBus? ==> log == old(log) && SharesBus(cs, can)
      ensures var cs := Values(components, order);
        err.None? && can != null && can.kind.ZmqBus? ==>
          OwnClients(cs) && |log| >= |old(log)| && log[..|old(log)|] == old(log)
          && ClientLaunches(log[|old(log)|..], cs)
    {
      err := AddModules(catalog);
      if err.Some? {
        return;
      }
      var launched := WireBus();
      ghost var before := log;
      log := log + launched;
      assert log[|before|..] == launched && log[..|before|] == before;
    }

    /** The module loop of _parse_config. */
    method AddModules(catalog: Catalog) returns (err: Option<Exc>)
      requires Valid() && components == map[] && order == [] && can == null
      modifies this`config, this`components, this`order, this`can
      ensures Valid() && forall k :: k in components ==> fresh(components[k])
      ensures err.None? ==> forall m :: m in modules ==> HasClasses(catalog, m)
      ensures err.None? ==> order == Insert([], AllClasses(catalog, modules))
      ensures err.None? ==> NoClients(components) && BusKind(can)
    {
      err := None;
      var i := 0;
      while i < |modules|
        invariant 0 <= i <= |modules|
        invariant Valid()
        invariant forall k :: k in components ==> fresh(components[k])
        invariant NoClients(components) && BusKind(can)
        invariant order == Insert([], AllClasses(catalog, modules[..i]))
        invariant forall j :: 0 <= j < i ==> HasClasses(catalog, modules[j])
      {
        err := AddModule(modules[i], catalog);
        if err.Some? {
          return;
        }
        NextOrder(catalog, modules, i, order);
        ClassesStep(catalog, modules, i);
        i := i + 1;
      }
      assert modules[..i] == modules;
    }

    /** One module of _parse_config: each class its source declares is
        initialized and added in turn, stopping at the first exception. */
    method AddModule(moduleName: string, catalog: Catalog) returns (err: Option<Exc>)
      requires Valid() && moduleName in modules
      modifies this`config, this`components, this`order, this`can
      ensures Valid()
      ensures forall k :: k in components ==> (k in old(components) && components[k] == old(components)[k]) || fresh(components[k])
      ensures moduleName !in catalog.classes ==>
        err == Some(FileNotFoundError) && components == old(components) && config == old(config)
      ensures moduleName in catalog.classes && catalog.classes[moduleName] == [] ==>
        err == Some(ValueError) && components == old(components) && config == old(config)
      ensures err.None? ==>
        HasClasses(catalog, moduleName) && order == Insert(old(order), catalog.classes[moduleName])
      ensures err.None? && NoClients(old(components)) ==> NoClients(components)
      ensures BusKind(old(can)) ==> BusKind(can)
    {
      if moduleName !in catalog.classes {
        return Some(FileNotFoundError);
      }
      var classes := catalog.classes[moduleName];
      if |classes| == 0 {
        return Some(ValueError);
      }
      err := AddClasses(moduleName, classes, catalog);
    }

    /** The classes of one module, in source order, stopping at the first exception. */
    method AddClasses(moduleName: string, classes: seq<string>, catalog: Catalog) returns (err: Option<Exc>)
      requires Valid() && moduleName in modules
      modifies this`config, this`components, this`order, this`can
      ensures Valid()
      ensures forall k :: k in components ==> (k in old(components) && components[k] == old(components)[k]) || fresh(components[k])
      ensures err.None? ==> order == Insert(old(order), classes)
      ensures err.None? && NoClients(old(components)) ==> NoClients(components)
      ensures BusKind(old(can)) ==> BusKind(can)
    {
      err := None;
      var k := 0;
      while k < |classes|
        invariant 0 <= k <= |classes|
        invariant Valid()
        invariant forall x :: x in components ==> (x in old(components) && components[x] == old(components)[x]) || fresh(components[x])
        invariant order == Insert(old(order), classes[..k])
        invariant NoClients(old(components)) ==> NoClients(components)
        invariant BusKind(old(can)) ==> BusKind(can)
      {
        err := AddClass(moduleName, classes[k], catalog);
        if err.Some? {
          return;
        }
        InsertNext(old(order), classes, k);
        k := k + 1;
      }
      assert classes[..k] == classes;
    }

    /** One class of a module: _initialize_component_class, then _add_component. */
    method AddClass(moduleName: string, cls: string, catalog: Catalog) returns (err: Option<Exc>)
      requires Valid() && moduleName in modules
      modifies this`config, this`components, this`order, this`can
      ensures Valid()
      ensures forall k :: k in components ==> (k in old(components) && components[k] == old(components)[k]) || fresh(components[k])
      ensures err.None? ==> order == if cls in old(order) then old(order) else old(order) + [cls]
      ensures err.None? && NoClients(old(components)) ==> NoClients(components)
      ensures BusKind(old(can)) ==> BusKind(can)
    {
      HasKeyOfKeys(config, moduleName);
      var r := InitializeComponentClass(moduleName, cls, catalog);
      if r.Err? {
        return Some(r.error);
      }
      err := AddComponent(cls, r.value);
    }

    /** The end of _parse_config: with no bus nothing is wired; a ZmqCAN bus
        gives every component its own new client, started at once; any other
        bus is shared by every component, the bus itself included. */
    method WireBus() returns (launched: seq<Event>)
      requires Valid()
      modifies (set c | c in Values(components, order))`can
      ensures var cs := Values(components, order);
        can == null ==> launched == [] && Buses(cs) == old(Buses(cs))
      ensures var cs := Values(components, order);
        can != null && !can.kind.ZmqBus? ==> launched == [] && SharesBus(cs, can)
      ensures var cs := Values(components, order);
        can != null && can.kind.ZmqBus? ==>
          OwnClients(cs) && (forall j :: 0 <= j < |cs| ==> fresh(cs[j].can)) && ClientLaunches(launched, cs)
    {
      launched := [];
      if can == null {
        return;
      }
      var cs := Values(components, order);
      if !can.kind.ZmqBus? {
        ShareBus(cs, can);
        return;
      }
      RegistryDistinct(components, order);
      launched := GiveClients(cs);
    }

    /** Car.start: each component in registry order is subscribed (when it has
        a bus and channels) and started; the first exception ends it. */
    method Start() returns (err: Option<Exc>)
      requires Valid()
      modifies this`log
      ensures var t := StartTrace(Values(components, order)); log == old(log) + t.0 && err == t.1
    {
      var done;
      done, err := StartAll(Values(components, order));
      log := log + done;
    }

    /** Car.shutdown: each component in registry order is shut down; the first
        exception ends it. */
    method Shutdown() returns (err: Option<Exc>)
      requires Valid()
      modifies this`log
      ensures var t := ShutdownTrace(Values(components, order)); log == old(log) + t.0 && err == t.1
    {
      var done;
      done, err := ShutdownAll(Values(components, order));
      log := log + done;
    }
  }

  /** Wiring a bus that is not a ZmqCAN: every component gets the same reference. */
  method ShareBus(cs: seq<Component>, bus: Component)
    modifies (set c | c in cs)`can
    ensures SharesBus(cs, bus)
  {
    var i := 0;
    while i < |cs|
      invariant 0 <= i <= |cs|
      invariant forall j :: 0 <= j < i ==> cs[j].can == bus
    {
      cs[i].can := bus;
      i := i + 1;
    }
  }

  /** Wiring a ZmqCAN bus: each component gets its own new client-mode
      ZmqCAN, which is started (and its run() scheduled) at once. */
  method GiveClients(cs: seq<Component>) returns (launched: seq<Event>)
    requires forall j1, j2 :: 0 <= j1 < j2 < |cs| ==> cs[j1] != cs[j2]
    modifies (set c | c in cs)`can
    ensures OwnClients(cs) && forall j :: 0 <= j < |cs| ==> fresh(cs[j].can)
    ensures ClientLaunches(launched, cs)
  {
    launched := [];
    ghost var clients: seq<Component> := [];
    var i := 0;
    while i < |cs|
      invariant 0 <= i <= |cs| && |clients| == i && |launched| == 2 * i
      invariant forall j :: 0 <= j < i ==> cs[j].can == clients[j]
      invariant forall j :: 0 <= j < i ==>
        fresh(clients[j]) && clients[j].kind == ZmqBus(false)
        && clients[j].behaviour == ZmqCanBehaviour
      invariant forall j1, j2 :: 0 <= j1 < j2 < i ==> clients[j1] != clients[j2]
      invariant forall j :: 0 <= j < i ==> launched[2 * j] == Started(clients[j]) && launched[2 * j + 1] == RunScheduled(clients[j])
    {
      var client := new Component(ZmqBus(false), ZmqCanBehaviour);
      launched := launched + Launch(client).0;
      cs[i].can := client;
      clients := clients + [client];
      i := i + 1;
    }
  }

  /** A new instance of a component class with the popped channel values
      added: `extend` for an iterable value, `append` otherwise, and a
      non-iterable publication goes to the subscription list. */
  method NewInstance(inst: Instance, subscription: Value, publication: Value) returns (c: Component)
    ensures fresh(c) && c.kind == inst.kind && c.declared == inst.behaviour
    ensures c.subscription == SubscriptionAfter(subscription, publication)
    ensures c.publication == PublicationAfter(publication)
    ensures c.can == null && !c.channelNumWarned
  {
    c := new Component(inst.kind, inst.behaviour);
    if subscription != VNone {
      if IsIterable(subscription) {
        c.subscription := c.subscription + IterItems(subscription);
      } else {
        c.subscription := c.subscription + [subscription];
      }
    }
    if publication != VNone {
      if IsIterable(publication) {
        c.publication := c.publication + IterItems(publication);
      } else {
        c.subscription := c.subscription + [publication];
      }
    }
  }

  /** The loop of Car.start over the registered components. */
  method StartAll(cs: seq<Component>) returns (done: seq<Event>, err: Option<Exc>)
    ensures (done, err) == StartTrace(cs)
  {
    done, err := [], None;
    ghost var rest := StartTrace(cs);
    var i := 0;
    assert cs[0..] == cs;
    assert [] + rest.0 == rest.0;
    while i < |cs| && err.None?
      invariant 0 <= i <= |cs|
      invariant StartTrace(cs) == (done + rest.0, rest.1)
      invariant err.None? ==> rest == StartTrace(cs[i..])
      invariant err.Some? ==> rest == ([], err)
    {
      StartAdvance(cs, i, done);
      var (events, e) := StartOne(cs[i]);
      err := e;
      rest := if e.Some? then ([], e) else StartTrace(cs[i + 1..]);
      done := done + events;
      i := i + 1;
    }
    if err.None? {
      assert rest == ([], None);
    }
    assert done + [] == done;
  }

  /** One component further into Car.start, from the point of view of the
      whole trace: its events, then (unless it raised) the rest. */
  lemma StartAdvance(cs: seq<Component>, i: nat, done: seq<Event>)
    requires i < |cs|
    ensures var one := StartOne(cs[i]);
      var rest := if one.1.Some? then ([], one.1) else StartTrace(cs[i + 1..]);
      (done + StartTrace(cs[i..]).0, StartTrace(cs[i..]).1) == ((done + one.0) + rest.0, rest.1)
  {
    assert cs[i..][0] == cs[i];
    assert cs[i..][1..] == cs[i + 1..];
    var one := StartOne(cs[i]);
    if one.1.Some? {
      assert StartTrace(cs[i..]) == one;
      assert (done + one.0) + [] == done + one.0;
    } else {
      var rest := StartTrace(cs[i + 1..]);
      assert done + (one.0 + rest.0) == (done + one.0) + rest.0;
    }
  }

  /** The loop of Car.shutdown over the registered components. */
  method ShutdownAll(cs: seq<Component>) returns (done: seq<Event>, err: Option<Exc>)
    ensures (done, err) == ShutdownTrace(cs)
  {
    done, err := [], None;
    ghost var rest := ShutdownTrace(cs);
    var i := 0;
    assert cs[0..] == cs;
    assert [] + rest.0 == rest.0;
    while i < |cs| && err.None?
      invariant 0 <= i <= |cs|
      invariant ShutdownTrace(cs) == (done + rest.0, rest.1)
      invariant err.None? ==> rest == ShutdownTrace(cs[i..])
      invariant err.Some? ==> rest == ([], err)
    {
      var c := cs[i];
      assert cs[i..][0] == c && cs[i..][1..] == cs[i + 1..];
      ghost var d0 := done;
      err := c.behaviour.shutdown;
      if err.Some? {
        rest := ([], err);
      } else {
        rest := ShutdownTrace(cs[i + 1..]);
      }
      done := done + [ShutDown(c)];
      assert d0 + ([ShutDown(c)] + rest.0) == done + rest.0;
      assert [ShutDown(c)] + [] == [ShutDown(c)];
      i := i + 1;
    }
    if err.None? {
      assert rest == ([], None);
    }
    assert done + [] == done;
  }
}
