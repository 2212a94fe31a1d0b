/** The agent core: the registry of loaded addons, the routing table of their
    callbacks, the listeners the core attaches to each addon, the two message
    routers (for addons in a worker process and for addons in the core's own
    process) and the initialize/exit state. */
module Agent {
  import opened Js
  import opened Messages
  import opened Routing
  import Utils
  import Parallel

  // ---------------------------------------------------------------------
  // Addon configuration and loading

  /** One addon's entry in the agent configuration: `{active, standalone}`. */
  datatype AddonProperties = AddonProperties(active: bool, standalone: bool)

  /** The lifecycle callback the core triggers on an addon. */
  datatype LifecycleState = Start | Stop

  /** `get_info` of an addon: the name it routes under and its callbacks. */
  datatype Info = Info(name: string, callbacks: seq<string>)

  /** Where the addon's code runs: in the core's process, or behind a worker proxy. */
  datatype Kind = Local | Remote(proxy: Parallel.ParallelAddon)

  /** A registered addon. `wiring` is its `get_info`, present once the core's
      listeners are attached (a `get_info` that throws leaves it registered but unwired). */
  datatype Handle = Handle(kind: Kind, wiring: Option<Info>)

  /** What awaiting `get_info` yields. */
  datatype InfoOutcome = InfoOk(info: Info) | InfoThrows(message: string)

  /** What the core does to the outside world: a (deferred) lifecycle callback on an
      addon, or a crash dump written for an error. */
  datatype Action = Trigger(addon: string, state: LifecycleState) | Dumped(error: Failure)

  /** Standalone mode is honoured only on a machine with more than one CPU. */
  function IsStandalone(standalone: bool, cpus: nat): (r: bool)
  {
    if cpus > 1 then standalone else false
  }

  function StateFor(active: bool): LifecycleState
  {
    if active then Start else Stop
  }

  /** `join(root, "addons", name, "index.js")`, without path normalisation. */
  function EntryFile(root: string, name: string): string
  {
    root + "/addons/" + name + "/index.js"
  }

  /** The error a failed local load is dumped with. */
  function LoadError(root: string, name: string, entry: EntryModule): Failure
  {
    match entry
    case RequireThrows(e) => e
    case _ => Error("Failed to load addon " + name + " with entry file at " + EntryFile(root, name))
  }

  /** `exit` triggers `stop` on every registered addon, in registration order. */
  function StopAll(names: seq<string>): (r: seq<Action>)
    ensures |r| == |names|
    ensures forall i :: 0 <= i < |names| ==> r[i] == Trigger(names[i], Stop)
  {
    seq(|names|, i requires 0 <= i < |names| => Trigger(names[i], Stop))
  }

  // ---------------------------------------------------------------------
  // Message routing

  /** What the routing closure of an entry calls: `executeCallback(callback, header, ...args)`
      on the entry's owner. */
  datatype Invocation = Invocation(route: Route, header: Header, args: seq<Value>)

  /** What the called callback produced: a value, a stream that yields some chunks and
      then ends or throws, or a thrown Error. */
  datatype CallResult =
    | Returned(value: Value)
    | Streamed(chunks: seq<string>, failure: Option<string>)
    | Threw(message: string)

  /** How a router reports a result: as an error, a plain body, or a stream of chunks. */
  datatype Outcome = AppError(message: string) | Plain(body: Value) | Stream(chunks: seq<string>, failure: Option<string>)

  /** An object result whose `error` field is neither null nor undefined is rethrown
      as `new Error(error)`; a thrown callback is an error too. */
  function Classify(r: CallResult): (o: Outcome)
    ensures o.AppError? <==>
      r.Threw? || (r.Returned? && IsObject(r.value) && !IsNullOrUndefined(Get(r.value, "error")))
    ensures o.AppError? && r.Returned? ==> o.message == ToStr(Get(r.value, "error"))
    ensures o.AppError? && r.Threw? ==> o.message == r.message
    ensures o.Plain? ==> r == Returned(o.body)
    ensures o.Stream? <==> r.Streamed?
    ensures o.Stream? ==> o.chunks == r.chunks && o.failure == r.failure
  {
    match r
    case Returned(v) =>
      if IsObject(v) && !IsNullOrUndefined(Get(v, "error")) then AppError(ToStr(Get(v, "error"))) else Plain(v)
    case Streamed(chunks, failure) => Stream(chunks, failure)
    case Threw(m) => AppError(m)
  }

  function NotFoundMessage(target: string, name: string): string
  {
    "Unable to found (callback) target '" + target + "' requested by addon '" + name + "'"
  }

  /** The worker proxies of the remote addons of a registry. */
  function ProxiesOf(addons: map<string, Handle>): set<Parallel.ParallelAddon>
  {
    set n | n in addons && addons[n].kind.Remote? :: addons[n].kind.proxy
  }

  /** `k` routes to a declared callback of a registered, wired addon, at that
      callback's address. */
  predicate RouteValid(addons: map<string, Handle>, k: string, r: Route)
  {
    && r.owner in addons
    && addons[r.owner].wiring.Some?
    && r.callback in addons[r.owner].wiring.value.callbacks
    && k == RoutingKey(addons[r.owner].wiring.value.name, r.callback)
  }

  /** Registering an addon adds its proxy, if it has one, to the registry's proxies. */
  lemma ProxiesOfAdd(addons: map<string, Handle>, name: string, handle: Handle)
    requires name !in addons
    ensures ProxiesOf(addons[name := handle]) == ProxiesOf(addons) + (if handle.kind.Remote? then {handle.kind.proxy} else {})
  {
    var after := addons[name := handle];
    forall p | p in ProxiesOf(after)
      ensures p in ProxiesOf(addons) || (handle.kind.Remote? && p == handle.kind.proxy)
    {
      var n :| n in after && after[n].kind.Remote? && after[n].kind.proxy == p;
    }
    forall p | p in ProxiesOf(addons) ensures p in ProxiesOf(after) {
      var n :| n in addons && addons[n].kind.Remote? && addons[n].kind.proxy == p;
      assert after[n] == addons[n];
    }
    if handle.kind.Remote? {
      assert after[name].kind.proxy in ProxiesOf(after);
    }
  }

  /** The entries the start listener of a wired addon installs route validly. */
  lemma InstallKeepsRoutesValid(addons: map<string, Handle>, table: map<string, Route>, owner: string)
    requires owner in addons && addons[owner].wiring.Some?
    requires forall k :: k in table ==> RouteValid(addons, k, table[k])
    ensures var info := addons[owner].wiring.value;
      var t := table + Routes(owner, info.name, info.callbacks);
      forall k :: k in t ==> RouteValid(addons, k, t[k])
  {
    var info := addons[owner].wiring.value;
    var routes := Routes(owner, info.name, info.callbacks);
    forall k | k in table + routes ensures RouteValid(addons, k, (table + routes)[k]) {
      if k in routes {
        RoutesSound(owner, info.name, info.callbacks, k);
      }
    }
  }

  const UNINITIALIZED_EXIT: string := "Core.exit - Cannot close unitialized core"
  const DIRNAME_TYPE_ERROR: string := "dirname should be typeof string!"
  const OPTIONS_TYPE_ERROR: string := "options should be a plain object!"

  class Core {
    const root: string
    /** `this.addons`: registry name to addon. */
    var addons: map<string, Handle>
    /** The registry's insertion order, in which a JavaScript Map iterates. */
    var order: seq<string>
    /** `this.routingTable`: target address to the callback it invokes. */
    var routingTable: map<string, Route>
    var hasBeenInitialized: bool
    /** Addon names whose configuration the core observes. */
    var subscriptions: set<string>
    /** How many message handlers are attached to each registered addon. */
    var messageHandlers: map<string, nat>
    /** Lifecycle triggers and dumps, in the order the core issues them. */
    var actions: seq<Action>

    ghost predicate Valid()
      reads this, ProxiesOf(addons)
    {
      && Distinct(order)
      && (forall n :: n in addons <==> n in order)
      && (forall p :: p in ProxiesOf(addons) ==> p.ipc.Some?)
      && (forall k :: k in routingTable ==> RouteValid(addons, k, routingTable[k]))
    }

    constructor (root: string)
      ensures this.root == root
      ensures addons == map[] && order == [] && routingTable == map[]
      ensures !hasBeenInitialized && subscriptions == {} && messageHandlers == map[] && actions == []
      ensures Valid()
    {
      this.root := root;
      addons := map[];
      order := [];
      routingTable := map[];
      hasBeenInitialized := false;
      subscriptions := {};
      messageHandlers := map[];
      actions := [];
    }

    /** `new Core(dirname, options)` on arbitrary JavaScript values; omitted options
        default to an empty object. Only a plain object passes as options: an array,
        a class instance or a function is refused like a primitive. */
    static method New(dirname: Value, options: Value) returns (r: Result<Core, Failure>)
      ensures !dirname.Str? ==> r == Err(TypeError(DIRNAME_TYPE_ERROR))
      ensures dirname.Str? && !(options.Undefined? || options.Obj?) ==> r == Err(TypeError(OPTIONS_TYPE_ERROR))
      ensures dirname.Str? && (options.Undefined? || options.Obj?) ==>
        && r.Ok? && fresh(r.value) && r.value.root == dirname.s && !r.value.hasBeenInitialized && r.value.Valid()
        && r.value.addons == map[] && r.value.order == [] && r.value.routingTable == map[]
        && r.value.subscriptions == {} && r.value.messageHandlers == map[] && r.value.actions == []
    {
      if !dirname.Str? {
        return Err(TypeError(DIRNAME_TYPE_ERROR));
      }
      if !(options.Undefined? || options.Obj?) {
        return Err(TypeError(OPTIONS_TYPE_ERROR));
      }
      var core := new Core(dirname.s);
      return Ok(core);
    }

    /** Reads the configured addons; when there are none, searches the disk for them
        (`rootFiles` and `listing` are the directory listings of the root and of its
        `addons` directory). Observes every addon found, then marks the core initialized. */
    method Initialize(configured: map<string, AddonProperties>, rootFiles: set<string>, listing: seq<Utils.Entry>)
      requires Valid()
      modifies this
      ensures Valid()
      ensures hasBeenInitialized
      ensures subscriptions == old(subscriptions) +
        (if |configured| > 0 then configured.Keys
         else if "addons" in rootFiles then Utils.AddonNames(listing)
         else {})
      ensures addons == old(addons) && order == old(order) && routingTable == old(routingTable)
      ensures messageHandlers == old(messageHandlers) && actions == old(actions)
    {
      var names := configured.Keys;
      if |configured| == 0 {
        var found := Utils.SearchForAddons(Str(root), rootFiles, listing);
        names := if found.Ok? then found.value.Keys else {};
      }
      var rest := names;
      while rest != {}
        invariant rest <= names
        invariant subscriptions == old(subscriptions) + (names - rest)
        invariant addons == old(addons) && order == old(order) && routingTable == old(routingTable)
        invariant messageHandlers == old(messageHandlers) && actions == old(actions)
        decreases rest
      {
        var n :| n in rest;
        subscriptions := subscriptions + {n};
        rest := rest - {n};
      }
      hasBeenInitialized := true;
    }

    /** An observed addon's configuration changed to `props`. `cpus` is the number of
        CPUs; `entry` is what loading a local entry file yields and `info` what the
        addon's `get_info` yields, should the core get that far. */
    method SetupAddonConfiguration(name: string, props: AddonProperties, cpus: nat, entry: EntryModule, info: InfoOutcome)
      requires Valid()
      modifies this, ProxiesOf(addons)
      ensures Valid()
      ensures routingTable == old(routingTable) && messageHandlers == old(messageHandlers)
      ensures hasBeenInitialized == old(hasBeenInitialized) && subscriptions == old(subscriptions)
      // the registry only grows, and what it held is left as it was
      ensures forall n :: n in old(addons) ==> n in addons && addons[n] == old(addons[n])
      ensures forall p :: p in old(ProxiesOf(addons)) ==> p.ipc == old(p.ipc) && p.forks == old(p.forks)
      // an addon already registered: trigger start or stop
      ensures name in old(addons) ==>
        addons == old(addons) && order == old(order) && actions == old(actions) + [Trigger(name, StateFor(props.active))]
      // an inactive newcomer: nothing happens
      ensures name !in old(addons) && !props.active ==>
        addons == old(addons) && order == old(order) && actions == old(actions)
      // a newcomer that fails to load locally: dumped, not registered, nothing triggered
      ensures name !in old(addons) && props.active && !IsStandalone(props.standalone, cpus) && !entry.AddonInstance? ==>
        addons == old(addons) && order == old(order) && actions == old(actions) + [Dumped(LoadError(root, name, entry))]
      // a newcomer that loads: registered, wired when get_info answers, then started
      ensures name !in old(addons) && props.active && (IsStandalone(props.standalone, cpus) || entry.AddonInstance?) ==>
        && addons.Keys == old(addons).Keys + {name}
        && order == old(order) + [name]
        && (addons[name].kind.Remote? <==> IsStandalone(props.standalone, cpus))
        && addons[name].wiring == (if info.InfoOk? then Some(info.info) else None)
        && actions == old(actions) + (if info.InfoOk? then [Trigger(name, Start)] else [Dumped(Error(info.message))])
      // a standalone newcomer runs in one freshly forked worker, on its entry file
      ensures name !in old(addons) && props.active && IsStandalone(props.standalone, cpus) ==>
        && fresh(addons[name].kind.proxy)
        && addons[name].kind.proxy.root == EntryFile(root, name)
        && addons[name].kind.proxy.ipc == Some(Parallel.Channel(Parallel.FORK_CONTAINER_PATH, [EntryFile(root, name)]))
        && addons[name].kind.proxy.forks == 1
    {
      var standalone := IsStandalone(props.standalone, cpus);
      if name in addons {
        var handle := addons[name];
        if handle.kind.Remote? && props.active && standalone {
          assert handle.kind.proxy in ProxiesOf(addons);
          handle.kind.proxy.CreateForkProcesses();
        }
        actions := actions + [Trigger(name, StateFor(props.active))];
      } else if props.active {
        LoadAddon(name, standalone, entry, info);
      }
    }

    /** The load path of an active addon not yet registered. */
    method LoadAddon(name: string, standalone: bool, entry: EntryModule, info: InfoOutcome)
      requires Valid()
      requires name !in addons
      modifies this
      ensures Valid()
      ensures routingTable == old(routingTable) && messageHandlers == old(messageHandlers)
      ensures hasBeenInitialized == old(hasBeenInitialized) && subscriptions == old(subscriptions)
      ensures forall n :: n in old(addons) ==> n in addons && addons[n] == old(addons[n])
      ensures !standalone && !entry.AddonInstance? ==>
        addons == old(addons) && order == old(order) && actions == old(actions) + [Dumped(LoadError(root, name, entry))]
      ensures standalone || entry.AddonInstance? ==>
        && addons.Keys == old(addons).Keys + {name}
        && order == old(order) + [name]
        && (addons[name].kind.Remote? <==> standalone)
        && addons[name].wiring == (if info.InfoOk? then Some(info.info) else None)
        && actions == old(actions) + (if info.InfoOk? then [Trigger(name, Start)] else [Dumped(Error(info.message))])
      ensures standalone ==>
        && fresh(addons[name].kind.proxy)
        && addons[name].kind.proxy.root == EntryFile(root, name)
        && addons[name].kind.proxy.ipc == Some(Parallel.Channel(Parallel.FORK_CONTAINER_PATH, [EntryFile(root, name)]))
        && addons[name].kind.proxy.forks == 1
    {
      var entryFile := EntryFile(root, name);
      var kind: Kind;
      if standalone {
        var proxy := new Parallel.ParallelAddon(entryFile, name);
        proxy.CreateForkProcesses();
        kind := Remote(proxy);
      } else {
        if !entry.AddonInstance? {
          actions := actions + [Dumped(LoadError(root, name, entry))];
          return;
        }
        kind := Local;
      }
      Register(name, Handle(kind, if info.InfoOk? then Some(info.info) else None));
      if info.InfoThrows? {
        actions := actions + [Dumped(Error(info.message))];
        return;
      }
      if kind.Remote? {
        // a proxy forks once: the second request of the load path changes nothing
        kind.proxy.CreateForkProcesses();
      }
      actions := actions + [Trigger(name, Start)];
    }

    /** `this.addons.set(name, addon)` for an addon not yet registered. */
    method Register(name: string, handle: Handle)
      requires Valid()
      requires name !in addons
      requires handle.kind.Remote? ==> handle.kind.proxy.ipc.Some?
      modifies this
      ensures Valid()
      ensures addons == old(addons)[name := handle] && order == old(order) + [name]
      ensures ProxiesOf(addons) == old(ProxiesOf(addons)) + (if handle.kind.Remote? then {handle.kind.proxy} else {})
      ensures routingTable == old(routingTable) && messageHandlers == old(messageHandlers) && actions == old(actions)
      ensures hasBeenInitialized == old(hasBeenInitialized) && subscriptions == old(subscriptions)
    {
      addons := addons[name := handle];
      order := order + [name];
      ProxiesOfAdd(old(addons), name, handle);
      forall k | k in routingTable ensures RouteValid(addons, k, routingTable[k]) {
        assert RouteValid(old(addons), k, routingTable[k]);
      }
    }

    /** The `start` listener of a wired addon: installs `name.cb` for every declared
        callback, then attaches the message handler. */
    method AddonStarted(owner: string)
      requires Valid()
      requires owner in addons && addons[owner].wiring.Some?
      modifies this
      ensures Valid()
      ensures var info := old(addons[owner].wiring.value);
        routingTable == old(routingTable) + Routes(owner, info.name, info.callbacks)
      ensures messageHandlers == old(messageHandlers)[owner := HandlerCount(old(messageHandlers), owner) + 1]
      ensures addons == old(addons) && order == old(order) && actions == old(actions)
      ensures hasBeenInitialized == old(hasBeenInitialized) && subscriptions == old(subscriptions)
    {
      var info := addons[owner].wiring.value;
      InstallRoutes(owner, info.name, info.callbacks);
      InstallKeepsRoutesValid(addons, old(routingTable), owner);
      messageHandlers := messageHandlers[owner := HandlerCount(messageHandlers, owner) + 1];
    }

    /** The loop of the start listener: `routingTable.set(`${name}.${cb}`, ...)` for each callback. */
    method InstallRoutes(owner: string, name: string, callbacks: seq<string>)
      modifies this
      ensures routingTable == old(routingTable) + Routes(owner, name, callbacks)
      ensures addons == old(addons) && order == old(order) && actions == old(actions)
      ensures messageHandlers == old(messageHandlers)
      ensures hasBeenInitialized == old(hasBeenInitialized) && subscriptions == old(subscriptions)
    {
      var i := 0;
      while i < |callbacks|
        invariant 0 <= i <= |callbacks|
        invariant routingTable == old(routingTable) + Routes(owner, name, callbacks[..i])
        invariant addons == old(addons) && order == old(order) && actions == old(actions)
        invariant messageHandlers == old(messageHandlers)
        invariant hasBeenInitialized == old(hasBeenInitialized) && subscriptions == old(subscriptions)
      {
        var cb := callbacks[i];
        assert callbacks[..i + 1][..i] == callbacks[..i];
        routingTable := routingTable[RoutingKey(name, cb) := Route(owner, cb)];
        i := i + 1;
      }
      assert callbacks[..i] == callbacks;
    }

    /** The `stop` listener of a wired addon: detaches one message handler and removes
        `name.cb` for every declared callback. */
    method AddonStopped(owner: string)
      requires Valid()
      requires owner in addons && addons[owner].wiring.Some?
      modifies this
      ensures Valid()
      ensures var info := old(addons[owner].wiring.value);
        routingTable == old(routingTable) - Keys(info.name, info.callbacks)
      ensures messageHandlers == old(messageHandlers)[owner := if HandlerCount(old(messageHandlers), owner) > 0
                                                            then HandlerCount(old(messageHandlers), owner) - 1 else 0]
      ensures addons == old(addons) && order == old(order) && actions == old(actions)
      ensures hasBeenInitialized == old(hasBeenInitialized) && subscriptions == old(subscriptions)
    {
      var info := addons[owner].wiring.value;
      var count := HandlerCount(messageHandlers, owner);
      messageHandlers := messageHandlers[owner := if count > 0 then count - 1 else 0];
      var i := 0;
      while i < |info.callbacks|
        invariant 0 <= i <= |info.callbacks|
        invariant routingTable == old(routingTable) - Keys(info.name, info.callbacks[..i])
        invariant addons == old(addons) && order == old(order) && actions == old(actions)
        invariant messageHandlers == old(messageHandlers)[owner := if count > 0 then count - 1 else 0]
        invariant hasBeenInitialized == old(hasBeenInitialized) && subscriptions == old(subscriptions)
      {
        var cb := info.callbacks[i];
        assert info.callbacks[..i + 1] == info.callbacks[..i] + [cb];
        assert Keys(info.name, info.callbacks[..i + 1]) == Keys(info.name, info.callbacks[..i]) + {RoutingKey(info.name, cb)};
        routingTable := routingTable - {RoutingKey(info.name, cb)};
        i := i + 1;
      }
      assert info.callbacks[..i] == info.callbacks;
      forall k | k in routingTable ensures RouteValid(addons, k, routingTable[k]) {
        assert RouteValid(old(addons), k, old(routingTable)[k]);
      }
    }

    /** The `ready` listener of a wired addon: every other registered addon, in
        registration order, is told `addonLoaded(name)`; returns whom it told. */
    method AddonReady(owner: string) returns (notified: seq<string>)
      requires Valid()
      requires owner in addons && addons[owner].wiring.Some?
      ensures notified == Others(order, addons[owner].wiring.value.name)
      ensures forall n :: n in notified <==> n in addons && n != addons[owner].wiring.value.name
      ensures Distinct(notified)
    {
      var name := addons[owner].wiring.value.name;
      notified := [];
      var i := 0;
      while i < |order|
        invariant 0 <= i <= |order|
        invariant notified == Others(order[..i], name)
        invariant Distinct(notified)
      {
        assert order[..i + 1][..i] == order[..i];
        if order[i] != name {
          assert order[i] !in order[..i];
          notified := notified + [order[i]];
        }
        i := i + 1;
      }
      assert order[..i] == order;
    }

    /** The error handler of a local addon: an error in its `start` makes the core
        stop it; every error is dumped. */
    method OnAddonError(owner: string, eventName: string, message: string)
      requires Valid()
      requires owner in addons && addons[owner].kind.Local?
      modifies this
      ensures Valid()
      ensures actions == old(actions) + (if eventName == "start" then [Trigger(owner, Stop)] else []) + [Dumped(Error(message))]
      ensures addons == old(addons) && order == old(order) && routingTable == old(routingTable)
      ensures messageHandlers == old(messageHandlers)
      ensures hasBeenInitialized == old(hasBeenInitialized) && subscriptions == old(subscriptions)
    {
      if eventName == "start" {
        actions := actions + [Trigger(owner, Stop)];
      }
      actions := actions + [Dumped(Error(message))];
    }

    /** Closes the core: refused while uninitialized; otherwise triggers `stop` on every
        registered addon and awaits them all. `stopFailure` is the message of the first
        stop that rejects, if any: `exit` then rejects with it and the core stays
        initialized; otherwise the core is marked uninitialized. */
    method Exit(stopFailure: Option<string>) returns (error: Option<Failure>)
      requires Valid()
      modifies this
      ensures Valid()
      ensures error.None? <==> old(hasBeenInitialized) && stopFailure.None?
      ensures !old(hasBeenInitialized) ==> error == Some(Error(UNINITIALIZED_EXIT)) && actions == old(actions)
      ensures old(hasBeenInitialized) ==> actions == old(actions) + StopAll(order)
      ensures old(hasBeenInitialized) ==> forall n :: n in addons ==> Trigger(n, Stop) in actions[|old(actions)|..]
      ensures old(hasBeenInitialized) && stopFailure.Some? ==> error == Some(Error(stopFailure.value))
      ensures hasBeenInitialized <==> old(hasBeenInitialized) && stopFailure.Some?
      ensures addons == old(addons) && order == old(order) && routingTable == old(routingTable)
      ensures messageHandlers == old(messageHandlers) && subscriptions == old(subscriptions)
    {
      if !hasBeenInitialized {
        return Some(Error(UNINITIALIZED_EXIT));
      }
      var i := 0;
      while i < |order|
        invariant 0 <= i <= |order|
        invariant actions == old(actions) + StopAll(order[..i])
        invariant addons == old(addons) && order == old(order) && routingTable == old(routingTable)
        invariant messageHandlers == old(messageHandlers) && subscriptions == old(subscriptions)
        invariant hasBeenInitialized
      {
        assert StopAll(order[..i + 1]) == StopAll(order[..i]) + [Trigger(order[i], Stop)];
        actions := actions + [Trigger(order[i], Stop)];
        i := i + 1;
      }
      assert order[..i] == order;
      forall n | n in addons ensures Trigger(n, Stop) in actions[|old(actions)|..] {
        var j :| 0 <= j < |order| && order[j] == n;
        assert actions[|old(actions)|..][j] == Trigger(n, Stop);
      }
      if stopFailure.Some? {
        return Some(Error(stopFailure.value));
      }
      hasBeenInitialized := false;
      return None;
    }

    /** The route a message for `target` takes: the current entry, or else the entry
        present after the grace wait (`later` is the table as it stands then). */
    function Resolve(later: map<string, Route>, target: string): (r: Option<Route>)
      reads this
      ensures r.None? <==> target !in routingTable && target !in later
      ensures target in routingTable ==> r == Some(routingTable[target])
      ensures target !in routingTable && target in later ==> r == Some(later[target])
    {
      if target in routingTable then Some(routingTable[target])
      else if target in later then Some(later[target])
      else None
    }

    /** The message handler of a remote addon whose `get_info` name is `name`: the
        addon asked, under `messageId`, for `target` with `args`. Returns the callback
        invoked, if any, and the response frames sent back over the channel. */
    method HandleRemoteMessage(name: string, messageId: string, target: string, args: seq<Value>,
                               later: map<string, Route>, result: CallResult)
      returns (call: Option<Invocation>, frames: seq<Frame>)
      ensures forall i :: 0 <= i < |frames| ==> frames[i].header == Header(target, messageId)
      ensures Resolve(later, target).None? ==>
        call == None && frames == [Frame(Header(target, messageId), ErrorData(NotFoundMessage(target, name)))]
      ensures Resolve(later, target).Some? ==>
        call == Some(Invocation(Resolve(later, target).value, Header(name, messageId), args))
      ensures call.Some? && Classify(result).AppError? ==>
        frames == [Frame(Header(target, messageId), ErrorData(Classify(result).message))]
      ensures call.Some? && Classify(result).Plain? ==>
        frames == [Frame(Header(target, messageId), BodyData(Classify(result).body))]
      ensures call.Some? && Classify(result).Stream? ==>
        var o := Classify(result);
        && |frames| == |o.chunks| + 1
        && (forall i :: 0 <= i < |o.chunks| ==> frames[i].data == ChunkData(o.chunks[i]))
        && frames[|o.chunks|].data == (if o.failure.Some? then ErrorData(o.failure.value) else EndData)
    {
      var header := Header(target, messageId);
      var route := Resolve(later, target);
      if route.None? {
        return None, [Frame(header, ErrorData(NotFoundMessage(target, name)))];
      }
      call := Some(Invocation(route.value, Header(name, messageId), args));
      match Classify(result)
      case AppError(m) =>
        frames := [Frame(header, ErrorData(m))];
      case Plain(body) =>
        frames := [Frame(header, BodyData(body))];
      case Stream(chunks, failure) =>
        frames := [];
        var i := 0;
        while i < |chunks|
          invariant 0 <= i <= |chunks|
          invariant |frames| == i
          invariant forall j :: 0 <= j < i ==> frames[j] == Frame(header, ChunkData(chunks[j]))
        {
          frames := frames + [Frame(header, ChunkData(chunks[i]))];
          i := i + 1;
        }
        frames := frames + [Frame(header, if failure.Some? then ErrorData(failure.value) else EndData)];
    }

    /** The message handler of a local addon whose `get_info` name is `name`.
        `observers` are the message ids the addon still awaits once the call returns.
        Returns the callback invoked, if any, and what the observer for `messageId`
        is handed, if the addon has one. */
    method HandleLocalMessage(name: string, messageId: string, target: string, args: seq<Value>,
                              later: map<string, Route>, observers: set<string>, result: CallResult)
      returns (call: Option<Invocation>, delivered: Option<seq<ObserverEvent>>)
      ensures Resolve(later, target).None? ==> call == None
      ensures Resolve(later, target).Some? ==>
        call == Some(Invocation(Resolve(later, target).value, Header(name, messageId), args))
      ensures delivered.Some? <==> messageId in observers
      ensures delivered.Some? ==> Terminated(delivered.value)
      ensures call.None? && delivered.Some? ==> delivered.value == [Failed(Message(NotFoundMessage(target, name)))]
      ensures call.Some? && delivered.Some? && Classify(result).AppError? ==>
        delivered.value == [Failed(ErrorObject(Classify(result).message))]
      ensures call.Some? && delivered.Some? && Classify(result).Plain? ==>
        delivered.value == [Next(Classify(result).body), Complete]
      ensures call.Some? && delivered.Some? && Classify(result).Stream? ==>
        var o := Classify(result);
        && |delivered.value| == |o.chunks| + 1
        && (forall i :: 0 <= i < |o.chunks| ==> delivered.value[i] == Next(Str(o.chunks[i])))
        && delivered.value[|o.chunks|] == (if o.failure.Some? then Failed(ErrorObject(o.failure.value)) else Complete)
    {
      var route := Resolve(later, target);
      if route.None? {
        call := None;
        delivered := if messageId in observers then Some([Failed(Message(NotFoundMessage(target, name)))]) else None;
        return;
      }
      call := Some(Invocation(route.value, Header(name, messageId), args));
      if messageId !in observers {
        return call, None;
      }
      var events: seq<ObserverEvent>;
      match Classify(result) {
        case AppError(m) =>
          events := [Failed(ErrorObject(m))];
        case Plain(body) =>
          events := [Next(body), Complete];
        case Stream(chunks, failure) =>
          events := [];
          var i := 0;
          while i < |chunks|
            invariant 0 <= i <= |chunks|
            invariant |events| == i
            invariant forall j :: 0 <= j < i ==> events[j] == Next(Str(chunks[j]))
          {
            events := events + [Next(Str(chunks[i]))];
            i := i + 1;
          }
          events := events + [if failure.Some? then Failed(ErrorObject(failure.value)) else Complete];
      }
      delivered := Some(events);
    }
  }

  /** `names` without `name`, in their order. */
  function Others(names: seq<string>, name: string): (r: seq<string>)
    ensures forall n :: n in r <==> n in names && n != name
  {
    if names == [] then []
    else
      var last := names[|names| - 1];
      Others(names[..|names| - 1], name) + (if last != name then [last] else [])
  }

  /** The number of message handlers attached to `owner`. */
  function HandlerCount(handlers: map<string, nat>, owner: string): nat
  {
    if owner in handlers then handlers[owner] else 0
  }

  /** `exit` is refused before `initialize`; a stop that rejects makes it reject and
      leaves the core initialized, so a later `exit` succeeds; after that it is refused again. */
  method InitExitScenario(root: string) returns (first: Option<Failure>, failed: Option<Failure>, second: Option<Failure>, third: Option<Failure>)
    ensures first == Some(Error(UNINITIALIZED_EXIT))
    ensures failed == Some(Error("stop failed"))
    ensures second == None
    ensures third == first
  {
    var core := new Core(root);
    first := core.Exit(None);
    core.Initialize(map[], {}, []);
    failed := core.Exit(Some("stop failed"));
    second := core.Exit(None);
    third := core.Exit(None);
  }

  /** A local addon `a` with callbacks `x` and `y`: once started, both addresses route
      to it; once stopped, the routing table is empty again. */
  method StartStopScenario(root: string) returns (started: map<string, Route>, stopped: map<string, Route>)
    ensures started == map["a.x" := Route("a", "x"), "a.y" := Route("a", "y")]
    ensures stopped == map[]
  {
    var core := new Core(root);
    core.SetupAddonConfiguration("a", AddonProperties(true, false), 1, AddonInstance, InfoOk(Info("a", ["x", "y"])));
    core.AddonStarted("a");
    started := core.routingTable;
    core.AddonStopped("a");
    stopped := core.routingTable;
    assert ["x", "y"][..1] == ["x"] && ["x"][..0] == [];
    assert RoutingKey("a", "x") == "a.x" && RoutingKey("a", "y") == "a.y";
    assert Keys("a", ["x", "y"]) == {"a.x", "a.y"};
  }
}
