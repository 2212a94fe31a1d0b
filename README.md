# SlimIO agent core — a Dafny model

This project models the core of the SlimIO agent. The agent is a Node.js host process. It loads *addons* (plug-ins that each expose named callbacks), starts and stops them as their configuration changes, and routes callback calls between them.

Addons run in one of two places:

- inside the core's own process ("local"), or
- inside a forked worker process, behind a `ParallelAddon` proxy ("remote", or standalone).

The model has one module per core file, plus three shared modules:

- `Js` (js.dfy) holds the JavaScript values the core manipulates and their semantics, as far as the core relies on them:
  - truthiness, property reads and `String(...)`;
  - decimal rendering of a timestamp;
  - splitting and joining on a separator.
- `Messages` (messages.dfy) holds the callback header `{from, id}`, the notifications an addon's observer receives (`next` / `error` / `complete`), the response frames the core sends over IPC, and what requiring an addon's entry file yields (shared by the core and the worker).
- `Routing` (routing.dfy) holds the routing table's keys and entries:
  - the address of callback `cb` of an addon named `name` is the string `name + "." + cb`;
  - an entry records which registered addon and which of its callbacks the address invokes.
- `Utils` (utils.dfy) covers src/utils.js:
  - discovery of addon directories over an abstract directory listing;
  - the crash-dump record and dump path;
  - the lock-dependency filter;
  - the default callback header.
- `Parallel` (parallel_addon.dfy) covers src/parallelAddon.class.js:
  - the proxy's constructor checks;
  - its fork-once guard (a class whose `ipc` field is set once);
  - the re-emission of channel traffic;
  - the reply unwrap of `executeCallback`.
- `Forked` (forked_container.dfy) covers src/forked.container.js:
  - the worker's start-up checks;
  - the dispatch of a payload from the host;
  - the envelopes the worker sends when its addon starts and stops (a class `Worker` holding what was sent).
- `Agent` (core.dfy) covers src/core.class.js as a class `Core`. It holds:
  - the registry `addons` and its insertion order;
  - the `routingTable`;
  - the `hasBeenInitialized` flag;
  - the observed configuration names;
  - the number of message handlers attached to each addon;
  - the log of lifecycle triggers and crash dumps the core issues.

  Its methods are:
  - `SetupAddonConfiguration`: reconcile one addon with its configuration;
  - `AddonStarted` / `AddonStopped` / `AddonReady`: the start, stop and ready listeners;
  - `HandleRemoteMessage` / `HandleLocalMessage`: the two message routers;
  - `OnAddonError`: the error handler of local addons;
  - `Initialize` and `Exit`.

  `Core.Valid` is the invariant every method keeps:
  - the insertion order lists exactly the registered names, once each;
  - every worker proxy has forked;
  - every routing entry points at a declared callback of a registered addon that answered `get_info`, at that callback's address.

The outside world becomes parameters. These are:

- the directory listings;
- the number of CPUs;
- what `require` of an entry file yields;
- what `get_info` yields;
- the routing table as it stands after the 750 ms grace wait;
- the set of message ids an addon still awaits;
- what a routed callback returns.

Deferred lifecycle calls (`setImmediate(() => addon.executeCallback(state))`) and dumps are recorded as `Action`s rather than performed.

Two facts about the routing table are stated rather than assumed away:

- **Keys can collide.** Because keys are built by concatenation, callback `c` of addon `a.b` and callback `b.c` of addon `a` share the address `a.b.c`. Starting one then silently takes over the other's route (`Routing.KeysCollide`, `Routing.CollisionOverwrites`). Keys are unambiguous only for addon names without a dot (`Routing.KeyInjective`).
- **A second start adds a second handler.** The start listener attaches the addon's message handler (one closure, built once per addon) each time it runs, with `prependListener`, while the stop listener detaches it once. The model keeps that count (`Core.messageHandlers`). The routing table itself is unaffected by a second start (`Routing.InstallIdempotent`).

## Model

| member | source | states |
|---|---|---|
| `Js.DecimalRoundTrip` | src/utils.js:72-73 | the decimal rendering of a timestamp reads back as that timestamp |
| `Js.JoinSplit` | src/utils.js:78 | joining the pieces of `s.split(sep)` with `sep` gives `s` back |
| `Utils.SearchForAddons` | src/utils.js:25-59 | a non-string root is a TypeError with the exact message; no `addons` entry gives an empty map; otherwise the keys are exactly the names of listed entries that are directories with an accessible `index.js` |
| `Utils.MakeDump` | src/utils.js:74-79 | `code` is the error's code when truthy, else null; `message` is the error itself when a string, else its truthy `message`, else `""`; the stack is present exactly when truthy, and is then split into lines that contain no newline and join back to it; building it fails only on a null/undefined error or a truthy non-string stack |
| `Utils.DumpPath` | src/utils.js:73 | the path is the root, then `/debug/debug_`, the timestamp and `.json` |
| `Utils.DumpPathTimestamp` | src/utils.js:73 | the timestamp can be read back from the dump file name |
| `Utils.GenerateDump` | src/utils.js:71-86 | returns the dump path for the timestamp together with the dump record of the error; throws, returning no path, exactly when that record cannot be built |
| `Utils.EmptyDumpExample` | src/utils.js:76-78 | an empty error object dumps as code null, message `""`, no stack |
| `Utils.SearchForLockedAddons` | src/utils.js:94-100 | yields at most one name per registered addon, each the name of an addon whose locks contain the given name |
| `Utils.LockedComplete` | src/utils.js:95-98 | every addon whose locks contain the name is yielded |
| `Utils.LockedInOrder` | src/utils.js:95-98 | the yielded names keep registry order (a subsequence of the registered names) |
| `Utils.LockedOnce` | src/utils.js:95-98 | with distinct registered names, no name is yielded twice |
| `Utils.DefaultHeader` | src/utils.js:108-110 | the header is from `core` with the given fresh id |
| `Parallel.CheckArguments` | src/parallelAddon.class.js:35-43 | a non-string root, then a non-string addon name, is a TypeError with its message; otherwise both are kept unchanged |
| `Parallel.ParallelAddon.New` | src/parallelAddon.class.js:33-44 | fails exactly as the argument checks do; otherwise a fresh proxy holding both strings, not yet forked |
| `Parallel.ParallelAddon.CreateForkProcesses` | src/parallelAddon.class.js:52-60 | afterwards a channel exists; an existing channel is kept and nothing is forked; otherwise one worker is forked on `forked.container.js` with the proxy's root as its only argument |
| `Parallel.OnIpcMessage` | src/parallelAddon.class.js:68-72 | re-emits `message(header.id, data.target, data.args)` and then acknowledges the payload; throws, without emitting or acknowledging, exactly when the payload, its header or its data is null or undefined |
| `Parallel.RelayRoundTrip` | src/parallelAddon.class.js:68-72 | a relayed `{header: {id}, data: {target, args}}` payload is re-emitted as exactly that call |
| `Parallel.OnIpcEvent` | src/parallelAddon.class.js:62-65 | an event is re-emitted under its own name and acknowledged |
| `Parallel.AddonLoadedEvent` | src/parallelAddon.class.js:74 | a local `addonLoaded(from)` is sent to the worker as `{from, name: "addonLoaded"}` |
| `Parallel.CallRequest` | src/parallelAddon.class.js:91-92 | the request carries the callback and arguments unchanged, and the given header or else the default one |
| `Parallel.Unwrap` | src/parallelAddon.class.js:92-97 | a reply throws exactly when its `error` is truthy, as `Error(String(error))`; otherwise it yields `body` unchanged |
| `Parallel.UnwrapBody` | src/parallelAddon.class.js:92-97 | a `{body}` frame unwraps to its body |
| `Parallel.UnwrapError` | src/parallelAddon.class.js:92-97 | an `{error}` frame with a non-empty message unwraps to a thrown Error with that message, an empty one to undefined |
| `Forked.Startup` | src/forked.container.js:2-50 | the worker listens exactly when its first argument is a string, the module it names loads and is an Addon, and `get_info` answers with an object; a missing or non-string argument is a TypeError with its message, a module that throws while loading fails with its own error, another export is a TypeError with its message, and a failing `get_info` makes `main()` fail before any handler is attached |
| `Forked.ForkedWorkerStarts` | src/forked.container.js:2-17 | a worker forked by the proxy gets the entry file as its argument, so the argument check passes and start-up depends only on that entry and on `get_info` |
| `Forked.Dispatch` | src/forked.container.js:58-76 | a payload with a defined body is a reply: it goes to the observer for its id as one `next` then `complete`, or throws when there is none, and no callback runs; otherwise the callback runs with `args` (default `[]`) and the reply carries the same id and the result, or the thrown error's message |
| `Forked.ThrownCallbackReadsAsResult` | src/forked.container.js:71-73 | the reply of a throwing callback has no `error`, so the proxy's unwrap returns the error message as a result |
| `Forked.Worker.OnStart` | src/forked.container.js:80-84 | starting attaches one more forwarder and sends `{target: "start"}` |
| `Forked.Worker.OnAddonMessage` | src/forked.container.js:39-41 | an outbound call is sent as `{messageId, target, args}` once per attached forwarder |
| `Forked.Worker.OnStop` | src/forked.container.js:87-92 | stopping detaches every forwarder, sends `{target: "stop"}` and schedules the exit |
| `Forked.StartStopScenario` | src/forked.container.js:80-92 | between start and stop a call is forwarded; after stop it no longer is |
| `Routing.RoutingKey` | src/core.class.js:361 | the address is the addon name, a dot, then the callback name |
| `Routing.KeyInjectiveInCallback` | src/core.class.js:361 | under one addon name, distinct callbacks have distinct addresses |
| `Routing.KeysCollide` | src/core.class.js:361 | two different (addon, callback) pairs can share one address once names contain a dot |
| `Routing.KeyInjective` | src/core.class.js:361 | with dot-free addon names, an address determines the addon and the callback |
| `Routing.RoutesKeys` | src/core.class.js:358-364 | the start listener installs exactly the addon's addresses |
| `Routing.RoutesInstallEach` | src/core.class.js:358-364 | every declared callback is installed at its address and invokes that callback of that addon |
| `Routing.RoutesSound` | src/core.class.js:358-364 | every installed entry invokes a declared callback of the addon, at its address |
| `Routing.RoutesCount` | src/core.class.js:358-364 | distinct callbacks give one entry each |
| `Routing.InstallIdempotent` | src/core.class.js:357-364 | running the start listener a second time leaves the table a single run leaves, so the entries under `name.` are still exactly the addon's addresses, as many as its distinct callbacks |
| `Routing.StopUndoesStart` | src/core.class.js:369-374 | the stop listener restores a table that held none of the addon's addresses |
| `Routing.PrefixCount` | src/core.class.js:357-364 | when the table held no address under `name.`, after the start listener the entries under `name.` are exactly the addon's addresses, as many as its distinct callbacks |
| `Routing.CollisionOverwrites` | src/core.class.js:357-374 | starting addon `a` with callback `b.c` takes over the route of callback `c` of addon `a.b`, and stopping `a` removes it |
| `Agent.StopAll` | src/core.class.js:395-397 | one `stop` trigger per registered addon, in registry order |
| `Agent.Classify` | src/core.class.js:262-265 | an object result with a non-null, non-undefined `error`, or a thrown callback, is an error carrying that message; a stream stays a stream; anything else is a plain body |
| `Agent.Core.constructor` | src/core.class.js:50-58 | a new core is uninitialized, with an empty registry and routing table |
| `Agent.Core.New` | src/core.class.js:41-48 | a non-string dirname, then options that are neither omitted nor a plain object (arrays, class instances and functions included), are TypeErrors with their messages; otherwise a fresh, uninitialized core on that dirname, with an empty registry, registry order, routing table, subscription set, handler count and action log |
| `Agent.Core.Initialize` | src/core.class.js:98-130 | observes the configured addons, or the addons found on disk when none are configured, and marks the core initialized |
| `Agent.Core.SetupAddonConfiguration` | src/core.class.js:143-215 | a registered addon is triggered `start` when active, `stop` otherwise; an inactive newcomer, or a local one that fails the Addon check, leaves the registry unchanged and triggers nothing (the failure is dumped); a loaded newcomer is registered and started, in a freshly forked worker exactly when standalone is asked and more than one CPU exists; the registry only grows and existing proxies are left as they were |
| `Agent.Core.LoadAddon` | src/core.class.js:151-191 | the load path of a new active addon, including the one fork a standalone addon gets despite two fork requests |
| `Agent.Core.Register` | src/core.class.js:182 | registering appends the name to the registry order and keeps the core's invariant |
| `Agent.Core.AddonStarted` | src/core.class.js:357-366 | installs the addon's routes over the table and attaches one more message handler |
| `Agent.Core.InstallRoutes` | src/core.class.js:358-364 | the loop sets the address of every declared callback |
| `Agent.Core.AddonStopped` | src/core.class.js:369-374 | removes exactly the addon's addresses, leaves every other entry unchanged and detaches one message handler |
| `Agent.Core.AddonReady` | src/core.class.js:347-354 | the registered addons are told `addonLoaded` in registration order, skipping the one named like the ready addon: exactly the other registered addons, once each |
| `Agent.Core.OnAddonError` | src/core.class.js:170-178 | an error in a local addon's `start` stops it; every error is dumped; the core's invariant is kept |
| `Agent.Core.Exit` | src/core.class.js:389-402 | refused with an Error while uninitialized; otherwise triggers `stop` on every registered addon in registry order, then rejects with the error of a stop that fails and leaves the core initialized, or else marks the core uninitialized |
| `Agent.Core.Resolve` | src/core.class.js:245-249 | the current entry for the target, or else the entry present after the grace wait |
| `Agent.Core.HandleRemoteMessage` | src/core.class.js:242-283 | with no route on either lookup, exactly one not-found error frame and no call; otherwise the routed callback is called with the caller's name and message id, and the reply is one error frame, one body frame, or one chunk frame per streamed chunk in order followed by one completion (or error) frame |
| `Agent.Core.HandleLocalMessage` | src/core.class.js:295-343 | nothing is delivered without an observer for the message id; otherwise the observer gets a not-found error, one error, one `next` then `complete`, or one `next` per chunk then one `complete` (or error), always ending in exactly one terminal notification |
| `Agent.InitExitScenario` | src/core.class.js:389-402 | `exit` is refused before `initialize`; after it, an `exit` whose stop fails rejects and a following one succeeds; then `exit` is refused again |
| `Agent.StartStopScenario` | src/core.class.js:357-374 | a started local addon's callbacks are routed; stopping it empties the table again |

## Left out

- The `@slimio/ipc` channel, `process.send` / `process.on`, `IPC.Stream` and process forking are out of scope: they are foreign transport. The model states the frames and envelopes each side sends; it does not compose the worker's bare `{messageId, body}` replies with the proxy's `{header, data}` framing. The one exception is `Forked.ThrownCallbackReadsAsResult`, which assumes the channel carries the worker's `body` as the reply's `data.body`, with no `data.error`.
- Timers are not modelled. The 750 ms grace wait is a second lookup in a table given as input. The `setImmediate` lifecycle calls are `Trigger` actions.
- The filesystem (`readdir`, `lstat`, `access`, `writeFile`, `createDirectory`) is out of scope. Directory listings are inputs, and the dump is a record, not a written file.
- The date string of a dump is not modelled. Nor are `Date.now()`, `uuid()` and `os.cpus()`, which become parameters.
- `@slimio/config` is out of scope: reading it, its observables and `close`, and the schema. `Initialize` records which names it observes. The link from an observed change to `SetupAddonConfiguration` is left to the caller.
- Agent.Core.Initialize: the source does not guard against a second call, which subscribes every addon again, so each later change would run `setupAddonConfiguration` once per subscription. The model records subscriptions as a set and does not capture that repetition.
- `stdout` logging and the `silent` / `autoReload` options are not modelled: they are output only.
- `path.join` normalisation is left out: entry files and dump paths are plain concatenations.
- Numbers are unbounded integers. No floating point is modelled.
- The `Addon` base class internals are left out: its event emitter, its `observers` map and its `executeCallback` dispatch. Observers are a set of awaited message ids. A routed call is recorded as the `Invocation` it makes, and the callee's outcome is an input.
- Agent.Core.HandleLocalMessage: the source consults the observer map both after the call and again in its error path. The model reads one snapshot, taken after the call.
- Agent.Core.HandleRemoteMessage, Agent.Core.HandleLocalMessage: each models one run of the message handler. After a second start without a stop, the addon has the handler attached twice (`Core.messageHandlers` counts this), so each outbound message would be routed twice: two invocations, and two sets of frames or observer notifications. The routers do not state that fan-out.
- Agent.Core.AddonStopped: it assumes `removeEventListener` detaches one attached message handler. That function belongs to the foreign event emitter.
- Agent.Core.SetupAddonConfiguration: each reconciliation is modelled as one atomic step. In the source, the load path suspends at `await this.setupAddonListener(addon)` (src/core.class.js:183) after registering the addon, and the configuration subscription does not wait for it (src/core.class.js:118-121). A second change for the same name can run in that window and schedule its own trigger first; for example, active then inactive while `get_info` is pending issues `stop` before `start`. The model cannot produce that order.
- Agent.Core.SetupAddonConfiguration: it does not model exceptions from forking a worker. The `catch` around the lifecycle trigger (src/core.class.js:207-212) therefore has no path in the model.
- Forked.Dispatch: the worker calls `executeCallback(callback, ...args)` without a header. How the `Addon` class reads the first argument as a header is left out. The model records the callback and arguments as passed.
- `is-stream` detection is an input: the callee's outcome says whether it produced a stream.
- Utils.SearchForLockedAddons: the model gives every registered addon a lock set. A `ParallelAddon` has no `locks` field (src/parallelAddon.class.js:33-44), so in the source `addon.locks.has` throws a TypeError once the registry holds a proxy. No code in the source calls the generator yet.
- src/fork.wrapper.js is not part of this model: its message handler is empty.
- agent/index.js is not part of this model: it is a CLI runner.
- index.d.ts is not part of this model: it is type declarations only.
