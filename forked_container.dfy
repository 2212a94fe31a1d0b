/** The worker process that hosts one standalone addon: its start-up checks,
    the dispatch of payloads arriving from the host, and the envelopes it sends
    when its addon starts and stops. */
module Forked {
  import opened Js
  import opened Messages
  import Parallel

  const ARGV_ERROR: string := "fork.wrapper --addonPath should be typeof <string>"
  const ENTRY_ERROR: string := "fork.wrapper addon entry file should be a SlimIO Addon"

  /** How start-up ends. `Listening`: `main()` got the addon's `get_info` and attached
      the message, start and stop handlers; `name` is the `name` it read. `Thrown`: the
      module threw before `main()` ran. `MainFailed`: `main()` rejected before attaching
      any handler, and the worker exits with code 1. */
  datatype Boot = Listening(addonPath: string, name: Value) | Thrown(error: Failure) | MainFailed(error: Failure)

  /** Start-up: `args` is `process.argv.slice(2)`; `entry` is what requiring the first
      argument yields; `info` is what awaiting the addon's `get_info` yields. */
  function Startup(args: seq<Value>, entry: EntryModule, info: Result<Value, Failure>): (r: Boot)
    ensures r.Listening? <==>
      |args| >= 1 && args[0].Str? && entry.AddonInstance? && info.Ok? && !IsNullOrUndefined(info.value)
    ensures r.Listening? ==> r.addonPath == args[0].s && r.name == Get(info.value, "name")
    ensures (|args| == 0 || !args[0].Str?) ==> r == Thrown(TypeError(ARGV_ERROR))
    ensures |args| >= 1 && args[0].Str? && entry.RequireThrows? ==> r == Thrown(entry.error)
    ensures |args| >= 1 && args[0].Str? && entry.OtherExport? ==> r == Thrown(TypeError(ENTRY_ERROR))
    ensures |args| >= 1 && args[0].Str? && entry.AddonInstance? && info.Err? ==> r == MainFailed(info.error)
    ensures |args| >= 1 && args[0].Str? && entry.AddonInstance? && info.Ok? && IsNullOrUndefined(info.value) ==>
      r == MainFailed(EngineTypeError)
  {
    var addonPath := if |args| >= 1 then args[0] else Undefined;
    if !addonPath.Str? then Thrown(TypeError(ARGV_ERROR))
    else match entry
      case RequireThrows(e) => Thrown(e)
      case OtherExport => Thrown(TypeError(ENTRY_ERROR))
      case AddonInstance =>
        match info
        case Err(e) => MainFailed(e)
        // Destructuring `{ name }` out of null or undefined throws.
        case Ok(v) => if IsNullOrUndefined(v) then MainFailed(EngineTypeError) else Listening(addonPath.s, Get(v, "name"))
  }

  /** A worker forked by the proxy receives the proxy's entry file as its only
      argument, so its start-up depends only on that file and on `get_info`. */
  lemma ForkedWorkerStarts(root: string, entry: EntryModule, info: Result<Value, Failure>)
    ensures var argv := Parallel.Channel(Parallel.FORK_CONTAINER_PATH, [root]).argv;
      var r := Startup(seq(|argv|, i requires 0 <= i < |argv| => Str(argv[i])), entry, info);
      && (r.Listening? <==> entry.AddonInstance? && info.Ok? && !IsNullOrUndefined(info.value))
      && (r.Listening? ==> r.addonPath == root)
      && (entry.RequireThrows? ==> r == Thrown(entry.error))
      && (entry.OtherExport? ==> r == Thrown(TypeError(ENTRY_ERROR)))
  {
    var argv := Parallel.Channel(Parallel.FORK_CONTAINER_PATH, [root]).argv;
    var args := seq(|argv|, i requires 0 <= i < |argv| => Str(argv[i]));
    assert |args| >= 1 && args[0] == Str(root);
  }

  // ---------------------------------------------------------------------
  // The `message` handler

  /** A payload from the host: `{messageId, callback, body, args}`; `args` may be absent. */
  datatype Payload = Payload(messageId: string, callback: string, body: Value, args: Option<seq<Value>>)

  /** What running the addon's callback does: return a value or throw an Error. */
  datatype CallOutcome = Returned(value: Value) | Threw(message: string)

  /** The reply the worker sends: `{messageId, body}`; it has no `error` field. */
  datatype WorkerReply = WorkerReply(messageId: string, body: Value)

  datatype Dispatched =
    | Delivered(messageId: string, events: seq<ObserverEvent>)  // a reply handed to the waiting observer
    | MissingObserver(messageId: string)                        // no observer: `observer.next` throws
    | Executed(callback: string, args: seq<Value>, reply: WorkerReply)

  /** One payload from the host. A defined `body` marks a reply to one of the
      addon's own calls; otherwise the named callback runs, with `outcome` what
      it does, and its result is sent back under the same message id. */
  function Dispatch(p: Payload, observers: set<string>, outcome: CallOutcome): (r: Dispatched)
    ensures !p.body.Undefined? <==> !r.Executed?
    ensures !p.body.Undefined? && p.messageId in observers ==>
      r == Delivered(p.messageId, [Next(p.body), Complete]) && Terminated(r.events)
    ensures !p.body.Undefined? && p.messageId !in observers ==> r == MissingObserver(p.messageId)
    ensures r.Executed? ==>
      && r.callback == p.callback
      && r.args == (if p.args.Some? then p.args.value else [])
      && r.reply.messageId == p.messageId
      && r.reply.body == (match outcome case Returned(v) => v case Threw(m) => Str(m))
  {
    if !p.body.Undefined? then
      if p.messageId in observers then Delivered(p.messageId, [Next(p.body), Complete])
      else MissingObserver(p.messageId)
    else
      var args := if p.args.Some? then p.args.value else [];
      var body := match outcome case Returned(v) => v case Threw(m) => Str(m);
      Executed(p.callback, args, WorkerReply(p.messageId, body))
  }

  /** Read with the proxy's `{body, error}` unwrap, the reply of a callback that
      threw carries no error: the proxy returns the error's message as the result.
      This assumes the channel delivers the worker's `body` as the reply's
      `data.body`, and nothing as its `data.error`. */
  lemma ThrownCallbackReadsAsResult(p: Payload, observers: set<string>, message: string)
    requires p.body.Undefined?
    ensures var r := Dispatch(p, observers, Threw(message));
      Parallel.Unwrap(Parallel.ReplyData(r.reply.body, Undefined)) == Ok(Str(message))
  {
  }

  // ---------------------------------------------------------------------
  // Start and stop

  /** An envelope the worker sends to the host with `process.send`. */
  datatype Outbound =
    | Relay(messageId: Value, target: Value, args: Value)  // `{messageId, target, args}`
    | Lifecycle(event: string)                             // `{target: "start"}` / `{target: "stop"}`

  function Copies(o: Outbound, n: nat): (r: seq<Outbound>)
    ensures |r| == n && forall i :: 0 <= i < n ==> r[i] == o
  {
    seq(n, _ => o)
  }

  class Worker {
    /** `sendMessage` listeners attached to the addon's `message` event. */
    var forwarders: nat
    /** Everything sent to the host, in order. */
    var sent: seq<Outbound>
    /** Set once `process.exit` has been scheduled. */
    var exitScheduled: bool

    constructor ()
      ensures forwarders == 0 && sent == [] && !exitScheduled
    {
      forwarders := 0;
      sent := [];
      exitScheduled := false;
    }

    /** The addon started: forward its outbound calls and announce the start. */
    method OnStart()
      modifies this
      ensures forwarders == old(forwarders) + 1
      ensures sent == old(sent) + [Lifecycle("start")]
      ensures exitScheduled == old(exitScheduled)
    {
      forwarders := forwarders + 1;
      sent := sent + [Lifecycle("start")];
    }

    /** The addon emitted `message(messageId, target, args)`: every attached
        forwarder sends it on. */
    method OnAddonMessage(messageId: Value, target: Value, args: Value)
      modifies this
      ensures forwarders == old(forwarders) && exitScheduled == old(exitScheduled)
      ensures sent == old(sent) + Copies(Relay(messageId, target, args), forwarders)
    {
      sent := sent + Copies(Relay(messageId, target, args), forwarders);
    }

    /** The addon stopped: detach all forwarding, announce the stop, then exit. */
    method OnStop()
      modifies this
      ensures forwarders == 0
      ensures sent == old(sent) + [Lifecycle("stop")]
      ensures exitScheduled
    {
      forwarders := 0;
      sent := sent + [Lifecycle("stop")];
      exitScheduled := true;
    }
  }

  /** A worker whose addon starts, emits one call, stops and emits another:
      only the first call is forwarded, between the two lifecycle envelopes. */
  method StartStopScenario(first: Value, second: Value) returns (sent: seq<Outbound>)
    ensures sent == [Lifecycle("start"), Relay(first, Str("b.echo"), Undefined), Lifecycle("stop")]
  {
    var w := new Worker();
    w.OnStart();
    w.OnAddonMessage(first, Str("b.echo"), Undefined);
    w.OnStop();
    w.OnAddonMessage(second, Str("b.echo"), Undefined);
    sent := w.sent;
  }
}
