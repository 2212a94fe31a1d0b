/** The worker proxy: an addon whose code runs in a forked worker process,
    seen by the core through an IPC channel. */
module Parallel {
  import opened Js
  import opened Messages
  import Utils

  /** The script every worker process runs. */
  const FORK_CONTAINER_PATH: string := "forked.container.js"

  const ROOT_TYPE_ERROR: string := "root should be typeof <string>"
  const NAME_TYPE_ERROR: string := "addonName should be typeof <string>"

  /** The IPC channel to a forked worker: the script it runs and its arguments. */
  datatype Channel = Channel(script: string, argv: seq<string>)

  /** The argument checks of the constructor, in the order it makes them. */
  function CheckArguments(root: Value, addonName: Value): (r: Result<(string, string), Failure>)
    ensures r.Ok? <==> root.Str? && addonName.Str?
    ensures r.Ok? ==> r.value == (root.s, addonName.s)
    ensures !root.Str? ==> r == Err(TypeError(ROOT_TYPE_ERROR))
    ensures root.Str? && !addonName.Str? ==> r == Err(TypeError(NAME_TYPE_ERROR))
  {
    if !root.Str? then Err(TypeError(ROOT_TYPE_ERROR))
    else if !addonName.Str? then Err(TypeError(NAME_TYPE_ERROR))
    else Ok((root.s, addonName.s))
  }

  class ParallelAddon {
    /** The addon entry file the worker loads. */
    const root: string
    const addonName: string
    /** The channel to the worker, once forked. */
    var ipc: Option<Channel>
    /** How many worker processes this proxy has forked. */
    var forks: nat

    constructor (root: string, addonName: string)
      ensures this.root == root && this.addonName == addonName
      ensures ipc == None && forks == 0
    {
      this.root := root;
      this.addonName := addonName;
      ipc := None;
      forks := 0;
    }

    /** `new ParallelAddon(root, addonName)` on arbitrary JavaScript values. */
    static method New(root: Value, addonName: Value) returns (r: Result<ParallelAddon, Failure>)
      ensures r.Err? <==> CheckArguments(root, addonName).Err?
      ensures r.Err? ==> r.error == CheckArguments(root, addonName).error
      ensures r.Ok? ==> fresh(r.value) && r.value.ipc == None && r.value.forks == 0
      ensures r.Ok? ==> (r.value.root, r.value.addonName) == CheckArguments(root, addonName).value
    {
      var checked := CheckArguments(root, addonName);
      if checked.Err? {
        return Err(checked.error);
      }
      var addon := new ParallelAddon(checked.value.0, checked.value.1);
      return Ok(addon);
    }

    /** Forks the worker unless one is already running: a second call forks nothing
        and changes nothing. */
    method CreateForkProcesses()
      modifies this
      ensures ipc.Some?
      ensures old(ipc).Some? ==> ipc == old(ipc) && forks == old(forks)
      ensures old(ipc).None? ==> ipc == Some(Channel(FORK_CONTAINER_PATH, [root])) && forks == old(forks) + 1
    {
      if ipc.Some? {
        return;
      }
      ipc := Some(Channel(FORK_CONTAINER_PATH, [root]));
      forks := forks + 1;
    }
  }

  // ---------------------------------------------------------------------
  // Traffic on the channel

  /** What the proxy re-emits locally for a `message` payload from the worker:
      `message(header.id, data.target, data.args)`. */
  datatype LocalMessage = LocalMessage(messageId: Value, target: Value, args: Value)

  /** What the `message` handler does with a payload: the message it re-emits,
      and whether it then acknowledges the payload with `next()`. */
  datatype MessageHandling = MessageHandling(emitted: LocalMessage, acknowledged: bool)

  /** The `message` handler of the channel. Destructuring `{header, data}` and reading
      `header.id`, `data.target`, `data.args` throws on a null or undefined payload,
      header or data, before anything is emitted or acknowledged. */
  function OnIpcMessage(payload: Value): (r: Result<MessageHandling, Failure>)
    ensures r.Ok? <==>
      !IsNullOrUndefined(payload)
      && !IsNullOrUndefined(Get(payload, "header"))
      && !IsNullOrUndefined(Get(payload, "data"))
    ensures r.Ok? ==> r.value.emitted.messageId == Get(Get(payload, "header"), "id")
    ensures r.Ok? ==> r.value.emitted.target == Get(Get(payload, "data"), "target")
    ensures r.Ok? ==> r.value.emitted.args == Get(Get(payload, "data"), "args")
    ensures r.Ok? ==> r.value.acknowledged
  {
    if IsNullOrUndefined(payload) then Err(EngineTypeError)
    else
      var header := Get(payload, "header");
      var data := Get(payload, "data");
      if IsNullOrUndefined(header) || IsNullOrUndefined(data) then
        Err(EngineTypeError)
      else
        Ok(MessageHandling(LocalMessage(Get(header, "id"), Get(data, "target"), Get(data, "args")), true))
  }

  /** The `{header: {id}, data: {target, args}}` payload the proxy expects
      for an outbound call of the worker's addon. */
  function RelayPayload(messageId: string, target: string, args: Value): Value
  {
    Obj(map["header" := Obj(map["id" := Str(messageId)]),
            "data" := Obj(map["target" := Str(target), "args" := args])])
  }

  /** The proxy re-emits exactly the call that was relayed to it. */
  lemma RelayRoundTrip(messageId: string, target: string, args: Value)
    ensures OnIpcMessage(RelayPayload(messageId, target, args))
         == Ok(MessageHandling(LocalMessage(Str(messageId), Str(target), args), true))
  {
  }

  /** The `event` handler of the channel: the event is re-emitted locally under
      its own name, then acknowledged. */
  datatype EventHandling = EventHandling(emitted: string, acknowledged: bool)

  function OnIpcEvent(name: string): (r: EventHandling)
    ensures r.emitted == name && r.acknowledged
  {
    EventHandling(name, true)
  }

  /** The event sent to the worker when the proxy is told that another addon
      loaded: `{from, name: "addonLoaded"}`. */
  function AddonLoadedEvent(from: string): (e: Value)
    ensures Get(e, "from") == Str(from) && Get(e, "name") == Str("addonLoaded")
  {
    Obj(map["from" := Str(from), "name" := Str("addonLoaded")])
  }

  // ---------------------------------------------------------------------
  // executeCallback

  /** The `{header, data: {callback, args}}` request sent over the channel. */
  datatype Request = Request(header: Header, callback: string, args: seq<Value>)

  /** The request `executeCallback(callback, header, ...args)` sends; without
      a header it uses the default one built on `freshId`. */
  function CallRequest(callback: string, header: Option<Header>, freshId: string, args: seq<Value>): (r: Request)
    ensures r.callback == callback && r.args == args
    ensures header.Some? ==> r.header == header.value
    ensures header.None? ==> r.header == Utils.DefaultHeader(freshId)
  {
    Request(if header.Some? then header.value else Utils.DefaultHeader(freshId), callback, args)
  }

  /** The `{body, error}` fields read from the reply's `data`. */
  datatype ReplyData = ReplyData(body: Value, error: Value)

  /** The reply unwrap of executeCallback: a truthy `error` is thrown as
      `new Error(error)`; otherwise `body` is returned unchanged. */
  function Unwrap(reply: ReplyData): (r: Result<Value, Failure>)
    ensures r.Err? <==> Truthy(reply.error)
    ensures r.Ok? ==> r.value == reply.body
    ensures r.Err? ==> r.error == Error(ToStr(reply.error))
  {
    if Truthy(reply.error) then Err(Error(ToStr(reply.error))) else Ok(reply.body)
  }

  /** A reply without an error unwraps to its body, whatever the body is. */
  lemma UnwrapBody(body: Value)
    ensures Unwrap(ReplyData(body, Undefined)) == Ok(body)
  {
  }

  /** A reply whose error is a non-empty string unwraps to a thrown Error carrying
      that string; an empty string is falsy and unwraps to the body. */
  lemma UnwrapError(body: Value, message: string)
    ensures message != "" ==> Unwrap(ReplyData(body, Str(message))) == Err(Error(message))
    ensures message == "" ==> Unwrap(ReplyData(body, Str(message))) == Ok(body)
  {
  }
}
