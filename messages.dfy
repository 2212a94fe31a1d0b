/** Message shapes shared by the host process and the worker process:
    the callback header and what an addon's observer for a message id receives. */
module Messages {
  import opened Js

  /** The header passed to `executeCallback`: who calls, under which message id. */
  datatype Header = Header(from: string, id: string)

  /** What an observer can be handed as an error: a bare string or an Error object. */
  datatype ErrorValue = Message(text: string) | ErrorObject(message: string)

  /** One notification to an addon's observer (an RxJS-like subscriber). */
  datatype ObserverEvent = Next(value: Value) | Failed(error: ErrorValue) | Complete

  /** A well-formed observer notification sequence: any number of `next`,
      then exactly one terminal notification (`complete` or `error`). */
  predicate Terminated(events: seq<ObserverEvent>)
  {
    && |events| >= 1
    && (events[|events| - 1].Complete? || events[|events| - 1].Failed?)
    && forall i :: 0 <= i < |events| - 1 ==> events[i].Next?
  }

  /** The `data` of a response frame the host sends back over IPC:
      `{error}`, `{body}`, a stream chunk `{body, completed: false}`,
      or the end of a stream `{completed: true}`. */
  datatype ResponseData =
    | ErrorData(error: string)
    | BodyData(body: Value)
    | ChunkData(chunk: string)
    | EndData

  /** A response frame: `{header, data}`. */
  datatype Frame = Frame(header: Header, data: ResponseData)

  /** What `require` of an addon's entry file yields, in the core or in a worker:
      an Addon instance, some other export, or the error that loading the module throws. */
  datatype EntryModule = AddonInstance | OtherExport | RequireThrows(error: Failure)
}
