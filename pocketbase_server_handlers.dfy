/**
 * The string-keyed handler `Registry` of the pocketbase-server program,
 * with `RegisterHandler` and `Dispatch`, which looks a handler up, decodes
 * the payload text and calls the handler.
 */
module PocketbaseServerHandlers {
  import opened Wrappers
  import opened Scheduling

  /** What a `Dispatch` call did: logged an unknown id, logged a decoding failure, or called a handler. */
  datatype DispatchOutcome = UnknownCron(id: JobId) | InvalidPayload | Called(invocation: Invocation)

  class Registry {
    var handlers: map<JobId, Handler>

    constructor()
      ensures handlers == map[]
    {
      handlers := map[];
    }

    /** The last handler registered under an id wins; other entries are left alone. */
    method RegisterHandler(id: JobId, handler: Handler)
      modifies this
      ensures handlers == old(handlers)[id := handler]
    {
      handlers := handlers[id := handler];
    }

    /**
     * `Dispatch`: an unregistered id and undecodable payload text each log
     * and return without calling anything; otherwise the registered handler
     * is called once with the decoded payload. `decode` is the JSON decoder,
     * `None` where it reports an error. The registry is not changed.
     */
    method Dispatch(id: JobId, payloadJson: string, decode: string -> Option<Payload>) returns (r: DispatchOutcome)
      ensures id !in handlers ==> r == UnknownCron(id)
      ensures id in handlers && decode(payloadJson).None? ==> r == InvalidPayload
      ensures id in handlers && decode(payloadJson).Some? ==> r == Called(Invocation(handlers[id], decode(payloadJson).value))
    {
      if id !in handlers {
        return UnknownCron(id);
      }
      var handler := handlers[id];
      var payload := decode(payloadJson);
      if payload.None? {
        return InvalidPayload;
      }
      r := Called(Invocation(handler, payload.value));
    }
  }
}
