/**
 * `RealtimeSseClient`: its own handling of the two connection events and
 * its subscribe guard, which differs from `RealtimeBase` only in the message.
 */
module RealtimeSseClient {
  import opened Wrappers
  import opened Values
  import opened RealtimeBase
  import Options
  import Extensions

  class SseClient {
    var clientId: Option<string>
    var connected: bool
    /** The `OnDisconnect` notifications, by reason list. */
    var disconnects: seq<seq<string>>

    function State(): Connection
      reads this
    {
      Connection(clientId, connected, disconnects)
    }

    constructor()
      ensures clientId == None && !connected && disconnects == []
    {
      clientId := None;
      connected := false;
      disconnects := [];
    }

    /** `HandleEvent`: the switch on the event name. */
    method HandleEvent(evt: Option<string>, data: string, dec: Decoders)
      modifies this
      ensures State() == OnConnectionEvent(old(State()), evt, data, dec)
    {
      if evt == Some(Connect) {
        clientId := dec.clientIdOf(data);
        connected := true;
      } else if evt == Some(Disconnect) {
        connected := false;
        var reasons := dec.reasonsOf(data).GetOr([]);
        disconnects := disconnects + [reasons];
      }
    }

    /** `SubscribeInternalAsync`: throws before any request without a client id, else POSTs the client id and the one topic. */
    function SubscribeInternal(topic: string, options: Options.SendOptions?): (r: Call<()>)
      reads this, options, if options != null && options.query != null then {options.query} else {}
      ensures clientId.None? <==> r.Throws?
      ensures r.Throws? ==> r.error == InvalidOperation("Realtime client not connected.")
      ensures r.Sends? ==> r.request == Request(Post, "api/realtime",
        Some(ObjectBody(map["clientId" := JString(clientId.value), "subscriptions" := JArray([JString(topic)])])),
        Extensions.OptionalDictionary(options))
    {
      SubscribeCall(clientId, topic, Extensions.OptionalDictionary(options), "Realtime client not connected.")
    }
  }

  /**
   * A PB_DISCONNECT after a PB_CONNECT leaves the client id of the connect
   * and one more notification, and the client disconnected.
   */
  lemma ConnectThenDisconnect(c: Connection, connectData: string, disconnectData: string, dec: Decoders)
    ensures var after := OnConnectionEvent(OnConnectionEvent(c, Some(Connect), connectData, dec), Some(Disconnect), disconnectData, dec);
      after.clientId == dec.clientIdOf(connectData) && !after.connected
      && after.disconnects == c.disconnects + [dec.reasonsOf(disconnectData).GetOr([])]
  {
  }
}
