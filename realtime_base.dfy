/**
 * `RealtimeBase`: the connection task that reads the event stream, keeps
 * the client id and the connected flag from the PB_CONNECT and
 * PB_DISCONNECT events and forwards every other event to the channel; the
 * guarded subscribe and unsubscribe requests; and disposal.
 */
module RealtimeBase {
  import opened Wrappers
  import opened Values
  import opened Text
  import opened EventStream
  import Options
  import Extensions

  /** How the JSON data of the two connection events is read: the "clientId" string (which may be null) and the reason list (which may be null). */
  datatype Decoders = Decoders(clientIdOf: string -> Option<string>, reasonsOf: string -> Option<seq<string>>)

  /** The connection fields and the `OnDisconnect` notifications raised so far, each with its reason list. */
  datatype Connection = Connection(clientId: Option<string>, connected: bool, disconnects: seq<seq<string>>)

  const Connect := "PB_CONNECT"
  const Disconnect := "PB_DISCONNECT"

  predicate IsConnectionEvent(name: Option<string>) {
    name == Some(Connect) || name == Some(Disconnect)
  }

  /**
   * One event's effect on the connection fields, shared by `RealtimeBase`
   * and `RealtimeSseClient.HandleEvent`: PB_CONNECT takes the client id and
   * connects, PB_DISCONNECT disconnects and notifies with the reasons (an
   * empty list when they decode to null), any other name changes nothing.
   */
  function OnConnectionEvent(c: Connection, name: Option<string>, data: string, dec: Decoders): (r: Connection)
    ensures name == Some(Connect) ==> r.clientId == dec.clientIdOf(data) && r.connected && r.disconnects == c.disconnects
    ensures name == Some(Disconnect) ==>
      r.clientId == c.clientId && !r.connected && r.disconnects == c.disconnects + [dec.reasonsOf(data).GetOr([])]
    ensures !IsConnectionEvent(name) ==> r == c
  {
    if name == Some(Connect) then c.(clientId := dec.clientIdOf(data), connected := true)
    else if name == Some(Disconnect) then c.(connected := false, disconnects := c.disconnects + [dec.reasonsOf(data).GetOr([])])
    else c
  }

  /** The topic "collection/recordId" both realtime clients subscribe to. */
  function Topic(collection: string, recordId: string): (r: string)
    ensures |r| == |collection| + 1 + |recordId|
    ensures r[..|collection|] == collection && r[|collection|] == '/' && r[|collection| + 1..] == recordId
  {
    collection + "/" + recordId
  }

  /** A collection name without '/' is read back from the topic, and so is the record id. */
  lemma TopicInjective(c1: string, r1: string, c2: string, r2: string)
    requires '/' !in c1 && '/' !in c2
    requires Topic(c1, r1) == Topic(c2, r2)
    ensures c1 == c2 && r1 == r2
  {
  }

  /**
   * The subscribe guard both realtime clients share, with the message each
   * throws: no client id throws before any request; otherwise a POST of the
   * client id and the one topic.
   */
  function SubscribeCall(clientId: Option<string>, topic: string, query: Option<Query>, notConnected: string): (r: Call<()>)
    ensures clientId.None? <==> r.Throws?
    ensures r.Throws? ==> r.error == InvalidOperation(notConnected)
    ensures r.Sends? ==> r.request == Request(Post, "api/realtime",
      Some(ObjectBody(map["clientId" := JString(clientId.value), "subscriptions" := JArray([JString(topic)])])), query)
  {
    if clientId.None? then Throws(InvalidOperation(notConnected))
    else Sends(Request(Post, "api/realtime",
      Some(ObjectBody(map["clientId" := JString(clientId.value), "subscriptions" := JArray([JString(topic)])])), query))
  }

  /** The connection fields and the forwarded events after reading `events` in order. */
  function Run(c: Connection, events: seq<RealtimeEvent>, dec: Decoders): (Connection, seq<RealtimeEvent>)
    decreases |events|
  {
    if |events| == 0 then (c, [])
    else
      var (c', forwarded) := Run(c, events[..|events| - 1], dec);
      var e := events[|events| - 1];
      if IsConnectionEvent(Some(e.event)) then (OnConnectionEvent(c', Some(e.event), e.data, dec), forwarded)
      else (c', forwarded + [e])
  }

  /** The events that are not connection events, in order. */
  function Others(events: seq<RealtimeEvent>): (r: seq<RealtimeEvent>)
    ensures forall i :: 0 <= i < |r| ==> !IsConnectionEvent(Some(r[i].event))
    decreases |events|
  {
    if |events| == 0 then []
    else
      var e := events[|events| - 1];
      Others(events[..|events| - 1]) + (if IsConnectionEvent(Some(e.event)) then [] else [e])
  }

  /** The number of events named `name`. */
  function CountNamed(events: seq<RealtimeEvent>, name: string): nat
    decreases |events|
  {
    if |events| == 0 then 0
    else CountNamed(events[..|events| - 1], name) + (if events[|events| - 1].event == name then 1 else 0)
  }

  /** The last connection event, if any. */
  function LastConnectionEvent(events: seq<RealtimeEvent>): (r: Option<RealtimeEvent>)
    ensures r.Some? ==> IsConnectionEvent(Some(r.value.event)) && r.value in events
    decreases |events|
  {
    if |events| == 0 then None
    else if IsConnectionEvent(Some(events[|events| - 1].event)) then Some(events[|events| - 1])
    else LastConnectionEvent(events[..|events| - 1])
  }

  /** The last PB_CONNECT event, if any. */
  function LastConnect(events: seq<RealtimeEvent>): (r: Option<RealtimeEvent>)
    ensures r.Some? ==> r.value.event == Connect && r.value in events
    decreases |events|
  {
    if |events| == 0 then None
    else if events[|events| - 1].event == Connect then Some(events[|events| - 1])
    else LastConnect(events[..|events| - 1])
  }

  /**
   * Reading a stream: every event other than the two connection events
   * reaches the channel, in order, and connection events never do; there is
   * one disconnect notification per PB_DISCONNECT; the client id is that of
   * the last PB_CONNECT; and the client is connected exactly when the last
   * connection event was a PB_CONNECT.
   */
  lemma {:induction false} RunProperties(c: Connection, events: seq<RealtimeEvent>, dec: Decoders)
    ensures Run(c, events, dec).1 == Others(events)
    ensures |Run(c, events, dec).0.disconnects| == |c.disconnects| + CountNamed(events, Disconnect)
    ensures Run(c, events, dec).0.disconnects[..|c.disconnects|] == c.disconnects
    ensures Run(c, events, dec).0.clientId == if LastConnect(events).Some? then dec.clientIdOf(LastConnect(events).value.data) else c.clientId
    ensures Run(c, events, dec).0.connected == if LastConnectionEvent(events).Some? then LastConnectionEvent(events).value.event == Connect else c.connected
    decreases |events|
  {
    if |events| > 0 {
      RunProperties(c, events[..|events| - 1], dec);
    }
  }

  /** The state of a `RealtimeBase`. */
  class Realtime {
    var clientId: Option<string>
    var connected: bool
    /** The `OnDisconnect` notifications, by reason list. */
    var disconnects: seq<seq<string>>
    /** The events written to `_eventChannel`. */
    var channel: seq<RealtimeEvent>
    var channelCompleted: bool
    var cancelled: bool
    /** Whether `_connectionTask` is set. */
    var connectionStarted: bool

    function State(): Connection
      reads this
    {
      Connection(clientId, connected, disconnects)
    }

    constructor()
      ensures clientId == None && !connected && disconnects == [] && channel == []
      ensures !channelCompleted && !cancelled && !connectionStarted
    {
      clientId := None;
      connected := false;
      disconnects := [];
      channel := [];
      channelCompleted := false;
      cancelled := false;
      connectionStarted := false;
    }

    /**
     * `EnsureConnectedAsync`: nothing when the connection task already
     * exists; otherwise the task reads the stream `lines` to its end,
     * handling each event, and then clears the connected flag.
     */
    method EnsureConnected(lines: seq<string>, dec: Decoders)
      modifies this
      ensures old(connectionStarted) ==> State() == old(State()) && channel == old(channel)
      ensures !old(connectionStarted) ==>
        clientId == Run(old(State()), Parse(lines), dec).0.clientId
        && disconnects == Run(old(State()), Parse(lines), dec).0.disconnects && !connected
        && channel == old(channel) + Run(old(State()), Parse(lines), dec).1
      ensures connectionStarted
      ensures channelCompleted == old(channelCompleted) && cancelled == old(cancelled)
    {
      if connectionStarted {
        return;
      }
      connectionStarted := true;
      var events := StreamRawEvents(lines);
      ghost var start := State();
      ghost var channel0 := channel;
      for i := 0 to |events|
        invariant Run(start, events[..i], dec).0 == State()
        invariant channel == channel0 + Run(start, events[..i], dec).1
        invariant connectionStarted && channelCompleted == old(channelCompleted) && cancelled == old(cancelled)
      {
        assert events[..i + 1][..i] == events[..i];
        var evt := events[i];
        if evt.event == Connect {
          clientId := dec.clientIdOf(evt.data);
          connected := true;
        } else if evt.event == Disconnect {
          connected := false;
          var reasons := dec.reasonsOf(evt.data).GetOr([]);
          disconnects := disconnects + [reasons];
        } else {
          channel := channel + [evt];
        }
      }
      assert events[..|events|] == events;
      connected := false;
    }

    /** `SubscribeInternalAsync`: throws without a client id, else POSTs the client id and the one topic. */
    function SubscribeInternal(topic: string, options: Options.SendOptions?): (r: Call<()>)
      reads this, options, if options != null && options.query != null then {options.query} else {}
      ensures clientId.None? <==> r.Throws?
      ensures r.Throws? ==> r.error == InvalidOperation("Realtime not connected.")
      ensures r.Sends? ==> r.request == Request(Post, "api/realtime",
        Some(ObjectBody(map["clientId" := JString(clientId.value), "subscriptions" := JArray([JString(topic)])])),
        Extensions.OptionalDictionary(options))
    {
      SubscribeCall(clientId, topic, Extensions.OptionalDictionary(options), "Realtime not connected.")
    }

    /** `UnsubscribeInternalAsync`: throws without a client id, else POSTs the client id and the topics to drop. */
    function UnsubscribeInternal(topics: seq<string>): (r: Call<()>)
      reads this
      ensures clientId.None? <==> r.Throws?
      ensures r.Throws? ==> r.error == InvalidOperation("Realtime not connected.")
      ensures r.Sends? ==> r.request == Request(Post, "api/realtime",
        Some(ObjectBody(map["clientId" := JString(clientId.value),
                            "unsubscribe" := JArray(JStrings(topics))])),
        None)
    {
      if clientId.None? then Throws(InvalidOperation("Realtime not connected."))
      else Sends(Request(Post, "api/realtime",
        Some(ObjectBody(map["clientId" := JString(clientId.value),
                            "unsubscribe" := JArray(JStrings(topics))])),
        None))
    }

    /** `DisposeAsync`: cancels, completes the channel, disconnects and notifies once with no reasons. */
    method Dispose()
      modifies this
      ensures cancelled && channelCompleted && !connected
      ensures disconnects == old(disconnects) + [[]]
      ensures clientId == old(clientId) && channel == old(channel) && connectionStarted == old(connectionStarted)
    {
      cancelled := true;
      channelCompleted := true;
      connected := false;
      disconnects := disconnects + [[]];
    }
  }
}
