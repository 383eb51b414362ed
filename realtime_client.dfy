/**
 * `RealtimeClient`: the callback registry `_subscriptions2` from topic
 * "collection/recordId" to its listeners, the handle that removes a
 * listener again, the dispatcher that routes record events to listeners,
 * and the three `Unsubscribe*` methods, which work on the other dictionary
 * `_subscriptions`.
 */
module RealtimeClient {
  import opened Wrappers
  import opened Values
  import opened Text
  import opened EventStream
  import opened RealtimeBase
  import Options
  import Extensions

  /** A listener delegate, named by a number: two delegates are equal when they call the same method on the same target. */
  type Listener = nat

  /** A topic and the listeners registered under it, in registration order. */
  type Registry = map<string, seq<Listener>>

  /** A "record" event as `ParseRecordEvent` reads it from the event data. */
  datatype RecordEvent = RecordEvent(action: string, collection: string, recordId: Option<string>, record: map<string, Json>)

  /** One call of a listener with an event. */
  datatype Invocation = Invocation(listener: Listener, evt: RecordEvent)

  /** `List.Remove`: the first occurrence of `l` is taken out. */
  function RemoveFirst(s: seq<Listener>, l: Listener): (r: seq<Listener>)
    ensures l !in s ==> r == s
    ensures l in s ==> |r| == |s| - 1
    decreases |s|
  {
    if |s| == 0 then []
    else if s[0] == l then s[1..]
    else [s[0]] + RemoveFirst(s[1..], l)
  }

  /** Exactly the first occurrence goes: the listeners before and after it stay, in order. */
  lemma {:induction false} RemoveFirstAt(s: seq<Listener>, l: Listener, i: nat)
    requires i < |s| && s[i] == l && l !in s[..i]
    ensures RemoveFirst(s, l) == s[..i] + s[i + 1..]
    decreases i
  {
    if i > 0 {
      assert s[1..][..i - 1] == s[1..i];
      RemoveFirstAt(s[1..], l, i - 1);
      assert s[1..][i..] == s[i + 1..];
      assert s[..i] == [s[0]] + s[1..i];
    }
  }

  /** One occurrence fewer of `l`, the others unchanged. */
  lemma {:induction false} RemoveFirstMultiset(s: seq<Listener>, l: Listener)
    ensures multiset(RemoveFirst(s, l)) == multiset(s) - multiset{l}
    decreases |s|
  {
    if |s| > 0 {
      assert s == [s[0]] + s[1..];
      if s[0] != l {
        RemoveFirstMultiset(s[1..], l);
      }
    }
  }

  /** Every topic has at least one listener. */
  predicate NoEmptyLists(m: Registry) {
    forall k :: k in m ==> |m[k]| > 0
  }

  /** Subscribing: the listener goes to the end of its topic's list, which is created when absent. */
  function AddListener(m: Registry, key: string, l: Listener): (r: Registry)
    ensures r.Keys == m.Keys + {key}
    ensures r[key] == (if key in m then m[key] else []) + [l]
    ensures forall k :: k in m && k != key ==> r[k] == m[k]
    ensures NoEmptyLists(m) ==> NoEmptyLists(r)
  {
    m[key := (if key in m then m[key] else []) + [l]]
  }

  /** Disposing: the listener's first occurrence leaves its topic's list, and a list left empty takes its topic with it. */
  function RemoveListener(m: Registry, key: string, l: Listener): (r: Registry)
    ensures key !in m ==> r == m
    ensures r.Keys <= m.Keys && forall k :: k in m && k != key ==> k in r && r[k] == m[k]
    ensures key in m ==> (key in r <==> RemoveFirst(m[key], l) != [])
    ensures key in r ==> r[key] == RemoveFirst(m[key], l)
    ensures NoEmptyLists(m) ==> NoEmptyLists(r)
  {
    if key !in m then m
    else
      var rest := RemoveFirst(m[key], l);
      if |rest| == 0 then m - {key} else m[key := rest]
  }

  /** Disposing the handle of a fresh subscription undoes it, when the listener was not already under that topic. */
  lemma RemoveAfterAdd(m: Registry, key: string, l: Listener)
    requires NoEmptyLists(m)
    requires key !in m || l !in m[key]
    ensures RemoveListener(AddListener(m, key, l), key, l) == m
  {
    var added := AddListener(m, key, l);
    var before := if key in m then m[key] else [];
    assert added[key][..|before|] == before;
    RemoveFirstAt(added[key], l, |before|);
    assert added[key][..|before|] + added[key][|before| + 1..] == before;
  }

  /** Whatever was there before, disposing after subscribing leaves the topic's listeners the same as a multiset. */
  lemma RemoveAfterAddMultiset(m: Registry, key: string, l: Listener)
    requires NoEmptyLists(m) && key in m
    ensures key in RemoveListener(AddListener(m, key, l), key, l)
    ensures multiset(RemoveListener(AddListener(m, key, l), key, l)[key]) == multiset(m[key])
  {
    RemoveFirstMultiset(m[key] + [l], l);
    assert multiset(m[key] + [l]) == multiset(m[key]) + multiset{l};
    assert |RemoveFirst(m[key] + [l], l)| == |m[key]| > 0;
  }

  /** The dispatcher's routing key: "collection/recordId", with "*" for a record without id. */
  function RecordKey(rec: RecordEvent): string {
    Topic(rec.collection, rec.recordId.GetOr("*"))
  }

  /** The calls one event causes: none unless it is a "record" event whose key has listeners; else each of them, in order. */
  function Deliver(subs: Registry, e: RealtimeEvent, parse: string -> RecordEvent): (r: seq<Invocation>)
    ensures e.event != "record" || RecordKey(parse(e.data)) !in subs ==> r == []
    ensures e.event == "record" && RecordKey(parse(e.data)) in subs ==>
      |r| == |subs[RecordKey(parse(e.data))]|
      && forall i :: 0 <= i < |r| ==> r[i] == Invocation(subs[RecordKey(parse(e.data))][i], parse(e.data))
  {
    if e.event != "record" then []
    else
      var rec := parse(e.data);
      var key := RecordKey(rec);
      if key !in subs then []
      else seq(|subs[key]|, i requires 0 <= i < |subs[key]| => Invocation(subs[key][i], rec))
  }

  /** The calls a sequence of events causes, event by event. */
  function DispatchAll(subs: Registry, events: seq<RealtimeEvent>, parse: string -> RecordEvent): seq<Invocation>
    decreases |events|
  {
    if |events| == 0 then []
    else DispatchAll(subs, events[..|events| - 1], parse) + Deliver(subs, events[|events| - 1], parse)
  }

  /**
   * Routing: a listener is called for an event exactly when the event is a
   * "record" event and the listener is registered under the event's key.
   */
  lemma DeliverReaches(subs: Registry, e: RealtimeEvent, parse: string -> RecordEvent, l: Listener)
    ensures (exists i :: 0 <= i < |Deliver(subs, e, parse)| && Deliver(subs, e, parse)[i].listener == l)
      <==> e.event == "record" && RecordKey(parse(e.data)) in subs && l in subs[RecordKey(parse(e.data))]
  {
    if e.event == "record" && RecordKey(parse(e.data)) in subs && l in subs[RecordKey(parse(e.data))] {
      var list := subs[RecordKey(parse(e.data))];
      var i :| 0 <= i < |list| && list[i] == l;
      assert Deliver(subs, e, parse)[i].listener == l;
    }
  }

  /**
   * A listener of "collection/recordId" hears a record of that collection
   * exactly when the record has that id, or has none and `recordId` is "*":
   * a "*" subscriber does not hear records that have an id.
   */
  lemma TopicRouting(collection: string, recordId: string, rec: RecordEvent)
    requires rec.collection == collection
    ensures RecordKey(rec) == Topic(collection, recordId) <==> rec.recordId.GetOr("*") == recordId
  {
    var a := RecordKey(rec);
    var b := Topic(collection, recordId);
    if a == b {
      assert a[|collection| + 1..] == b[|collection| + 1..];
    }
  }

  /** The body of the unsubscribe requests: a client id and a list of subscriptions. */
  function ClientBody(clientId: string, subscriptions: seq<string>): map<string, Json> {
    map["clientId" := JString(clientId), "subscriptions" := JArray(JStrings(subscriptions))]
  }

  /** The registry without the topics that start with `prefix` (ordinal comparison). */
  function WithoutPrefix(m: Registry, prefix: string): (r: Registry)
    ensures forall k :: k in r <==> k in m && !StartsWith(k, prefix)
    ensures forall k :: k in r ==> r[k] == m[k]
  {
    map k | k in m && !StartsWith(k, prefix) :: m[k]
  }

  /** The elements of a set in the order the dictionary enumerates them, once each. */
  method EnumerateKeys(keys: set<string>) returns (r: seq<string>)
    ensures forall k :: k in r <==> k in keys
    ensures |r| == |keys|
  {
    r := [];
    var rest := keys;
    while rest != {}
      invariant rest <= keys
      invariant forall k :: k in r <==> k in keys && k !in rest
      invariant |r| + |rest| == |keys|
      decreases rest
    {
      var k :| k in rest;
      r := r + [k];
      rest := rest - {k};
    }
  }

  class Client {
    var clientId: Option<string>
    var connected: bool
    /** The `OnDisconnect` notifications, by reason list. */
    var disconnects: seq<seq<string>>
    /** Whether `_connectionTask` is set. */
    var connectionStarted: bool
    /** The events written to `_eventChannel` and not yet read by a dispatcher. */
    var eventChannel: seq<RealtimeEvent>
    /** `_subscriptions`, the dictionary the `Unsubscribe*` methods change. */
    var subscriptions: Registry
    /** `_subscriptions2`, the callback registry. */
    var subscriptions2: Registry
    /** How many dispatcher tasks have been started. */
    var dispatchers: nat

    ghost predicate Valid()
      reads this
    {
      NoEmptyLists(subscriptions2)
    }

    constructor()
      ensures Valid()
      ensures clientId == None && !connected && disconnects == [] && !connectionStarted
      ensures eventChannel == [] && subscriptions == map[] && subscriptions2 == map[] && dispatchers == 0
    {
      clientId := None;
      connected := false;
      disconnects := [];
      connectionStarted := false;
      eventChannel := [];
      subscriptions := map[];
      subscriptions2 := map[];
      dispatchers := 0;
    }

    /**
     * `EnsureConnectedAsync2`: nothing when the connection task already
     * exists; otherwise the stream `lines` is read to its end, PB_CONNECT
     * setting the client id and every other event, PB_DISCONNECT included,
     * going to `_eventChannel`, and the method then waits for a client id:
     * `waits` says it would wait for ever. When the task already exists it
     * returns at once, client id or not.
     */
    method EnsureConnected2(lines: seq<string>, dec: Decoders) returns (waits: bool)
      requires Valid()
      modifies this
      ensures Valid() && connectionStarted
      ensures old(connectionStarted) ==> clientId == old(clientId) && eventChannel == old(eventChannel)
      ensures !old(connectionStarted) ==>
        clientId == ConnectedId(old(clientId), Parse(lines), dec)
        && eventChannel == old(eventChannel) + WithoutConnect(Parse(lines))
      ensures waits <==> !old(connectionStarted) && clientId.None?
      ensures connected == old(connected) && disconnects == old(disconnects)
      ensures subscriptions == old(subscriptions) && subscriptions2 == old(subscriptions2) && dispatchers == old(dispatchers)
    {
      waits := false;
      if !connectionStarted {
        connectionStarted := true;
        var events := StreamRawEvents(lines);
        ghost var id0 := clientId;
        ghost var channel0 := eventChannel;
        for i := 0 to |events|
          invariant clientId == ConnectedId(id0, events[..i], dec)
          invariant eventChannel == channel0 + WithoutConnect(events[..i])
          invariant connectionStarted && connected == old(connected) && disconnects == old(disconnects)
          invariant subscriptions == old(subscriptions) && subscriptions2 == old(subscriptions2) && dispatchers == old(dispatchers)
        {
          assert events[..i + 1][..i] == events[..i];
          var evt := events[i];
          if evt.event == Connect {
            clientId := dec.clientIdOf(evt.data);
          } else {
            eventChannel := eventChannel + [evt];
          }
        }
        assert events[..|events|] == events;
        waits := clientId.None?;
      }
    }

    /** `SubscribeInternalAsync2`: throws without a client id, else POSTs the client id and the topic. */
    function SubscribeInternal2(topic: string, options: Options.SendOptions?): (r: Call<()>)
      reads this, options, if options != null && options.query != null then {options.query} else {}
      ensures clientId.None? <==> r.Throws?
      ensures r.Throws? ==> r.error == InvalidOperation("Realtime not connected.")
      ensures r.Sends? ==> r.request == Request(Post, "api/realtime",
        Some(ObjectBody(map["clientId" := JString(clientId.value), "topic" := JString(topic)])),
        Extensions.OptionalDictionary(options))
    {
      if clientId.None? then Throws(InvalidOperation("Realtime not connected."))
      else Sends(Request(Post, "api/realtime",
        Some(ObjectBody(map["clientId" := JString(clientId.value), "topic" := JString(topic)])),
        Extensions.OptionalDictionary(options)))
    }

    /** Adds a listener under `key` in the callback registry. */
    method AddToRegistry(key: string, l: Listener)
      requires Valid()
      modifies this
      ensures Valid()
      ensures subscriptions2 == AddListener(old(subscriptions2), key, l)
      ensures clientId == old(clientId) && connected == old(connected) && disconnects == old(disconnects)
      ensures connectionStarted == old(connectionStarted) && eventChannel == old(eventChannel)
      ensures subscriptions == old(subscriptions) && dispatchers == old(dispatchers)
    {
      var handlers: seq<Listener>;
      if key in subscriptions2 {
        handlers := subscriptions2[key];
      } else {
        handlers := [];
        subscriptions2 := subscriptions2[key := handlers];
      }
      subscriptions2 := subscriptions2[key := handlers + [l]];
    }

    /** The action of a subscription handle: removes a listener from the callback registry. */
    method RemoveFromRegistry(key: string, l: Listener)
      requires Valid()
      modifies this
      ensures Valid()
      ensures subscriptions2 == RemoveListener(old(subscriptions2), key, l)
      ensures clientId == old(clientId) && connected == old(connected) && disconnects == old(disconnects)
      ensures connectionStarted == old(connectionStarted) && eventChannel == old(eventChannel)
      ensures subscriptions == old(subscriptions) && dispatchers == old(dispatchers)
    {
      if key in subscriptions2 {
        var handlers := RemoveFirst(subscriptions2[key], l);
        subscriptions2 := subscriptions2[key := handlers];
        if |handlers| == 0 {
          subscriptions2 := subscriptions2 - {key};
        }
      }
    }

    /**
     * The callback `SubscribeAsync`: connects, starts a dispatcher, sends the
     * subscription and registers `onEvent` under "collection/recordId",
     * returning the handle that removes it. `outcome` is None when the method
     * would wait for ever for a client id; when the connection had already
     * been started without one, the dispatcher is started and the
     * subscription throws. Either way nothing is registered.
     */
    method Subscribe(collection: string, recordId: string, onEvent: Listener, options: Options.SendOptions?,
                     lines: seq<string>, dec: Decoders) returns (outcome: Option<Result<Request, Exn>>, sub: Handle?)
      requires Valid()
      modifies this
      ensures Valid() && connectionStarted
      ensures old(connectionStarted) ==> clientId == old(clientId) && eventChannel == old(eventChannel)
      ensures !old(connectionStarted) ==>
        clientId == ConnectedId(old(clientId), Parse(lines), dec)
        && eventChannel == old(eventChannel) + WithoutConnect(Parse(lines))
      ensures outcome.None? <==> !old(connectionStarted) && clientId.None?
      ensures outcome.None? ==> sub == null && subscriptions2 == old(subscriptions2) && dispatchers == old(dispatchers)
      ensures outcome.Some? ==> dispatchers == old(dispatchers) + 1
      ensures outcome == Some(Failure(InvalidOperation("Realtime not connected."))) <==> old(connectionStarted) && clientId.None?
      ensures outcome.Some? && outcome.value.Failure? ==> sub == null && subscriptions2 == old(subscriptions2)
      ensures outcome.Some? && outcome.value.Success? ==>
        outcome.value.value == Request(Post, "api/realtime",
          Some(ObjectBody(map["clientId" := JString(clientId.value), "topic" := JString(Topic(collection, recordId))])),
          Extensions.OptionalDictionary(options))
        && subscriptions2 == AddListener(old(subscriptions2), Topic(collection, recordId), onEvent)
        && sub != null && fresh(sub) && sub.owner == this && !sub.disposed
        && sub.key == Topic(collection, recordId) && sub.listener == onEvent
      ensures connected == old(connected) && disconnects == old(disconnects) && subscriptions == old(subscriptions)
    {
      var topic := Topic(collection, recordId);
      var waits := EnsureConnected2(lines, dec);
      if waits {
        return None, null;
      }
      dispatchers := dispatchers + 1;
      var call := SubscribeInternal2(topic, options);
      if call.Throws? {
        return Some(Failure(call.error)), null;
      }
      outcome := Some(Success(call.request));
      AddToRegistry(topic, onEvent);
      sub := new Handle(this, topic, onEvent);
    }

    /**
     * `StartDispatcher`: reads the channel to its end and calls, for each
     * record event, the listeners of its key over a snapshot of their list.
     */
    method Dispatch(parse: string -> RecordEvent) returns (calls: seq<Invocation>)
      modifies this
      ensures calls == DispatchAll(old(subscriptions2), old(eventChannel), parse)
      ensures eventChannel == []
      ensures subscriptions2 == old(subscriptions2) && subscriptions == old(subscriptions) && clientId == old(clientId)
      ensures connected == old(connected) && disconnects == old(disconnects)
      ensures connectionStarted == old(connectionStarted) && dispatchers == old(dispatchers)
    {
      var events := eventChannel;
      calls := [];
      for i := 0 to |events|
        invariant calls == DispatchAll(subscriptions2, events[..i], parse)
        invariant subscriptions2 == old(subscriptions2) && subscriptions == old(subscriptions) && clientId == old(clientId)
        invariant connected == old(connected) && disconnects == old(disconnects)
        invariant connectionStarted == old(connectionStarted) && dispatchers == old(dispatchers)
      {
        assert events[..i + 1][..i] == events[..i];
        var delivered := DispatchEvent(events[i], parse);
        calls := calls + delivered;
      }
      assert events[..|events|] == events;
      eventChannel := [];
    }

    /** One event of the dispatcher loop: the listeners of its key, over a snapshot, when it is a "record" event. */
    method DispatchEvent(evt: RealtimeEvent, parse: string -> RecordEvent) returns (calls: seq<Invocation>)
      ensures calls == Deliver(subscriptions2, evt, parse)
    {
      calls := [];
      if evt.event != "record" {
        return;
      }
      var recordEvt := parse(evt.data);
      var topicKey := RecordKey(recordEvt);
      if topicKey !in subscriptions2 {
        return;
      }
      var handlers := subscriptions2[topicKey];
      for j := 0 to |handlers|
        invariant |calls| == j
        invariant forall k :: 0 <= k < j ==> calls[k] == Invocation(handlers[k], recordEvt)
      {
        calls := calls + [Invocation(handlers[j], recordEvt)];
      }
    }

    /**
     * `UnsubscribeAsync`: a blank topic clears `_subscriptions`, another
     * removes that topic; the request carries the topic (or "") as client id
     * and no subscriptions; then the client is disconnected and notified.
     */
    method Unsubscribe(topic: Option<string>) returns (request: Request, ok: bool)
      modifies this
      ensures IsNullOrWhiteSpace(topic) ==> subscriptions == map[]
      ensures !IsNullOrWhiteSpace(topic) ==> subscriptions == old(subscriptions) - {topic.value}
      ensures request == Request(Post, "api/realtime", Some(ObjectBody(ClientBody(topic.GetOr(""), []))), None)
      ensures !connected && disconnects == old(disconnects) + [[]] && ok
      ensures subscriptions2 == old(subscriptions2) && clientId == old(clientId) && eventChannel == old(eventChannel)
      ensures connectionStarted == old(connectionStarted) && dispatchers == old(dispatchers)
    {
      if IsNullOrWhiteSpace(topic) {
        subscriptions := map[];
      } else {
        subscriptions := subscriptions - {topic.value};
      }
      request := Request(Post, "api/realtime", Some(ObjectBody(ClientBody(topic.GetOr(""), []))), None);
      connected := false;
      disconnects := disconnects + [[]];
      ok := true;
    }

    /** `UnsubscribeByPrefixAsync`: removes, one key at a time, every topic starting with `prefix`. */
    method UnsubscribeByPrefix(prefix: string) returns (request: Request, ok: bool)
      modifies this
      ensures subscriptions == WithoutPrefix(old(subscriptions), prefix)
      ensures request == Request(Post, "api/realtime", Some(ObjectBody(ClientBody(prefix, []))), None)
      ensures ok
      ensures subscriptions2 == old(subscriptions2) && clientId == old(clientId) && eventChannel == old(eventChannel)
      ensures connected == old(connected) && disconnects == old(disconnects)
      ensures connectionStarted == old(connectionStarted) && dispatchers == old(dispatchers)
    {
      ghost var start := subscriptions;
      var keys := subscriptions.Keys;
      while keys != {}
        invariant keys <= start.Keys
        invariant subscriptions == map k | k in start && (k in keys || !StartsWith(k, prefix)) :: start[k]
        invariant subscriptions2 == old(subscriptions2) && clientId == old(clientId) && eventChannel == old(eventChannel)
        invariant connected == old(connected) && disconnects == old(disconnects)
        invariant connectionStarted == old(connectionStarted) && dispatchers == old(dispatchers)
        decreases keys
      {
        var key :| key in keys;
        if StartsWith(key, prefix) {
          subscriptions := subscriptions - {key};
        }
        keys := keys - {key};
      }
      request := Request(Post, "api/realtime", Some(ObjectBody(ClientBody(prefix, []))), None);
      ok := true;
    }

    /**
     * `UnsubscribeByTopicAndListenerAsync`: removes the first occurrence of
     * `callback` under `topic`, dropping the topic when its list empties;
     * the request names the topic as client id and lists the topics left,
     * in the dictionary's order `keys`.
     */
    method UnsubscribeByTopicAndListener(topic: string, callback: Listener) returns (keys: seq<string>, request: Request, ok: bool)
      modifies this
      ensures subscriptions == RemoveListener(old(subscriptions), topic, callback)
      ensures (forall k :: k in keys <==> k in subscriptions) && |keys| == |subscriptions.Keys|
      ensures request == Request(Post, "api/realtime", Some(ObjectBody(ClientBody(topic, keys))), None)
      ensures ok
      ensures subscriptions2 == old(subscriptions2) && clientId == old(clientId) && eventChannel == old(eventChannel)
      ensures connected == old(connected) && disconnects == old(disconnects)
      ensures connectionStarted == old(connectionStarted) && dispatchers == old(dispatchers)
    {
      if topic in subscriptions {
        var list := RemoveFirst(subscriptions[topic], callback);
        subscriptions := subscriptions[topic := list];
        if |list| == 0 {
          subscriptions := subscriptions - {topic};
        }
      }
      assert subscriptions == RemoveListener(old(subscriptions), topic, callback);
      keys := EnumerateKeys(subscriptions.Keys);
      request := Request(Post, "api/realtime", Some(ObjectBody(ClientBody(topic, keys))), None);
      ok := true;
    }
  }

  /** The handle the callback `SubscribeAsync` returns: the nested `Subscription` class. */
  class Handle {
    const owner: Client
    const key: string
    const listener: Listener
    var disposed: bool

    constructor(owner: Client, key: string, listener: Listener)
      ensures this.owner == owner && this.key == key && this.listener == listener && !disposed
    {
      this.owner := owner;
      this.key := key;
      this.listener := listener;
      disposed := false;
    }

    /** `Dispose`: the first call removes the listener from the owner's registry; later calls change nothing. */
    method Dispose()
      requires owner.Valid()
      modifies this, owner
      ensures disposed && owner.Valid()
      ensures old(disposed) ==> owner.subscriptions2 == old(owner.subscriptions2)
      ensures !old(disposed) ==> owner.subscriptions2 == RemoveListener(old(owner.subscriptions2), key, listener)
      ensures owner.subscriptions == old(owner.subscriptions) && owner.clientId == old(owner.clientId)
      ensures owner.eventChannel == old(owner.eventChannel) && owner.dispatchers == old(owner.dispatchers)
    {
      if disposed {
        return;
      }
      disposed := true;
      owner.RemoveFromRegistry(key, listener);
    }
  }

  /** The client id after PB_CONNECT events: that of the last one, or the earlier id when there is none. */
  function ConnectedId(id: Option<string>, events: seq<RealtimeEvent>, dec: Decoders): Option<string> {
    if LastConnect(events).Some? then dec.clientIdOf(LastConnect(events).value.data) else id
  }

  /** The events other than PB_CONNECT, in order. */
  function WithoutConnect(events: seq<RealtimeEvent>): seq<RealtimeEvent>
    decreases |events|
  {
    if |events| == 0 then []
    else WithoutConnect(events[..|events| - 1]) + (if events[|events| - 1].event == Connect then [] else [events[|events| - 1]])
  }

  /** `EnsureConnectedAsync2` forwards exactly the events that are not PB_CONNECT, PB_DISCONNECT among them. */
  lemma {:induction false} WithoutConnectMembers(events: seq<RealtimeEvent>, e: RealtimeEvent)
    ensures e in WithoutConnect(events) <==> e in events && e.event != Connect
    decreases |events|
  {
    if |events| > 0 {
      var init := events[..|events| - 1];
      assert events == init + [events[|events| - 1]];
      WithoutConnectMembers(init, e);
    }
  }
}
