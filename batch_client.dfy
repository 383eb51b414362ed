/**
 * `BatchClient`: a builder of batch requests. A client and every client
 * `Collection` derives from it append to one shared request list.
 */
module BatchClient {
  import opened Wrappers
  import opened Values
  import BR = BatchRequest

  /** The request list `_requests`, shared by reference. */
  class Queue {
    var requests: seq<BR.BatchRequest>

    constructor()
      ensures requests == []
    {
      requests := [];
    }
  }

  class Client {
    const collectionName: Option<string>
    const queue: Queue

    /** The public constructor: no collection and a new, empty list. */
    constructor()
      ensures collectionName == None && fresh(queue) && queue.requests == []
    {
      collectionName := None;
      queue := new Queue();
    }

    constructor Derived(collectionName: Option<string>, queue: Queue)
      ensures this.collectionName == collectionName && this.queue == queue
    {
      this.collectionName := collectionName;
      this.queue := queue;
    }

    /** `Collection`: a new client for `name` over the same list. */
    method Collection(name: string) returns (c: Client)
      ensures fresh(c) && c.collectionName == Some(name) && c.queue == queue
    {
      c := new Client.Derived(Some(name), queue);
    }

    /** `Create`: queues a POST to the collection's records url with the body; returns this client. */
    method Create(body: Option<Body>) returns (c: Client)
      modifies queue
      ensures c == this
      ensures |queue.requests| == |old(queue.requests)| + 1 && queue.requests[..|old(queue.requests)|] == old(queue.requests)
      ensures var q := queue.requests[|queue.requests| - 1];
        fresh(q) && q.verb == "POST" && q.url == BR.CollectionUrl(collectionName) && q.body == body && q.files == None
    {
      var r := BR.New(collectionName, BR.Create, body, None, None);
      queue.requests := queue.requests + [r.value];
      c := this;
    }

    /** `Upsert`: as `Create`; the server tells the two apart. */
    method Upsert(body: Option<Body>) returns (c: Client)
      modifies queue
      ensures c == this
      ensures |queue.requests| == |old(queue.requests)| + 1 && queue.requests[..|old(queue.requests)|] == old(queue.requests)
      ensures var q := queue.requests[|queue.requests| - 1];
        fresh(q) && q.verb == "POST" && q.url == BR.CollectionUrl(collectionName) && q.body == body && q.files == None
    {
      var r := BR.New(collectionName, BR.Upsert, body, None, None);
      queue.requests := queue.requests + [r.value];
      c := this;
    }

    /** `Update`: queues a PATCH to the record's url with the body; a null id throws and queues nothing. */
    method Update(id: Option<string>, body: Option<Body>) returns (r: Result<Client, Exn>)
      modifies queue
      ensures id.None? ==> r == Failure(ArgumentNull("id")) && queue.requests == old(queue.requests)
      ensures id.Some? ==>
        r == Success(this)
        && |queue.requests| == |old(queue.requests)| + 1 && queue.requests[..|old(queue.requests)|] == old(queue.requests)
        && var q := queue.requests[|queue.requests| - 1];
           fresh(q) && q.verb == "PATCH" && q.url == BR.CollectionUrl(collectionName) + "/" + id.value && q.body == body && q.files == None
    {
      var request := BR.New(collectionName, BR.Update, body, id, None);
      if request.Failure? {
        return Failure(request.error);
      }
      queue.requests := queue.requests + [request.value];
      r := Success(this);
    }

    /** `Delete`: queues a DELETE of the record's url, without body; a null id throws and queues nothing. */
    method Delete(id: Option<string>) returns (r: Result<Client, Exn>)
      modifies queue
      ensures id.None? ==> r == Failure(ArgumentNull("id")) && queue.requests == old(queue.requests)
      ensures id.Some? ==>
        r == Success(this)
        && |queue.requests| == |old(queue.requests)| + 1 && queue.requests[..|old(queue.requests)|] == old(queue.requests)
        && var q := queue.requests[|queue.requests| - 1];
           fresh(q) && q.verb == "DELETE" && q.url == BR.CollectionUrl(collectionName) + "/" + id.value && q.body == None && q.files == None
    {
      var request := BR.New(collectionName, BR.BatchMethod.Delete, None, id, None);
      if request.Failure? {
        return Failure(request.error);
      }
      queue.requests := queue.requests + [request.value];
      r := Success(this);
    }
  }

  /**
   * Requests queued through a root client and a client derived from it land
   * in the one list, in call order, each with its own client's collection.
   */
  method CreateThroughTwoClients(name: string, first: Option<Body>, second: Option<Body>) returns (root: Client, derived: Client)
    ensures derived.queue == root.queue && |root.queue.requests| == 2
    ensures root.queue.requests[0].url == BR.CollectionUrl(None) && root.queue.requests[0].body == first
    ensures root.queue.requests[1].url == BR.CollectionUrl(Some(name)) && root.queue.requests[1].body == second
  {
    root := new Client();
    derived := root.Collection(name);
    var c1 := root.Create(first);
    var c2 := derived.Create(second);
  }
}
