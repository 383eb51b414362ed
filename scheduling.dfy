/**
 * The external cron scheduler the Go runtimes talk to (`app.Cron()`), as an
 * abstract job table: at most one job per id, `Remove`, `Add` and firing.
 * Parsing of cron expressions is a predicate fixed when the scheduler is made.
 */
module Scheduling {
  import opened Wrappers
  import opened Values

  type JobId = string

  /** A handler's payload: a decoded JSON object. A Go nil map reads like the empty one. */
  type Payload = map<string, Json>

  /** A Go handler function value, identified by the name it is registered under in its source. */
  datatype Handler = Handler(name: string)

  /** One call of a handler, with the payload it received. */
  datatype Invocation = Invocation(handler: Handler, payload: Payload)

  /** The function a job runs each time its schedule fires. */
  datatype JobFunc =
      /** A closure that reads the payload stored under `id` when it runs, then calls `handler`. */
    | ReadPayloadThenCall(id: JobId, handler: Handler)
      /** The handler itself, installed as the job function; it receives no payload. */
    | CallHandler(handler: Handler)

  datatype Job = Job(expression: string, run: JobFunc)

  /** The payload stored under `id`; a missing key reads as Go's nil map. */
  function StoredPayload(payloads: map<JobId, Payload>, id: JobId): (p: Payload)
    ensures id in payloads ==> p == payloads[id]
    ensures id !in payloads ==> p == map[]
  {
    if id in payloads then payloads[id] else map[]
  }

  /** What running a job function does against the payload store as it is at that moment. */
  function RunJob(f: JobFunc, payloads: map<JobId, Payload>): (r: Invocation)
    ensures r.handler == f.handler
    ensures f.ReadPayloadThenCall? ==> r.payload == StoredPayload(payloads, f.id)
    ensures f.CallHandler? ==> r.payload == map[]
  {
    match f
    case ReadPayloadThenCall(id, h) => Invocation(h, StoredPayload(payloads, id))
    case CallHandler(h) => Invocation(h, map[])
  }

  /** Firing the schedule of `id`: the job's function runs, or nothing happens when no job has that id. */
  function Fire(jobs: map<JobId, Job>, payloads: map<JobId, Payload>, id: JobId): (r: Option<Invocation>)
    ensures r.Some? <==> id in jobs
    ensures r.Some? ==> r.value == RunJob(jobs[id].run, payloads)
  {
    if id in jobs then Some(RunJob(jobs[id].run, payloads)) else None
  }

  /** A call the runtime makes on shared state, recorded in order in a ghost log. */
  datatype StateCall = StorePayload(id: JobId, payload: Payload) | RemoveJob(id: JobId) | AddJob(id: JobId, expression: string)

  /** Every `Add` under an id is preceded, somewhere earlier in the log, by a payload store under that id. */
  ghost predicate StoredBeforeAdded(log: seq<StateCall>) {
    forall j :: 0 <= j < |log| && log[j].AddJob? ==>
      exists i :: 0 <= i < j && log[i].StorePayload? && log[i].id == log[j].id
  }

  /** Appending a store, a remove and an add under one id keeps every add preceded by a store. */
  lemma StoredBeforeAddedAppend(log: seq<StateCall>, id: JobId, p: Payload, e: string)
    requires StoredBeforeAdded(log)
    ensures StoredBeforeAdded(log + [StorePayload(id, p), RemoveJob(id), AddJob(id, e)])
  {
    var log' := log + [StorePayload(id, p), RemoveJob(id), AddJob(id, e)];
    forall j | 0 <= j < |log'| && log'[j].AddJob?
      ensures exists i :: 0 <= i < j && log'[i].StorePayload? && log'[i].id == log'[j].id
    {
      if j < |log| {
        var i :| 0 <= i < j && log[i].StorePayload? && log[i].id == log[j].id;
        assert log'[i] == log[i];
      } else {
        assert log'[|log|] == StorePayload(id, p);
      }
    }
  }

  /** The scheduler's job table. */
  class Scheduler {
    var jobs: map<JobId, Job>
    /** Whether the scheduler's expression parser accepts a cron expression. */
    const accepts: string -> bool

    constructor(accepts: string -> bool)
      ensures jobs == map[] && this.accepts == accepts
    {
      jobs := map[];
      this.accepts := accepts;
    }

    /** Unschedules the job under `id`, if there is one. */
    method Remove(id: JobId)
      modifies this
      ensures jobs == old(jobs) - {id}
    {
      jobs := jobs - {id};
    }

    /** Schedules `run` under `id`, replacing a job already there; a rejected expression adds nothing. */
    method Add(id: JobId, expression: string, run: JobFunc) returns (accepted: bool)
      modifies this
      ensures accepted == accepts(expression)
      ensures accepted ==> jobs == old(jobs)[id := Job(expression, run)]
      ensures !accepted ==> jobs == old(jobs)
    {
      accepted := accepts(expression);
      if accepted {
        jobs := jobs[id := Job(expression, run)];
      }
    }

    /** One firing of the schedule of `id`, with the payload store as it is when the job runs. */
    method FireJob(id: JobId, payloads: map<JobId, Payload>) returns (r: Option<Invocation>)
      ensures r == Fire(jobs, payloads, id)
    {
      if id in jobs {
        r := Some(RunJob(jobs[id].run, payloads));
      } else {
        r := None;
      }
    }
  }
}
