/**
 * The dynamic cron runtime of the cron server: a registry of named handlers,
 * a shared store of the payload last registered for each id, and
 * `RegisterCron`, which validates the id, stores the payload, removes the
 * old job and adds one whose closure reads the stored payload each time it
 * fires. The same registry and runtime are what the C# generator emits.
 */
module CronServerRuntime {
  import opened Wrappers
  import opened Scheduling

  /** A registration request: the handler id, its cron expression and the payload to run it with. */
  datatype CronRequest = CronRequest(id: JobId, expression: string, payload: Payload)

  /** The payload store and the scheduler's job table, taken together. */
  datatype State = State(payloads: map<JobId, Payload>, jobs: map<JobId, Job>)

  function UnknownCronId(id: JobId): string {
    "unknown cron id: " + id
  }

  /** The job `RegisterCron` installs for a request whose id has `handler`. */
  function InstalledJob(req: CronRequest, handler: Handler): Job {
    Job(req.expression, ReadPayloadThenCall(req.id, handler))
  }

  /**
   * What `RegisterCron` does to the state, and the error it returns:
   * an unknown id changes nothing; a known id stores the payload, removes
   * the old job and adds the new one, which the scheduler may reject.
   */
  function Register(handlers: map<JobId, Handler>, accepts: string -> bool, s: State, req: CronRequest): (State, Option<string>) {
    if req.id !in handlers then (s, Some(UnknownCronId(req.id)))
    else
      var removed := s.jobs - {req.id};
      var jobs := if accepts(req.expression) then removed[req.id := InstalledJob(req, handlers[req.id])] else removed;
      (State(s.payloads[req.id := req.payload], jobs), None)
  }

  /** The calls on shared state that `RegisterCron` makes, in order. */
  function RegisterCalls(handlers: map<JobId, Handler>, req: CronRequest): seq<StateCall> {
    if req.id in handlers then [StorePayload(req.id, req.payload), RemoveJob(req.id), AddJob(req.id, req.expression)] else []
  }

  /** An unknown id is reported by name, and neither the payload store nor the scheduler is touched. */
  lemma RegisterUnknownId(handlers: map<JobId, Handler>, accepts: string -> bool, s: State, req: CronRequest)
    requires req.id !in handlers
    ensures Register(handlers, accepts, s, req) == (s, Some("unknown cron id: " + req.id))
    ensures RegisterCalls(handlers, req) == []
  {
  }

  /**
   * A known id always succeeds: its payload is stored, and exactly one job
   * is left under it when the scheduler accepts the expression, none when it
   * rejects it (the old job is gone either way); other ids are unchanged.
   */
  lemma RegisterKnownId(handlers: map<JobId, Handler>, accepts: string -> bool, s: State, req: CronRequest)
    requires req.id in handlers
    ensures var (s', err) := Register(handlers, accepts, s, req);
      && err == None
      && s'.payloads[req.id] == req.payload
      && (accepts(req.expression) ==> req.id in s'.jobs && s'.jobs[req.id] == InstalledJob(req, handlers[req.id]))
      && (!accepts(req.expression) ==> req.id !in s'.jobs)
      && (forall id :: id != req.id ==> (id in s'.jobs <==> id in s.jobs))
      && (forall id :: id != req.id && id in s.jobs ==> s'.jobs[id] == s.jobs[id])
      && (forall id :: id != req.id ==> (id in s'.payloads <==> id in s.payloads))
      && (forall id :: id != req.id && id in s.payloads ==> s'.payloads[id] == s.payloads[id])
  {
  }

  /** Registering the same id twice leaves what registering only the second request leaves. */
  lemma RegisterTwice(handlers: map<JobId, Handler>, accepts: string -> bool, s: State, r1: CronRequest, r2: CronRequest)
    requires r1.id == r2.id
    ensures Register(handlers, accepts, Register(handlers, accepts, s, r1).0, r2) == Register(handlers, accepts, s, r2)
  {
    if r1.id in handlers {
      var s1 := Register(handlers, accepts, s, r1).0;
      assert s1.jobs - {r2.id} == s.jobs - {r2.id};
      assert s1.payloads[r2.id := r2.payload] == s.payloads[r2.id := r2.payload];
    }
  }

  /**
   * The installed job, whenever it fires, calls the handler looked up at
   * registration with the payload stored at firing time, whatever later
   * registrations stored.
   */
  lemma InstalledJobReadsPayloadWhenFired(handlers: map<JobId, Handler>, accepts: string -> bool, s: State, req: CronRequest, later: map<JobId, Payload>)
    requires req.id in handlers && accepts(req.expression)
    ensures var s' := Register(handlers, accepts, s, req).0;
      Fire(s'.jobs, later, req.id) == Some(Invocation(handlers[req.id], StoredPayload(later, req.id)))
      && Fire(s'.jobs, s'.payloads, req.id) == Some(Invocation(handlers[req.id], req.payload))
  {
  }

  /** Every scheduled job is a payload-reading closure for its own id, and a payload is stored for it. */
  ghost predicate JobsReadOwnPayload(s: State) {
    forall id :: id in s.jobs ==> id in s.payloads && s.jobs[id].run.ReadPayloadThenCall? && s.jobs[id].run.id == id
  }

  /** Registration keeps every job backed by a stored payload of its own id. */
  lemma RegisterKeepsJobsReadingOwnPayload(handlers: map<JobId, Handler>, accepts: string -> bool, s: State, req: CronRequest)
    requires JobsReadOwnPayload(s)
    ensures JobsReadOwnPayload(Register(handlers, accepts, s, req).0)
  {
  }

  /** The process-wide state of the runtime: `cronHandlers`, `cronPayloads` and the app's scheduler. */
  class Runtime {
    /** The handler registry; `RegisterCron` only reads it. */
    var handlers: map<JobId, Handler>
    /** The payload store. */
    var payloads: map<JobId, Payload>
    const scheduler: Scheduler
    /** The calls on the payload store and the scheduler, in the order they happened. */
    ghost var log: seq<StateCall>

    ghost predicate Valid()
      reads this, scheduler
    {
      StoredBeforeAdded(log) && JobsReadOwnPayload(State(payloads, scheduler.jobs))
    }

    function CurrentState(): State
      reads this, scheduler
    {
      State(payloads, scheduler.jobs)
    }

    constructor(scheduler: Scheduler)
      requires scheduler.jobs == map[]
      ensures Valid()
      ensures this.scheduler == scheduler && handlers == map[] && payloads == map[] && log == []
    {
      this.scheduler := scheduler;
      handlers := map[];
      payloads := map[];
      log := [];
    }

    /** `RegisterHandler` of the generated registry: the last handler registered under an id wins. */
    method RegisterHandler(id: JobId, handler: Handler)
      modifies this
      ensures handlers == old(handlers)[id := handler]
      ensures payloads == old(payloads) && log == old(log)
    {
      handlers := handlers[id := handler];
    }

    /** `RegisterCron`: validate, store the payload, remove the old job, add the new one; the result of `Add` is dropped. */
    method RegisterCron(req: CronRequest) returns (err: Option<string>)
      requires Valid()
      modifies this, scheduler
      ensures Valid()
      ensures (CurrentState(), err) == Register(old(handlers), scheduler.accepts, old(CurrentState()), req)
      ensures log == old(log) + RegisterCalls(old(handlers), req)
      ensures handlers == old(handlers)
    {
      if req.id !in handlers {
        return Some(UnknownCronId(req.id));
      }
      var handler := handlers[req.id];
      ghost var before := CurrentState();

      payloads := payloads[req.id := req.payload];
      log := log + [StorePayload(req.id, req.payload)];

      scheduler.Remove(req.id);
      log := log + [RemoveJob(req.id)];

      var _ := scheduler.Add(req.id, req.expression, ReadPayloadThenCall(req.id, handler));
      log := log + [AddJob(req.id, req.expression)];

      StoredBeforeAddedAppend(old(log), req.id, req.payload, req.expression);
      assert log == old(log) + [StorePayload(req.id, req.payload), RemoveJob(req.id), AddJob(req.id, req.expression)];
      RegisterKeepsJobsReadingOwnPayload(handlers, scheduler.accepts, before, req);
      return None;
    }

    /** A firing of the schedule of `id`: the job's closure reads the payload store as it is now. */
    method Fire(id: JobId) returns (r: Option<Invocation>)
      ensures r == Scheduling.Fire(scheduler.jobs, payloads, id)
    {
      r := scheduler.FireJob(id, payloads);
    }
  }
}
