/**
 * The earlier runtime of the pocketbase-crons program: `registerCron`
 * validates the id and replaces the job like the cron server does, but it
 * never writes the payload store; its closure still reads whatever payload
 * is stored under the id when it fires.
 */
module PocketbaseCronsRuntime {
  import opened Wrappers
  import opened Scheduling

  /** The fields of the request that `registerCron` reads. */
  datatype CronRequest = CronRequest(id: JobId, expression: string)

  /** The job table after `registerCron`, and the error it returns; the payload store is not an input. */
  function Register(handlers: map<JobId, Handler>, accepts: string -> bool, jobs: map<JobId, Job>, req: CronRequest): (map<JobId, Job>, Option<string>) {
    if req.id !in handlers then (jobs, Some("unknown cron id: " + req.id))
    else
      var removed := jobs - {req.id};
      (if accepts(req.expression)
       then removed[req.id := Job(req.expression, ReadPayloadThenCall(req.id, handlers[req.id]))]
       else removed,
       None)
  }

  /** An unknown id returns the error and leaves the job table as it was. */
  lemma RegisterUnknownId(handlers: map<JobId, Handler>, accepts: string -> bool, jobs: map<JobId, Job>, req: CronRequest)
    requires req.id !in handlers
    ensures Register(handlers, accepts, jobs, req) == (jobs, Some("unknown cron id: " + req.id))
  {
  }

  /**
   * A known id returns no error whatever `Add` does; exactly one job is left
   * under it when the expression is accepted, and none when it is rejected;
   * other ids keep their jobs.
   */
  lemma RegisterKnownId(handlers: map<JobId, Handler>, accepts: string -> bool, jobs: map<JobId, Job>, req: CronRequest)
    requires req.id in handlers
    ensures var (jobs', err) := Register(handlers, accepts, jobs, req);
      && err == None
      && (req.id in jobs' <==> accepts(req.expression))
      && (req.id in jobs' ==> jobs'[req.id] == Job(req.expression, ReadPayloadThenCall(req.id, handlers[req.id])))
      && jobs' - {req.id} == jobs - {req.id}
  {
  }

  /** The job reads the payload stored at firing time, which this runtime never wrote: an empty store gives the empty payload. */
  lemma JobReadsUnwrittenStore(handlers: map<JobId, Handler>, accepts: string -> bool, jobs: map<JobId, Job>, req: CronRequest, payloads: map<JobId, Payload>)
    requires req.id in handlers && accepts(req.expression)
    ensures var jobs' := Register(handlers, accepts, jobs, req).0;
      Fire(jobs', payloads, req.id) == Some(Invocation(handlers[req.id], StoredPayload(payloads, req.id)))
      && Fire(jobs', map[], req.id) == Some(Invocation(handlers[req.id], map[]))
  {
  }

  /** The globals `cronHandlers` and `cronPayloads` of the program, and its scheduler. */
  class Runtime {
    var handlers: map<JobId, Handler>
    var payloads: map<JobId, Payload>
    const scheduler: Scheduler
    /** The calls on the payload store and the scheduler, in the order they happened. */
    ghost var log: seq<StateCall>

    constructor(scheduler: Scheduler, handlers: map<JobId, Handler>)
      ensures this.scheduler == scheduler && this.handlers == handlers && payloads == map[] && log == []
    {
      this.scheduler := scheduler;
      this.handlers := handlers;
      payloads := map[];
      log := [];
    }

    /** `registerCron`: validate, remove the old job, add the new one; no payload is stored. */
    method RegisterCron(req: CronRequest) returns (err: Option<string>)
      modifies this, scheduler
      ensures (scheduler.jobs, err) == Register(handlers, scheduler.accepts, old(scheduler.jobs), req)
      ensures log == old(log) + (if req.id in handlers then [RemoveJob(req.id), AddJob(req.id, req.expression)] else [])
      ensures handlers == old(handlers) && payloads == old(payloads)
    {
      if req.id !in handlers {
        return Some("unknown cron id: " + req.id);
      }
      var handler := handlers[req.id];
      scheduler.Remove(req.id);
      log := log + [RemoveJob(req.id)];
      var _ := scheduler.Add(req.id, req.expression, ReadPayloadThenCall(req.id, handler));
      log := log + [AddJob(req.id, req.expression)];
      return None;
    }

    /** A firing of the schedule of `id`, reading the payload store as it is now. */
    method Fire(id: JobId) returns (r: Option<Invocation>)
      ensures r == Scheduling.Fire(scheduler.jobs, payloads, id)
    {
      r := scheduler.FireJob(id, payloads);
    }
  }
}
