/**
 * The pocketbase-server program's `registerCron`: the request carries only an
 * id and an expression, the handler table is a fixed literal, and the job
 * function installed is the handler itself.
 */
module PocketbaseServerCron {
  import opened Wrappers
  import opened Scheduling

  /** The registration request: id and cron expression, nothing else. */
  datatype CronRequest = CronRequest(id: JobId, expression: string)

  /** The generated handler table of the program (`cronHandlers`). */
  function CronHandlers(): (r: map<JobId, Handler>)
    ensures r.Keys == {"hello", "reindex"}
  {
    map["hello" := Handler("hello"), "reindex" := Handler("reindex")]
  }

  /** The job table after `registerCron`, and the error it returns. */
  function Register(handlers: map<JobId, Handler>, accepts: string -> bool, jobs: map<JobId, Job>, req: CronRequest): (map<JobId, Job>, Option<string>) {
    if req.id !in handlers then (jobs, Some("unknown cron id: " + req.id))
    else
      var removed := jobs - {req.id};
      (if accepts(req.expression) then removed[req.id := Job(req.expression, CallHandler(handlers[req.id]))] else removed, None)
  }

  /** An unknown id is reported by name and the job table is untouched. */
  lemma RegisterUnknownId(handlers: map<JobId, Handler>, accepts: string -> bool, jobs: map<JobId, Job>, req: CronRequest)
    requires req.id !in handlers
    ensures Register(handlers, accepts, jobs, req) == (jobs, Some("unknown cron id: " + req.id))
  {
  }

  /**
   * A known id returns no error; the only job left under it, when the
   * expression is accepted, runs the handler itself with no payload; other
   * ids keep their jobs.
   */
  lemma RegisterKnownId(handlers: map<JobId, Handler>, accepts: string -> bool, jobs: map<JobId, Job>, req: CronRequest, payloads: map<JobId, Payload>)
    requires req.id in handlers
    ensures var (jobs', err) := Register(handlers, accepts, jobs, req);
      && err == None
      && (req.id in jobs' <==> accepts(req.expression))
      && (req.id in jobs' ==>
            jobs'[req.id].run == CallHandler(handlers[req.id])
            && Fire(jobs', payloads, req.id) == Some(Invocation(handlers[req.id], map[])))
      && jobs' - {req.id} == jobs - {req.id}
  {
  }

  /** The program's scheduler, with the fixed handler table. */
  class Runtime {
    const handlers: map<JobId, Handler>
    const scheduler: Scheduler

    constructor(scheduler: Scheduler)
      ensures this.scheduler == scheduler && handlers == CronHandlers()
    {
      this.scheduler := scheduler;
      handlers := CronHandlers();
    }

    /** `registerCron`: validate, remove the old job, add the handler as the new job function. */
    method RegisterCron(req: CronRequest) returns (err: Option<string>)
      modifies scheduler
      ensures (scheduler.jobs, err) == Register(handlers, scheduler.accepts, old(scheduler.jobs), req)
    {
      if req.id !in handlers {
        return Some("unknown cron id: " + req.id);
      }
      var handler := handlers[req.id];
      scheduler.Remove(req.id);
      var _ := scheduler.Add(req.id, req.expression, CallHandler(handler));
      return None;
    }
  }
}
