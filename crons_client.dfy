/**
 * `CronsClient`: argument checks in front of one transport call each, for
 * listing crons, running one by id and registering one with the cron server.
 */
module CronsClient {
  import opened Wrappers
  import opened Values
  import opened Text
  import Options
  import Extensions

  /** The C# `CronRegisterRequest`: an id, a cron expression and the request object the body is serialised from. */
  datatype CronRegisterRequest = CronRegisterRequest(id: Option<string>, expression: Option<string>, properties: map<string, Json>)

  /** `GetFullListAsync`: GET "api/crons" with the options' dictionary as query, or no query without options. */
  function GetFullList(options: Options.SendOptions?): (r: Call<()>)
    reads options, if options != null && options.query != null then {options.query} else {}
    ensures r.Sends? && r.request.verb == Get && r.request.path == "api/crons" && r.request.body == None
    ensures r.request.query == Extensions.OptionalDictionary(options)
  {
    Sends(Request(Get, "api/crons", None, Extensions.OptionalDictionary(options)))
  }

  /** `RunAsync`: a blank id throws before any request; otherwise POST "api/crons/{id}" without a body. */
  function Run(id: Option<string>, options: Options.SendOptions?): (r: Call<()>)
    reads options, if options != null && options.query != null then {options.query} else {}
    ensures IsNullOrWhiteSpace(id) <==> r.Throws?
    ensures r.Throws? ==> r.error == Argument("Cron job id is required.", "id")
    ensures !r.Throws? ==> r.Sends? && r.request.verb == Post && r.request.path == "api/crons/" + id.value && r.request.body == None
    ensures !r.Throws? ==> r.request.query == Extensions.OptionalDictionary(options)
  {
    if IsNullOrWhiteSpace(id) then Throws(Argument("Cron job id is required.", "id"))
    else Sends(Request(Post, "api/crons/" + id.value, None, Extensions.OptionalDictionary(options)))
  }

  /**
   * `RegisterAsync`: a null request, then a blank id, then a blank
   * expression throw, in that order; otherwise the request itself is POSTed
   * to "internal/cron".
   */
  function Register(request: Option<CronRegisterRequest>): (r: Call<()>)
    ensures request.None? ==> r == Throws(ArgumentNull("request"))
    ensures request.Some? && IsNullOrWhiteSpace(request.value.id) ==> r == Throws(Argument("Cron id is required.", "Id"))
    ensures request.Some? && !IsNullOrWhiteSpace(request.value.id) && IsNullOrWhiteSpace(request.value.expression) ==>
      r == Throws(Argument("Cron expression is required.", "Expression"))
    ensures r.Sends? <==> request.Some? && !IsNullOrWhiteSpace(request.value.id) && !IsNullOrWhiteSpace(request.value.expression)
    ensures r.Sends? ==> r.request == Request(Post, "internal/cron", Some(ObjectBody(request.value.properties)), None)
  {
    if request.None? then Throws(ArgumentNull("request"))
    else if IsNullOrWhiteSpace(request.value.id) then Throws(Argument("Cron id is required.", "Id"))
    else if IsNullOrWhiteSpace(request.value.expression) then Throws(Argument("Cron expression is required.", "Expression"))
    else Sends(Request(Post, "internal/cron", Some(ObjectBody(request.value.properties)), None))
  }
}
