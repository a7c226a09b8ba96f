/** The job API behind API Gateway: lists and shows the records of the job
    store and starts the orchestrator asynchronously. The store is read, never
    written; the asynchronous invoke is an input that either raises or not. */
module JobApi {
  import opened Wrappers
  import opened Strings
  import opened Http
  import opened JobStore

  const JOBS_PATH: string := "/jobs"
  const JOB_PATH: string := "/jobs/"
  const ORCHESTRATOR: string := "biops-orchestrator"
  const ASYNC: string := "Event"
  const DEFAULT_INITIATOR: string := "api-user"

  datatype Route = ListAll | ShowJob(jobId: string) | StartJob | NoEndpoint

  /** The `lambda_client.invoke` call: payload `{config, initiated_by}`. */
  datatype Invocation = Invocation(functionName: string, invocationType: string, config: string, initiatedBy: string)

  datatype Body =
    | Jobs(jobs: seq<Job>)
    | JobRecord(job: Job)
    | Started(message: string, status: string)
    | Message(error: string)
    | Crash(fault: Fault)

  /** The dispatch on method and path; both must be present. */
  function RouteOf(event: Event): (r: Result<Route, Fault>)
    ensures r.Ok? <==> "httpMethod" in event && "path" in event
    ensures r.Ok? && r.value.ShowJob? ==> Contains(event["path"], JOB_PATH) && r.value.jobId == Last(Split(event["path"], JOB_PATH))
  {
    var verb :- Get(event, "httpMethod");
    var path :- Get(event, "path");
    if verb == "GET" && path == JOBS_PATH then Ok(ListAll)
    else if verb == "GET" && Contains(path, JOB_PATH) then Ok(ShowJob(Last(Split(path, JOB_PATH))))
    else if verb == "POST" && path == JOBS_PATH then Ok(StartJob)
    else Ok(NoEndpoint)
  }

  /** What POST /jobs sends the orchestrator, read from the JSON body. */
  function StartRequest(event: Event, parse: Parser): (r: Result<Invocation, Fault>)
    ensures r.Ok? ==> r.value.functionName == ORCHESTRATOR && r.value.invocationType == ASYNC
  {
    var text :- Get(event, "body");
    var body :- ParseJson(parse, text);
    var config :- Get(body, "config");
    Ok(Invocation(ORCHESTRATOR, ASYNC, config, GetOr(body, "initiated_by", DEFAULT_INITIATOR)))
  }

  /** `lambda_handler`. Every reply carries the JSON header. */
  method LambdaHandler(store: JobStatusManager, event: Event, parse: Parser, invokeFault: Option<Fault>)
    returns (reply: Reply<Body>, invoked: Option<Invocation>)
    requires store.Valid()
    ensures reply.jsonHeader
    ensures invoked.Some? <==> RouteOf(event) == Ok(StartJob) && StartRequest(event, parse).Ok?
    ensures invoked.Some? ==> invoked.value == StartRequest(event, parse).value
    ensures RouteOf(event).Err? ==> reply == Reply(500, true, Crash(RouteOf(event).error))
    ensures RouteOf(event) == Ok(ListAll) ==>
      reply.statusCode == 200 && reply.body.Jobs? && Page(store.jobs, reply.body.jobs, DEFAULT_LIST_LIMIT)
    ensures RouteOf(event).Ok? && RouteOf(event).value.ShowJob? ==>
      var id := RouteOf(event).value.jobId;
      reply == if id in store.jobs then Reply(200, true, JobRecord(store.jobs[id])) else Reply(404, true, Message("Job not found"))
    ensures RouteOf(event) == Ok(StartJob) ==>
      reply == if StartRequest(event, parse).Err? then Reply(500, true, Crash(StartRequest(event, parse).error))
               else if invokeFault.Some? then Reply(500, true, Crash(invokeFault.value))
               else Reply(202, true, Started("Job started", PENDING))
    ensures RouteOf(event) == Ok(NoEndpoint) ==> reply == Reply(404, true, Message("Endpoint not found"))
  {
    invoked := None;
    var route := RouteOf(event);
    if route.Err? {
      return Reply(500, true, Crash(route.error)), None;
    }
    match route.value
    case ListAll =>
      var page := store.ListJobs(DEFAULT_LIST_LIMIT);
      reply := Reply(200, true, Jobs(page.value));
    case ShowJob(id) =>
      var job := store.GetJob(id);
      if job.None? {
        reply := Reply(404, true, Message("Job not found"));
      } else {
        reply := Reply(200, true, JobRecord(job.value));
      }
    case StartJob =>
      var start := StartRequest(event, parse);
      if start.Err? {
        return Reply(500, true, Crash(start.error)), None;
      }
      invoked := Some(start.value);
      if invokeFault.Some? {
        reply := Reply(500, true, Crash(invokeFault.value));
      } else {
        reply := Reply(202, true, Started("Job started", PENDING));
      }
    case NoEndpoint =>
      reply := Reply(404, true, Message("Endpoint not found"));
  }

  /** The routes are told apart by method and path alone: exactly `/jobs`
      lists or starts, a path containing `/jobs/` shows, anything else is
      unknown; a start without `initiated_by` is attributed to `api-user`. */
  lemma Routing(event: Event, parse: Parser)
    requires "httpMethod" in event && "path" in event
    ensures var m, p := event["httpMethod"], event["path"];
      (RouteOf(event) == Ok(ListAll) <==> m == "GET" && p == JOBS_PATH) &&
      (RouteOf(event) == Ok(StartJob) <==> m == "POST" && p == JOBS_PATH) &&
      (RouteOf(event).value.ShowJob? <==> m == "GET" && p != JOBS_PATH && Contains(p, JOB_PATH)) &&
      (RouteOf(event) == Ok(NoEndpoint) <==>
         !(m == "GET" && (p == JOBS_PATH || Contains(p, JOB_PATH))) && !(m == "POST" && p == JOBS_PATH))
    ensures RouteOf(event) == Ok(StartJob) && StartRequest(event, parse).Ok? ==>
      var body := parse(event["body"]).value;
      StartRequest(event, parse).value.config == body["config"] &&
      StartRequest(event, parse).value.initiatedBy == (if "initiated_by" in body then body["initiated_by"] else DEFAULT_INITIATOR)
  {
  }
}
