/** The import function: starts an asset-bundle import from an S3 URI in the
    target account, polls it until it ends, and answers with its status. It
    also answers API Gateway requests for the remote status of an import.

    The assumed sessions, the start call and the describe answers are inputs
    (`ImportSide`); today's date is a parameter. */
module ImportAssets {
  import opened Wrappers
  import opened Strings
  import opened Clock
  import opened Http
  import opened Arns
  import opened Polling

  const SUCCESSFUL: string := "SUCCESSFUL"
  const TERMINAL: set<string> := {"SUCCESSFUL", "FAILED", "FAILED_ROLLBACK_COMPLETED"}
  const FAILURE_ACTION: string := "ROLLBACK"
  const IMPORT_PATH: string := "/import"
  const STATUS_PATH: string := "/import/"
  const ENDPOINT_NOT_FOUND: string := "Endpoint not found"
  const IMPORTED_MESSAGE: string := "Assets imported successfully"

  /** The keys a start request must carry, in reading order. */
  const REQUEST_KEYS: seq<string> := ["s3_uri", "source_asset_id", "target_account_id", "target_role_name"]

  /** The keys a status request's body must carry. */
  const STATUS_KEYS: seq<string> := ["target_account_id", "target_role_name"]

  /** Fields of a failed import's describe response copied into the error,
      and the names they are copied under. */
  const COPIED: seq<(string, string)> := [("Errors", "errors"), ("RollbackErrors", "rollback_errors"), ("RequestId", "request_id")]

  datatype Request = Request(s3Uri: string, sourceAssetId: string, targetAccountId: string,
                             targetRoleName: string, awsRegion: string)

  datatype StatusQuery = StatusQuery(importJobId: string, targetAccountId: string, targetRoleName: string, awsRegion: string)

  datatype Route = Begin(request: Request) | ShowStatus(query: StatusQuery) | NoEndpoint

  /** The `start_asset_bundle_import_job` call. */
  datatype ImportJob = ImportJob(accountId: string, jobId: string, s3Uri: string, failureAction: string)

  /** The remote side: for a status request, the session and the describe
      answer; for a start, the session, the start call and the describe
      answers in order. */
  datatype ImportSide = ImportSide(statusSession: Option<Fault>, status: Observation,
                                   session: Option<Fault>, start: Option<Fault>, polls: seq<Observation>)

  datatype Body =
    | Described(response: map<string, string>)       // the describe response, as returned
    | Message(error: string)                         // `{'error': text}`
    | ImportFailed(details: map<string, string>)     // the error details of a failed import
    | Imported(jobId: string, status: string, message: string)
    | Crash(fault: Fault)                            // `{'error': str(e)}`

  function ReadRequest(m: map<string, string>): Result<Request, Fault> {
    var v :- ReadAll(m, REQUEST_KEYS);
    Ok(Request(v[0], v[1], v[2], v[3], GetOr(m, "aws_region", DEFAULT_REGION)))
  }

  lemma ReadRequestFails(m: map<string, string>)
    ensures ReadRequest(m).Err? <==> FirstMissing(m, REQUEST_KEYS).Some?
    ensures ReadRequest(m).Err? ==> ReadRequest(m).error == MissingKey(FirstMissing(m, REQUEST_KEYS).value)
    ensures ReadRequest(m).Ok? ==>
      ReadRequest(m).value == Request(m["s3_uri"], m["source_asset_id"], m["target_account_id"], m["target_role_name"],
                                      GetOr(m, "aws_region", DEFAULT_REGION))
  {
    ReadAllFails(m, REQUEST_KEYS);
  }

  /** Routing: a POST to `/import` starts, a GET under `/import/` asks for a
      status (its body, `{}` when absent, names the account and role), any
      other API Gateway event is unknown, and a direct invocation starts. */
  function RouteOf(event: Event, parse: Parser): Result<Route, Fault> {
    if "httpMethod" !in event then
      var request :- ReadRequest(event);
      Ok(Begin(request))
    else
      var path :- Get(event, "path");
      if event["httpMethod"] == "POST" && path == IMPORT_PATH then
        var text :- Get(event, "body");
        var body :- ParseJson(parse, text);
        var request :- ReadRequest(body);
        Ok(Begin(request))
      else if event["httpMethod"] == "GET" && Contains(path, STATUS_PATH) then
        var id := Last(Split(path, STATUS_PATH));
        var body :- ParseJson(parse, GetOr(event, "body", "{}"));
        var v :- ReadAll(body, STATUS_KEYS);
        Ok(ShowStatus(StatusQuery(id, v[0], v[1], GetOr(body, "aws_region", DEFAULT_REGION))))
      else
        Ok(NoEndpoint)
  }

  /** `{source_asset_id}_{target_account_id}_{YYYY-MM-DD}`. */
  function ImportId(request: Request, today: Date): string
    requires ValidDate(today)
  {
    request.sourceAssetId + "_" + request.targetAccountId + "_" + IsoDate(today)
  }

  function ImportJobFor(request: Request, today: Date): ImportJob
    requires ValidDate(today)
  {
    ImportJob(request.targetAccountId, ImportId(request, today), request.s3Uri, FAILURE_ACTION)
  }

  /** `error_details`: the status, the id, and whichever of the copied
      fields the describe response has. */
  function Details(jobId: string, status: string, response: map<string, string>): (d: map<string, string>)
    ensures forall k :: k in d <==> k in {"error", "job_id", "status"} || CopiedBefore(k, response, |COPIED|)
    ensures "error" in d && "job_id" in d && "status" in d
    ensures d["error"] == "Import job failed with status: " + status && d["job_id"] == jobId && d["status"] == status
    ensures forall i :: 0 <= i < |COPIED| && COPIED[i].0 in response ==> COPIED[i].1 in d && d[COPIED[i].1] == response[COPIED[i].0]
  {
    Partial(jobId, status, response, |COPIED|)
  }

  /** `k` is the name one of the first `n` copied fields, present in
      `response`, is copied under. */
  predicate CopiedBefore(k: string, response: map<string, string>, n: nat)
    requires n <= |COPIED|
  {
    exists i :: 0 <= i < n && COPIED[i].1 == k && COPIED[i].0 in response
  }

  /** The details after the first `n` copied fields were considered. */
  function Partial(jobId: string, status: string, response: map<string, string>, n: nat): (d: map<string, string>)
    requires n <= |COPIED|
    ensures forall k :: k in d <==> k in {"error", "job_id", "status"} || CopiedBefore(k, response, n)
    ensures "error" in d && "job_id" in d && "status" in d
    ensures d["error"] == "Import job failed with status: " + status && d["job_id"] == jobId && d["status"] == status
    ensures forall i :: 0 <= i < n && COPIED[i].0 in response ==> COPIED[i].1 in d && d[COPIED[i].1] == response[COPIED[i].0]
  {
    if n == 0 then map["error" := "Import job failed with status: " + status, "job_id" := jobId, "status" := status]
    else
      var d := Partial(jobId, status, response, n - 1);
      if COPIED[n - 1].0 in response then d[COPIED[n - 1].1 := response[COPIED[n - 1].0]] else d
  }

  /** The in-place construction of `error_details`. */
  method BuildDetails(jobId: string, status: string, response: map<string, string>) returns (d: map<string, string>)
    ensures d == Details(jobId, status, response)
  {
    d := map["error" := "Import job failed with status: " + status, "job_id" := jobId, "status" := status];
    var i := 0;
    while i < |COPIED|
      invariant 0 <= i <= |COPIED|
      invariant d == Partial(jobId, status, response, i)
    {
      if COPIED[i].0 in response {
        d := d[COPIED[i].1 := response[COPIED[i].0]];
      }
      i := i + 1;
    }
  }

  /** The handler reaches its poll loop. */
  predicate Polls(event: Event, parse: Parser, side: ImportSide) {
    RouteOf(event, parse).Ok? && RouteOf(event, parse).value.Begin? && side.session.None? && side.start.None?
  }

  function Handle(event: Event, parse: Parser, today: Date, side: ImportSide): Reply<Body>
    requires ValidDate(today)
    requires Polls(event, parse, side) ==> Reaches(side.polls, TERMINAL)
  {
    var api := "httpMethod" in event;
    match RouteOf(event, parse)
    case Err(f) => Reply(500, api, Crash(f))
    case Ok(NoEndpoint) => Reply(404, true, Message(ENDPOINT_NOT_FOUND))
    case Ok(ShowStatus(q)) =>
      if side.statusSession.Some? then Reply(500, api, Crash(side.statusSession.value))
      else if side.status.Err? then Reply(500, api, Crash(side.status.error))
      else Reply(200, true, Described(side.status.value))
    case Ok(Begin(request)) =>
      if side.session.Some? then Reply(500, api, Crash(side.session.value))
      else if side.start.Some? then Reply(500, api, Crash(side.start.value))
      else
        var jobId := ImportId(request, today);
        match Final(side.polls, TERMINAL)
        case Err(f) => Reply(500, api, Crash(f))
        case Ok(response) =>
          var status := response["JobStatus"];
          if status != SUCCESSFUL then Reply(500, false, ImportFailed(Details(jobId, status, response)))
          else Reply(200, api, Imported(jobId, status, IMPORTED_MESSAGE))
  }

  /** `lambda_handler`. */
  method LambdaHandler(event: Event, parse: Parser, today: Date, side: ImportSide)
    returns (reply: Reply<Body>, started: Option<ImportJob>)
    requires ValidDate(today)
    requires Polls(event, parse, side) ==> Reaches(side.polls, TERMINAL)
    ensures reply == Handle(event, parse, today, side)
    ensures started.Some? <==> RouteOf(event, parse).Ok? && RouteOf(event, parse).value.Begin? && side.session.None?
    ensures started.Some? ==> started.value == ImportJobFor(RouteOf(event, parse).value.request, today)
  {
    started := None;
    var api := "httpMethod" in event;
    var route := RouteOf(event, parse);
    if route.Err? {
      return Reply(500, api, Crash(route.error)), None;
    }
    match route.value
    case NoEndpoint =>
      reply := Reply(404, true, Message(ENDPOINT_NOT_FOUND));
    case ShowStatus(q) =>
      if side.statusSession.Some? {
        reply := Reply(500, api, Crash(side.statusSession.value));
      } else if side.status.Err? {
        reply := Reply(500, api, Crash(side.status.error));
      } else {
        reply := Reply(200, true, Described(side.status.value));
      }
    case Begin(request) =>
      if side.session.Some? {
        return Reply(500, api, Crash(side.session.value)), None;
      }
      started := Some(ImportJobFor(request, today));
      if side.start.Some? {
        return Reply(500, api, Crash(side.start.value)), started;
      }
      var jobId := ImportId(request, today);
      var i := Poll(side.polls, TERMINAL);
      var answer := side.polls[i];
      if answer.Err? {
        reply := Reply(500, api, Crash(answer.error));
      } else if "JobStatus" !in answer.value {
        reply := Reply(500, api, Crash(MissingKey("JobStatus")));
      } else {
        var status := answer.value["JobStatus"];
        if status != SUCCESSFUL {
          var details := BuildDetails(jobId, status, answer.value);
          reply := Reply(500, false, ImportFailed(details));
        } else {
          reply := Reply(200, api, Imported(jobId, status, IMPORTED_MESSAGE));
        }
      }
  }

  /** A start that reaches the loop answers by the first terminal status:
      200 for SUCCESSFUL, and for either failure status a 500 without header
      whose details name that status and the import id. */
  lemma AnswerFollowsFirstTerminal(event: Event, parse: Parser, today: Date, side: ImportSide)
    requires ValidDate(today) && Polls(event, parse, side) && Reaches(side.polls, TERMINAL)
    ensures var reply := Handle(event, parse, today, side);
      var o := side.polls[FirstStop(side.polls, TERMINAL)];
      var id := ImportId(RouteOf(event, parse).value.request, today);
      (reply.body.Imported? <==> o.Ok? && "JobStatus" in o.value && o.value["JobStatus"] == SUCCESSFUL) &&
      (reply.body.Imported? ==> reply == Reply(200, "httpMethod" in event, Imported(id, SUCCESSFUL, IMPORTED_MESSAGE))) &&
      (reply.body.ImportFailed? <==>
         o.Ok? && "JobStatus" in o.value && (o.value["JobStatus"] == "FAILED" || o.value["JobStatus"] == "FAILED_ROLLBACK_COMPLETED")) &&
      (reply.body.ImportFailed? ==>
         reply.statusCode == 500 && !reply.jsonHeader &&
         reply.body.details["status"] == o.value["JobStatus"] && reply.body.details["job_id"] == id)
  {
  }

  /** A failure's details carry exactly the three fixed keys and the copied
      names of the fields the response has. */
  lemma DetailsKeys(jobId: string, status: string, response: map<string, string>)
    ensures Details(jobId, status, response).Keys ==
      {"error", "job_id", "status"} +
      (if "Errors" in response then {"errors"} else {}) +
      (if "RollbackErrors" in response then {"rollback_errors"} else {}) +
      (if "RequestId" in response then {"request_id"} else {})
  {
    var d := Details(jobId, status, response);
    var want := {"error", "job_id", "status"} +
      (if "Errors" in response then {"errors"} else {}) +
      (if "RollbackErrors" in response then {"rollback_errors"} else {}) +
      (if "RequestId" in response then {"request_id"} else {});
    forall k ensures k in d <==> k in want {
      DetailsKey(jobId, status, response, k);
    }
    assert d.Keys == want;
  }

  lemma DetailsKey(jobId: string, status: string, response: map<string, string>, k: string)
    ensures k in Details(jobId, status, response) <==>
      k in {"error", "job_id", "status"} || (k == "errors" && "Errors" in response) ||
      (k == "rollback_errors" && "RollbackErrors" in response) || (k == "request_id" && "RequestId" in response)
  {
    if !(k in {"error", "job_id", "status"}) && CopiedBefore(k, response, |COPIED|) {
      var i :| 0 <= i < |COPIED| && COPIED[i].1 == k && COPIED[i].0 in response;
    }
    if k == "errors" && "Errors" in response { assert COPIED[0].1 == k && COPIED[0].0 in response; }
    if k == "rollback_errors" && "RollbackErrors" in response { assert COPIED[1].1 == k && COPIED[1].0 in response; }
    if k == "request_id" && "RequestId" in response { assert COPIED[2].1 == k && COPIED[2].0 in response; }
  }

  /** Two starts for the same asset and account get the same id exactly on
      the same day. */
  lemma ImportIdDate(request: Request, today: Date, other: Date)
    requires ValidDate(today) && ValidDate(other)
    ensures ImportId(request, today) == ImportId(request, other) <==> today == other
  {
    var prefix := request.sourceAssetId + "_" + request.targetAccountId + "_";
    if ImportId(request, today) == ImportId(request, other) {
      assert ImportId(request, today) == prefix + IsoDate(today);
      assert ImportId(request, other) == prefix + IsoDate(other);
      assert IsoDate(today) == IsoDate(other) by {
        assert (prefix + IsoDate(today))[|prefix|..] == IsoDate(today);
        assert (prefix + IsoDate(other))[|prefix|..] == IsoDate(other);
      }
      IsoDateInjective(today, other);
    }
  }

  /** A status request reads the id after the last `/import/` and answers
      200 with the describe response. */
  lemma StatusRoute(event: Event, parse: Parser, today: Date, side: ImportSide)
    requires ValidDate(today)
    requires "httpMethod" in event && "path" in event && event["httpMethod"] == "GET" && Contains(event["path"], STATUS_PATH)
    requires parse(GetOr(event, "body", "{}")).Some?
    requires var body := parse(GetOr(event, "body", "{}")).value; "target_account_id" in body && "target_role_name" in body
    requires side.statusSession.None? && side.status.Ok?
    ensures RouteOf(event, parse).Ok? && RouteOf(event, parse).value.ShowStatus?
    ensures RouteOf(event, parse).value.query.importJobId == Last(Split(event["path"], STATUS_PATH))
    ensures Handle(event, parse, today, side) == Reply(200, true, Described(side.status.value))
  {
    var body := parse(GetOr(event, "body", "{}")).value;
    ReadAllFails(body, STATUS_KEYS);
  }
}
