/** The export function: starts an asset-bundle export of one dashboard in
    the source account, polls it until it ends, and answers with the
    download URL. It also answers API Gateway requests for a stored job.

    The assumed session, the start call and the describe answers are
    inputs (`ExportSide`); today's date is a parameter. */
module ExportAssets {
  import opened Wrappers
  import opened Strings
  import opened Clock
  import opened Http
  import opened JobStore
  import opened Arns
  import opened Polling

  const EXPORT_FORMAT: string := "QUICKSIGHT_JSON"
  const TERMINAL: set<string> := {"SUCCESSFUL", "FAILED"}
  const EXPORT_PATH: string := "/export"
  const JOB_PATH: string := "/export/"
  const ENDPOINT_NOT_FOUND: string := "Endpoint not found"

  /** The keys a start request must carry, in reading order. */
  const REQUEST_KEYS: seq<string> := ["source_account_id", "source_role_name", "source_asset_id"]

  /** The keys read from the final describe response of a successful export. */
  const RESULT_KEYS: seq<string> := ["DownloadUrl", "ExportFormat"]

  datatype Request = Request(sourceAccountId: string, sourceRoleName: string, sourceAssetId: string, awsRegion: string)

  /** What an event asks for. */
  datatype Route = Begin(request: Request) | ShowJob(jobId: string) | NoEndpoint

  /** The `start_asset_bundle_export_job` call. */
  datatype ExportJob = ExportJob(accountId: string, jobId: string, resourceArns: seq<string>,
                                 includeAllDependencies: bool, includePermissions: bool, exportFormat: string)

  /** The remote side of one export: the exception `assume_role` or the start
      call raises, if any, and the describe answers in order. */
  datatype ExportSide = ExportSide(session: Option<Fault>, start: Option<Fault>, polls: seq<Observation>)

  /** The JSON bodies the function answers with. */
  datatype Body =
    | JobRecord(job: Job)                                        // a stored job record
    | Message(error: string)                                     // `{'error': text}`
    | ExportFailed(jobId: string)                                // `{'error': 'Export job failed', 'job_id': ...}`
    | Exported(jobId: string, downloadUrl: string, exportFormat: string)
    | Crash(fault: Fault)                                        // `{'error': str(e)}`

  /** Reading a start request: three required keys, then the region. */
  function ReadRequest(m: map<string, string>): Result<Request, Fault> {
    var v :- ReadAll(m, REQUEST_KEYS);
    Ok(Request(v[0], v[1], v[2], GetOr(m, "aws_region", DEFAULT_REGION)))
  }

  /** A request is read exactly when the three keys are present; otherwise
      the first missing one is reported. */
  lemma ReadRequestFails(m: map<string, string>)
    ensures ReadRequest(m).Err? <==> FirstMissing(m, REQUEST_KEYS).Some?
    ensures ReadRequest(m).Err? ==> ReadRequest(m).error == MissingKey(FirstMissing(m, REQUEST_KEYS).value)
    ensures ReadRequest(m).Ok? ==>
      ReadRequest(m).value == Request(m["source_account_id"], m["source_role_name"], m["source_asset_id"],
                                      GetOr(m, "aws_region", DEFAULT_REGION))
  {
    ReadAllFails(m, REQUEST_KEYS);
  }

  /** Routing: API Gateway events by method and path, anything else a
      direct invocation carrying the request itself. */
  function RouteOf(event: Event, parse: Parser): Result<Route, Fault> {
    if "httpMethod" !in event then
      var request :- ReadRequest(event);
      Ok(Begin(request))
    else
      var path :- Get(event, "path");
      if event["httpMethod"] == "POST" && path == EXPORT_PATH then
        var text :- Get(event, "body");
        var body :- ParseJson(parse, text);
        var request :- ReadRequest(body);
        Ok(Begin(request))
      else if event["httpMethod"] == "GET" && Contains(path, JOB_PATH) then
        Ok(ShowJob(Last(Split(path, JOB_PATH))))
      else
        Ok(NoEndpoint)
  }

  /** `{source_asset_id}_{source_account_id}_{YYYY-MM-DD}`. */
  function ExportId(request: Request, today: Date): string
    requires ValidDate(today)
  {
    request.sourceAssetId + "_" + request.sourceAccountId + "_" + IsoDate(today)
  }

  function DashboardArn(region: string, accountId: string, assetId: string): string {
    "arn:aws:quicksight:" + region + ":" + accountId + ":dashboard/" + assetId
  }

  /** The one export started: the dashboard with all its dependencies, no
      permissions, in QuickSight JSON. */
  function ExportJobFor(request: Request, today: Date): ExportJob
    requires ValidDate(today)
  {
    ExportJob(request.sourceAccountId, ExportId(request, today),
              [DashboardArn(request.awsRegion, request.sourceAccountId, request.sourceAssetId)],
              true, false, EXPORT_FORMAT)
  }

  /** The handler reaches its poll loop. */
  predicate Polls(event: Event, parse: Parser, side: ExportSide) {
    RouteOf(event, parse).Ok? && RouteOf(event, parse).value.Begin? && side.session.None? && side.start.None?
  }

  /** The whole handler, as a value. */
  function Handle(event: Event, parse: Parser, today: Date, side: ExportSide, jobs: map<string, Job>): Reply<Body>
    requires ValidDate(today)
    requires Polls(event, parse, side) ==> Reaches(side.polls, TERMINAL)
  {
    var api := "httpMethod" in event;
    match RouteOf(event, parse)
    case Err(f) => Reply(500, api, Crash(f))
    case Ok(NoEndpoint) => Reply(404, true, Message(ENDPOINT_NOT_FOUND))
    case Ok(ShowJob(id)) =>
      if id in jobs then Reply(200, true, JobRecord(jobs[id]))
      else Reply(404, true, Message("Job " + id + " not found"))
    case Ok(Begin(request)) =>
      if side.session.Some? then Reply(500, api, Crash(side.session.value))
      else if side.start.Some? then Reply(500, api, Crash(side.start.value))
      else
        var jobId := ExportId(request, today);
        match Final(side.polls, TERMINAL)
        case Err(f) => Reply(500, api, Crash(f))
        case Ok(response) =>
          if response["JobStatus"] == "FAILED" then Reply(500, false, ExportFailed(jobId))
          else match ReadAll(response, RESULT_KEYS)
            case Err(f) => Reply(500, api, Crash(f))
            case Ok(v) => Reply(200, api, Exported(jobId, v[0], v[1]))
  }

  /** `lambda_handler`: routes, reads a stored job, or starts the export
      and polls it. */
  method LambdaHandler(store: JobStatusManager, event: Event, parse: Parser, today: Date, side: ExportSide)
    returns (reply: Reply<Body>, started: Option<ExportJob>)
    requires ValidDate(today)
    requires Polls(event, parse, side) ==> Reaches(side.polls, TERMINAL)
    ensures reply == Handle(event, parse, today, side, store.jobs)
    ensures started.Some? <==> RouteOf(event, parse).Ok? && RouteOf(event, parse).value.Begin? && side.session.None?
    ensures started.Some? ==> started.value == ExportJobFor(RouteOf(event, parse).value.request, today)
  {
    started := None;
    var api := "httpMethod" in event;
    var route := RouteOf(event, parse);
    if route.Err? {
      return Reply(500, api, Crash(route.error)), None;
    }
    match route.value
    case NoEndpoint =>
      reply := Reply(404, true, Message(ENDPOINT_NOT_FOUND));
    case ShowJob(id) =>
      var record := store.GetJob(id);
      if record.Some? {
        reply := Reply(200, true, JobRecord(record.value));
      } else {
        reply := Reply(404, true, Message("Job " + id + " not found"));
      }
    case Begin(request) =>
      if side.session.Some? {
        return Reply(500, api, Crash(side.session.value)), None;
      }
      started := Some(ExportJobFor(request, today));
      if side.start.Some? {
        return Reply(500, api, Crash(side.start.value)), started;
      }
      var jobId := ExportId(request, today);
      var i := Poll(side.polls, TERMINAL);
      var answer := side.polls[i];
      if answer.Err? {
        reply := Reply(500, api, Crash(answer.error));
      } else if "JobStatus" !in answer.value {
        reply := Reply(500, api, Crash(MissingKey("JobStatus")));
      } else if answer.value["JobStatus"] == "FAILED" {
        reply := Reply(500, false, ExportFailed(jobId));
      } else {
        var v := ReadAll(answer.value, RESULT_KEYS);
        if v.Err? {
          reply := Reply(500, api, Crash(v.error));
        } else {
          reply := Reply(200, api, Exported(jobId, v.value[0], v.value[1]));
        }
      }
  }

  /** The export id ends with today's date, and two requests for the same
      asset and account get the same id exactly on the same day. */
  lemma ExportIdDate(request: Request, today: Date, other: Date)
    requires ValidDate(today) && ValidDate(other)
    ensures var id := ExportId(request, today);
      |id| >= 10 && ParseIsoDate(id[|id| - 10..]) == today
    ensures ExportId(request, today) == ExportId(request, other) <==> today == other
  {
    var prefix := request.sourceAssetId + "_" + request.sourceAccountId + "_";
    var id := ExportId(request, today);
    assert id == prefix + IsoDate(today);
    assert id[|id| - 10..] == IsoDate(today);
    IsoDateRoundTrip(today);
    if ExportId(request, today) == ExportId(request, other) {
      assert ExportId(request, other) == prefix + IsoDate(other);
      assert IsoDate(today) == IsoDate(other) by {
        assert (prefix + IsoDate(today))[|prefix|..] == IsoDate(today);
        assert (prefix + IsoDate(other))[|prefix|..] == IsoDate(other);
      }
      IsoDateInjective(today, other);
    }
  }

  /** The dashboard ARN reads back as its six colon-separated fields. */
  lemma DashboardArnFields(region: string, accountId: string, assetId: string)
    requires ':' !in region && ':' !in accountId && ':' !in assetId
    ensures Split(DashboardArn(region, accountId, assetId), ":") ==
            ["arn", "aws", "quicksight", region, accountId, "dashboard/" + assetId]
  {
    var tail := "dashboard/" + assetId;
    var fields := ["arn", "aws", "quicksight", region, accountId, tail];
    assert ':' !in tail;
    assert DashboardArn(region, accountId, assetId) == Join(fields, ":") by {
      JoinSix("arn", "aws", "quicksight", region, accountId, tail, ":");
      DashboardArnShape(region, accountId, assetId);
    }
    assert forall k :: 0 <= k < |fields| ==> ':' !in fields[k] by {
      forall k | 0 <= k < |fields| ensures ':' !in fields[k] {
        if k == 5 { assert fields[k] == tail; }
      }
    }
    SplitJoinChar(fields, ':');
  }

  lemma DashboardArnShape(region: string, accountId: string, assetId: string)
    ensures DashboardArn(region, accountId, assetId)
         == "arn" + ":" + ("aws" + ":" + ("quicksight" + ":" + (region + ":" + (accountId + ":" + ("dashboard/" + assetId)))))
  {
    var y := region + ":" + (accountId + ":" + ("dashboard/" + assetId));
    assert "arn:aws:quicksight:" + region + ":" + accountId + ":dashboard/" + assetId == "arn:aws:quicksight:" + y;
    assert "arn:aws:quicksight:" + y == "arn" + ":" + ("aws" + ":" + ("quicksight" + ":" + y));
  }

  /** The last slash-separated part of the dashboard ARN is the asset id. */
  lemma DashboardArnAsset(region: string, accountId: string, assetId: string)
    requires '/' !in assetId
    ensures Last(Split(DashboardArn(region, accountId, assetId), "/")) == assetId
  {
    var head := "arn:aws:quicksight:" + region + ":" + accountId + ":dashboard";
    assert DashboardArn(region, accountId, assetId) == head + "/" + assetId;
    LastOfSplitAfter(head, '/', assetId);
  }

  /** A start that reaches the loop answers by the first terminal status
      observed: 200 with the download URL for SUCCESSFUL, 500 with the export
      id and no header for FAILED; earlier answers were all in progress. */
  lemma AnswerFollowsFirstTerminal(event: Event, parse: Parser, today: Date, side: ExportSide, jobs: map<string, Job>)
    requires ValidDate(today) && Polls(event, parse, side) && Reaches(side.polls, TERMINAL)
    ensures var reply := Handle(event, parse, today, side, jobs);
      var i := FirstStop(side.polls, TERMINAL);
      var id := ExportId(RouteOf(event, parse).value.request, today);
      (forall j :: 0 <= j < i ==> side.polls[j].Ok? && "JobStatus" in side.polls[j].value &&
                                  side.polls[j].value["JobStatus"] !in TERMINAL) &&
      (reply.body.Exported? <==>
         side.polls[i].Ok? && "JobStatus" in side.polls[i].value && side.polls[i].value["JobStatus"] == "SUCCESSFUL" &&
         "DownloadUrl" in side.polls[i].value && "ExportFormat" in side.polls[i].value) &&
      (reply.body.Exported? ==>
         reply == Reply(200, "httpMethod" in event,
                        Exported(id, side.polls[i].value["DownloadUrl"], side.polls[i].value["ExportFormat"]))) &&
      (reply.body.ExportFailed? <==>
         side.polls[i].Ok? && "JobStatus" in side.polls[i].value && side.polls[i].value["JobStatus"] == "FAILED") &&
      (reply.body.ExportFailed? ==> reply == Reply(500, false, ExportFailed(id)))
  {
    var i := FirstStop(side.polls, TERMINAL);
    var o := side.polls[i];
    if o.Ok? && "JobStatus" in o.value && o.value["JobStatus"] != "FAILED" {
      assert o.value["JobStatus"] == "SUCCESSFUL";
      ReadAllFails(o.value, RESULT_KEYS);
    }
  }

  /** A stored job is read back under the text after the last `/export/`;
      an unknown one is a 404 naming it. */
  lemma ShowsStoredJob(event: Event, parse: Parser, today: Date, side: ExportSide, jobs: map<string, Job>)
    requires ValidDate(today)
    requires "httpMethod" in event && "path" in event && event["httpMethod"] == "GET" && Contains(event["path"], JOB_PATH)
    ensures var id := Last(Split(event["path"], JOB_PATH));
      Handle(event, parse, today, side, jobs) ==
        if id in jobs then Reply(200, true, JobRecord(jobs[id])) else Reply(404, true, Message("Job " + id + " not found"))
  {
  }

  /** The code is 200, 404 or 500; 200 only for a stored job or a finished
      export, and the JSON header is present exactly for API Gateway events,
      except on a failed export. */
  lemma ReplyShape(event: Event, parse: Parser, today: Date, side: ExportSide, jobs: map<string, Job>)
    requires ValidDate(today)
    requires Polls(event, parse, side) ==> Reaches(side.polls, TERMINAL)
    ensures var reply := Handle(event, parse, today, side, jobs);
      (reply.statusCode == 200 || reply.statusCode == 404 || reply.statusCode == 500) &&
      (reply.statusCode == 200 <==> reply.body.JobRecord? || reply.body.Exported?) &&
      (reply.statusCode == 404 ==> "httpMethod" in event && reply.body.Message?) &&
      (reply.jsonHeader <==> "httpMethod" in event && !reply.body.ExportFailed?)
  {
  }
}
