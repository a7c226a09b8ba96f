/** The deployment orchestrator: one run creates a job record, invokes the
    export, upload, import and permission functions in turn, records each
    step in the job store, and stops at the first step that does not answer
    200.

    A run is described twice: `Orchestrate` gives the sequence of actions
    (store writes and invocations, in order) and the response as a value,
    and `LambdaHandler` performs those actions on a `JobStatusManager`.
    The remote functions' answers and the JSON decoder are inputs. */
module Orchestrator {
  import opened Wrappers
  import opened Strings
  import opened Clock
  import opened Http
  import opened JobStore
  import Arns

  const EXPORT_STEP: string := "biops-export-assets"
  const UPLOAD_STEP: string := "biops-upload-assets"
  const IMPORT_STEP: string := "biops-import-assets"
  const PERMISSIONS_STEP: string := "biops-update-permissions"
  const STEP_NAMES: seq<string> := [EXPORT_STEP, UPLOAD_STEP, IMPORT_STEP, PERMISSIONS_STEP]

  const DEFAULT_INITIATOR: string := "system"
  const DEFAULT_DASHBOARD: string := "BIOpsDemo"
  const UNKNOWN_JOB: string := "unknown"
  const DEPLOYED_MESSAGE: string := "Asset deployment completed successfully"
  const EXPORT_FAILED: string := "Export failed"
  const UPLOAD_FAILED: string := "Upload failed"
  const IMPORT_FAILED: string := "Import failed"
  const PERMISSIONS_FAILED: string := "Permissions update failed"

  /** The configuration keys a run reads with `config[...]`, in reading order. */
  const REQUIRED_KEYS: seq<string> := ["source_account_id", "source_role_name", "source_asset_id",
    "target_account_id", "target_role_name", "target_admin_user", "bucket_name"]

  /** The keys the upload payload reads from the export's answer, in order. */
  const EXPORT_KEYS: seq<string> := ["download_url", "job_id", "export_format"]

  /** The orchestrator's event: `initiated_by` and `config`, each possibly absent. */
  datatype Request = Request(initiatedBy: Option<string>, config: Option<Payload>)

  datatype Config = Config(sourceAccountId: string, sourceRoleName: string, sourceAssetId: string,
                           targetAccountId: string, targetRoleName: string, targetAdminUser: string,
                           bucketName: string, dashboardName: string, awsRegion: string)

  /** A decoded synchronous invocation result: `statusCode` and `body`, each possibly absent. */
  datatype StepResult = StepResult(statusCode: Option<int>, body: Option<string>)

  /** What each of the four invocations returns; `Err` is an exception raised by the invoke call. */
  datatype Replies = Replies(exportReply: Result<StepResult, Fault>, uploadReply: Result<StepResult, Fault>,
                             importReply: Result<StepResult, Fault>, permissionsReply: Result<StepResult, Fault>)

  datatype Invocation = Invocation(functionName: string, payload: map<string, string>)

  datatype Action = Invoke(call: Invocation) | Write(op: StoreOp)

  datatype Response =
    | Forwarded(result: StepResult)     // a failing step's own result, returned unchanged
    | Deployed(jobId: string, exportJobId: string, importJobId: string, s3Uri: string, permissionsStatus: int)
    | Crashed(error: Fault, jobId: string)

  /** The status code the orchestrator itself answers with. */
  function ResponseCode(r: Response): Option<int> {
    match r
    case Forwarded(res) => res.statusCode
    case Deployed(_, _, _, _, _) => Some(200)
    case Crashed(_, _) => Some(500)
  }

  /** `job-{YYYYmmdd-HHMMSS}-{first 8 characters of the uuid}`. */
  function JobId(started: DateTime, uuid: string): string
    requires ValidDateTime(started)
  {
    "job-" + CompactStamp(started) + "-" + Take(uuid, 8)
  }

  /** The job id reads back as its prefix, timestamp and uuid fragment. */
  lemma JobIdFields(started: DateTime, uuid: string)
    requires ValidDateTime(started) && |uuid| >= 8
    ensures var id := JobId(started, uuid);
      |id| == 28 && id[..4] == "job-" && id[4..19] == CompactStamp(started) && id[19] == '-' && id[20..] == uuid[..8]
      && ParseCompactStamp(id[4..19]) == started
  {
    CompactStampRoundTrip(started);
  }

  /** Two runs get the same job id exactly when they start in the same second
      with the same uuid prefix. */
  lemma JobIdInjective(t1: DateTime, u1: string, t2: DateTime, u2: string)
    requires ValidDateTime(t1) && ValidDateTime(t2) && |u1| >= 8 && |u2| >= 8
    ensures JobId(t1, u1) == JobId(t2, u2) <==> t1 == t2 && u1[..8] == u2[..8]
  {
    JobIdFields(t1, u1);
    JobIdFields(t2, u2);
    CompactStampInjective(t1, t2);
    if JobId(t1, u1) == JobId(t2, u2) {
      assert CompactStamp(t1) == JobId(t1, u1)[4..19];
    }
  }

  /** Reading the configuration: the seven required keys in order, then the
      dashboard name and region with their defaults. */
  function ReadConfig(config: Payload): Result<Config, Fault> {
    var v :- ReadAll(config, REQUIRED_KEYS);
    Ok(Config(v[0], v[1], v[2], v[3], v[4], v[5], v[6],
              GetOr(config, "dashboard_name", DEFAULT_DASHBOARD), GetOr(config, "aws_region", Arns.DEFAULT_REGION)))
  }

  /** The configuration is read exactly when every required key is present;
      otherwise the run fails on the first missing one. */
  lemma ReadConfigFails(config: Payload)
    ensures ReadConfig(config).Err? <==> FirstMissing(config, REQUIRED_KEYS).Some?
    ensures ReadConfig(config).Err? ==> ReadConfig(config).error == MissingKey(FirstMissing(config, REQUIRED_KEYS).value)
    ensures ReadConfig(config).Ok? ==>
      ReadConfig(config).value.bucketName == config["bucket_name"] && ReadConfig(config).value.sourceAssetId == config["source_asset_id"]
  {
    ReadAllFails(config, REQUIRED_KEYS);
  }

  function ExportPayload(c: Config): map<string, string> {
    map["source_account_id" := c.sourceAccountId, "source_role_name" := c.sourceRoleName,
        "source_asset_id" := c.sourceAssetId, "aws_region" := c.awsRegion]
  }

  /** The upload payload reads three keys of the export's answer, in order. */
  function UploadPayload(exportData: map<string, string>, c: Config): (r: Result<map<string, string>, Fault>)
    ensures r.Ok? ==> "job_id" in exportData && "job_id" in r.value && r.value["job_id"] == exportData["job_id"]
  {
    var v :- ReadAll(exportData, EXPORT_KEYS);
    Ok(map["download_url" := v[0], "job_id" := v[1], "export_format" := v[2],
           "bucket_name" := c.bucketName, "target_account_id" := c.targetAccountId,
           "target_role_name" := c.targetRoleName, "aws_region" := c.awsRegion])
  }

  /** The upload payload is built exactly when the export answered with all
      three keys; otherwise the run fails on the first missing one. */
  lemma UploadPayloadFails(exportData: map<string, string>, c: Config)
    ensures UploadPayload(exportData, c).Err? <==> FirstMissing(exportData, EXPORT_KEYS).Some?
    ensures UploadPayload(exportData, c).Err? ==> UploadPayload(exportData, c).error == MissingKey(FirstMissing(exportData, EXPORT_KEYS).value)
  {
    ReadAllFails(exportData, EXPORT_KEYS);
  }

  function ImportPayload(s3Uri: string, c: Config): map<string, string> {
    map["s3_uri" := s3Uri, "source_asset_id" := c.sourceAssetId, "target_account_id" := c.targetAccountId,
        "target_role_name" := c.targetRoleName, "aws_region" := c.awsRegion]
  }

  function PermissionsPayload(c: Config): map<string, string> {
    map["dashboard_name" := c.dashboardName, "target_account_id" := c.targetAccountId,
        "target_role_name" := c.targetRoleName, "target_admin_user" := c.targetAdminUser,
        "aws_region" := c.awsRegion]
  }

  /** `result['statusCode']` of an invocation that returned. */
  function StatusOf(reply: Result<StepResult, Fault>): (r: Result<int, Fault>)
    ensures r.Ok? <==> reply.Ok? && reply.value.statusCode.Some?
    ensures r.Ok? ==> r.value == reply.value.statusCode.value
  {
    match reply
    case Err(f) => Err(f)
    case Ok(res) => if res.statusCode.Some? then Ok(res.statusCode.value) else Err(MissingKey("statusCode"))
  }

  /** `json.loads(result['body'])`. */
  function Decode(res: StepResult, parse: Parser): (r: Result<map<string, string>, Fault>)
    ensures r.Ok? <==> res.body.Some? && parse(res.body.value).Some?
    ensures r.Ok? ==> r.value == parse(res.body.value).value
  {
    if res.body.None? then Err(MissingKey("body"))
    else match parse(res.body.value)
      case None => Err(MalformedJson)
      case Some(m) => Ok(m)
  }

  /** `json.loads(import_result['body'])['job_id']`. */
  function ImportJobId(res: StepResult, parse: Parser): Result<string, Fault> {
    var data :- Decode(res, parse);
    Get(data, "job_id")
  }

  /** A failing step: its record FAILED with the result body (or a default)
      as error message, then the job FAILED. */
  function Failed(jobId: string, step: string, res: StepResult, default: string): seq<Action> {
    [Write(AddStep(jobId, step, FAILED, None, Some(res.body.GetOr(default)))), Write(UpdateStatus(jobId, FAILED, None))]
  }

  /** A step that answered 200: its record SUCCEEDED, then the job RUNNING the next one. */
  function Advanced(jobId: string, step: string, output: Option<string>, next: string): seq<Action> {
    [Write(AddStep(jobId, step, SUCCEEDED, output, None)), Write(UpdateStatus(jobId, RUNNING, Some(next)))]
  }

  /** Where a stage leaves the run: on to the next stage with a value, or finished. */
  datatype Flow<T> = Next(value: T) | Stop(result: Result<Response, Fault>)

  datatype Stage<T> = Stage(actions: seq<Action>, flow: Flow<T>)

  datatype Uploaded = Uploaded(exportJobId: string, s3Uri: string)

  /** Create the record, mark it RUNNING the export, read the configuration. */
  function Start(jobId: string, request: Request): Stage<Config> {
    match request.config
    case None => Stage([], Stop(Err(MissingKey("config"))))
    case Some(config) =>
      var acts := [Write(Create(jobId, config, request.initiatedBy.GetOr(DEFAULT_INITIATOR))),
                   Write(UpdateStatus(jobId, RUNNING, Some(EXPORT_STEP)))];
      match ReadConfig(config)
      case Err(f) => Stage(acts, Stop(Err(f)))
      case Ok(c) => Stage(acts, Next(c))
  }

  function ExportStage(jobId: string, c: Config, reply: Result<StepResult, Fault>, parse: Parser): Stage<map<string, string>> {
    var acts := [Invoke(Invocation(EXPORT_STEP, ExportPayload(c)))];
    match StatusOf(reply)
    case Err(f) => Stage(acts, Stop(Err(f)))
    case Ok(code) =>
      if code != 200 then Stage(acts + Failed(jobId, EXPORT_STEP, reply.value, EXPORT_FAILED), Stop(Ok(Forwarded(reply.value))))
      else match Decode(reply.value, parse)
        case Err(f) => Stage(acts, Stop(Err(f)))
        case Ok(data) => Stage(acts + Advanced(jobId, EXPORT_STEP, Lookup(data, "download_url"), UPLOAD_STEP), Next(data))
  }

  function UploadStage(jobId: string, c: Config, exportData: map<string, string>,
                       reply: Result<StepResult, Fault>, parse: Parser): Stage<Uploaded> {
    match UploadPayload(exportData, c)
    case Err(f) => Stage([], Stop(Err(f)))
    case Ok(payload) =>
      var acts := [Invoke(Invocation(UPLOAD_STEP, payload))];
      match StatusOf(reply)
      case Err(f) => Stage(acts, Stop(Err(f)))
      case Ok(code) =>
        if code != 200 then Stage(acts + Failed(jobId, UPLOAD_STEP, reply.value, UPLOAD_FAILED), Stop(Ok(Forwarded(reply.value))))
        else match Decode(reply.value, parse)
          case Err(f) => Stage(acts, Stop(Err(f)))
          case Ok(data) =>
            var recorded := acts + Advanced(jobId, UPLOAD_STEP, Lookup(data, "s3_uri"), IMPORT_STEP);
            match Get(data, "s3_uri")
            case Err(f) => Stage(recorded, Stop(Err(f)))
            case Ok(s3Uri) => Stage(recorded, Next(Uploaded(exportData["job_id"], s3Uri)))
  }

  function ImportStage(jobId: string, c: Config, s3Uri: string, reply: Result<StepResult, Fault>): Stage<StepResult> {
    var acts := [Invoke(Invocation(IMPORT_STEP, ImportPayload(s3Uri, c)))];
    match StatusOf(reply)
    case Err(f) => Stage(acts, Stop(Err(f)))
    case Ok(code) =>
      if code != 200 then Stage(acts + Failed(jobId, IMPORT_STEP, reply.value, IMPORT_FAILED), Stop(Ok(Forwarded(reply.value))))
      else Stage(acts + Advanced(jobId, IMPORT_STEP, None, PERMISSIONS_STEP), Next(reply.value))
  }

  /** The permissions step always finishes the run: 200 records COMPLETED and
      the results, anything else records FAILED; both answer 200 with a summary. */
  function PermissionsStage(jobId: string, c: Config, up: Uploaded, importResult: StepResult,
                            reply: Result<StepResult, Fault>, parse: Parser): Stage<Response> {
    var acts := [Invoke(Invocation(PERMISSIONS_STEP, PermissionsPayload(c)))];
    match StatusOf(reply)
    case Err(f) => Stage(acts, Stop(Err(f)))
    case Ok(code) =>
      var s := Finish(jobId, up, importResult, reply.value, code, parse);
      Stage(acts + s.actions, s.flow)
  }

  /** Lines 134-161, once the permission update has answered `code`. */
  function Finish(jobId: string, up: Uploaded, importResult: StepResult, res: StepResult, code: int,
                  parse: Parser): Stage<Response> {
    if code == 200 then
      var done := [Write(AddStep(jobId, PERMISSIONS_STEP, SUCCEEDED, None, None)),
                   Write(UpdateStatus(jobId, COMPLETED, None))];
      match ImportJobId(importResult, parse)
      case Err(f) => Stage(done, Stop(Err(f)))
      case Ok(importJobId) =>
        match Decode(res, parse)
        case Err(f) => Stage(done, Stop(Err(f)))
        case Ok(data) =>
          var results := map["export_job_id" := Some(up.exportJobId), "import_job_id" := Some(importJobId),
                              "s3_uri" := Some(up.s3Uri), "dashboard_id" := Lookup(data, "dashboard_id")];
          Stage(done + [Write(SetResults(jobId, results))],
                Stop(Ok(Deployed(jobId, up.exportJobId, importJobId, up.s3Uri, code))))
    else
      var done := Failed(jobId, PERMISSIONS_STEP, res, PERMISSIONS_FAILED);
      match ImportJobId(importResult, parse)
      case Err(f) => Stage(done, Stop(Err(f)))
      case Ok(importJobId) => Stage(done, Stop(Ok(Deployed(jobId, up.exportJobId, importJobId, up.s3Uri, code))))
  }

  /** The body of the handler's `try`: the actions it takes and how it ends. */
  datatype Outcome = Outcome(actions: seq<Action>, result: Result<Response, Fault>)

  function Body(jobId: string, request: Request, replies: Replies, parse: Parser): Outcome {
    var s1 := Start(jobId, request);
    match s1.flow
    case Stop(r) => Outcome(s1.actions, r)
    case Next(c) => AfterStart(jobId, c, s1.actions, replies, parse)
  }

  /** The rest of the body once the job is running under `c`, after the
      actions `done`: the export step on. */
  function AfterStart(jobId: string, c: Config, done: seq<Action>, replies: Replies, parse: Parser): Outcome {
    var s2 := ExportStage(jobId, c, replies.exportReply, parse);
    match s2.flow
    case Stop(r) => Outcome(done + s2.actions, r)
    case Next(exportData) => AfterExport(jobId, c, exportData, done + s2.actions, replies, parse)
  }

  /** The upload step on. */
  function AfterExport(jobId: string, c: Config, exportData: map<string, string>, done: seq<Action>,
                       replies: Replies, parse: Parser): Outcome {
    var s3 := UploadStage(jobId, c, exportData, replies.uploadReply, parse);
    match s3.flow
    case Stop(r) => Outcome(done + s3.actions, r)
    case Next(up) => AfterUpload(jobId, c, up, done + s3.actions, replies, parse)
  }

  /** The import step on. */
  function AfterUpload(jobId: string, c: Config, up: Uploaded, done: seq<Action>, replies: Replies, parse: Parser): Outcome {
    var s4 := ImportStage(jobId, c, up.s3Uri, replies.importReply);
    match s4.flow
    case Stop(r) => Outcome(done + s4.actions, r)
    case Next(importResult) => AfterImport(jobId, c, up, importResult, done + s4.actions, replies, parse)
  }

  /** The permissions step, the last. */
  function AfterImport(jobId: string, c: Config, up: Uploaded, importResult: StepResult, done: seq<Action>,
                       replies: Replies, parse: Parser): Outcome {
    var s5 := PermissionsStage(jobId, c, up, importResult, replies.permissionsReply, parse);
    Outcome(done + s5.actions, if s5.flow.Stop? then s5.flow.result else Err(MalformedJson))
  }

  /** A whole run: the actions in order and the response. */
  datatype Run = Run(actions: seq<Action>, response: Response)

  /** `setupFault` is an exception from creating the Lambda client or the
      store, raised before a job id exists. */
  function Orchestrate(setupFault: Option<Fault>, started: DateTime, uuid: string,
                       request: Request, replies: Replies, parse: Parser): Run
    requires ValidDateTime(started)
  {
    if setupFault.Some? then Run([], Crashed(setupFault.value, UNKNOWN_JOB))
    else
      var jobId := JobId(started, uuid);
      var o := Body(jobId, request, replies, parse);
      match o.result
      case Ok(r) => Run(o.actions, r)
      case Err(f) => Run(o.actions + [Write(UpdateStatus(jobId, FAILED, None))], Crashed(f, jobId))
  }

  /** The invocations among the actions, in order. */
  function Calls(actions: seq<Action>): seq<Invocation> {
    if actions == [] then []
    else (if actions[0].Invoke? then [actions[0].call] else []) + Calls(actions[1..])
  }

  /** The store writes among the actions, in order. */
  function Writes(actions: seq<Action>): seq<StoreOp> {
    if actions == [] then []
    else (if actions[0].Write? then [actions[0].op] else []) + Writes(actions[1..])
  }

  lemma {:induction false} CallsAppend(a: seq<Action>, b: seq<Action>)
    ensures Calls(a + b) == Calls(a) + Calls(b)
  {
    if a == [] {
      assert a + b == b;
    } else {
      var head := if a[0].Invoke? then [a[0].call] else [];
      assert (a + b)[0] == a[0];
      assert (a + b)[1..] == a[1..] + b;
      assert Calls(a + b) == head + Calls(a[1..] + b);
      CallsAppend(a[1..], b);
      assert Calls(a) == head + Calls(a[1..]);
    }
  }

  lemma {:induction false} WritesAppend(a: seq<Action>, b: seq<Action>)
    ensures Writes(a + b) == Writes(a) + Writes(b)
  {
    if a == [] {
      assert a + b == b;
    } else {
      var head := if a[0].Write? then [a[0].op] else [];
      assert (a + b)[0] == a[0];
      assert (a + b)[1..] == a[1..] + b;
      assert Writes(a + b) == head + Writes(a[1..] + b);
      WritesAppend(a[1..], b);
      assert Writes(a) == head + Writes(a[1..]);
    }
  }

  lemma AfterWrite(jobs0: map<string, Job>, acts: seq<Action>, op: StoreOp, now: string)
    ensures Writes(acts + [Write(op)]) == Writes(acts) + [op]
    ensures Calls(acts + [Write(op)]) == Calls(acts)
    ensures ApplyAll(jobs0, Writes(acts + [Write(op)]), now) == ApplyOp(ApplyAll(jobs0, Writes(acts), now), op, now)
  {
    WritesAppend(acts, [Write(op)]);
    CallsAppend(acts, [Write(op)]);
    ApplyAllAppend(jobs0, Writes(acts), [op], now);
  }

  lemma AfterInvoke(acts: seq<Action>, call: Invocation)
    ensures Writes(acts + [Invoke(call)]) == Writes(acts)
    ensures Calls(acts + [Invoke(call)]) == Calls(acts) + [call]
  {
    WritesAppend(acts, [Invoke(call)]);
    CallsAppend(acts, [Invoke(call)]);
  }

  lemma Compose(jobs0: map<string, Job>, a1: seq<Action>, a2: seq<Action>, now: string)
    ensures ApplyAll(ApplyAll(jobs0, Writes(a1), now), Writes(a2), now) == ApplyAll(jobs0, Writes(a1 + a2), now)
    ensures Calls(a1 + a2) == Calls(a1) + Calls(a2)
  {
    WritesAppend(a1, a2);
    CallsAppend(a1, a2);
    ApplyAllAppend(jobs0, Writes(a1), Writes(a2), now);
  }

  /** Lines 17-35: create the record, mark it RUNNING, read the configuration. */
  method RunStart(store: JobStatusManager, jobId: string, request: Request, now: string)
    returns (flow: Flow<Config>, calls: seq<Invocation>)
    requires store.Valid()
    modifies store
    ensures store.Valid()
    ensures var s := Start(jobId, request);
      flow == s.flow && calls == Calls(s.actions) && store.jobs == ApplyAll(old(store.jobs), Writes(s.actions), now)
  {
    calls := [];
    if request.config.None? {
      return Stop(Err(MissingKey("config"))), calls;
    }
    var config := request.config.value;
    var initiatedBy := request.initiatedBy.GetOr(DEFAULT_INITIATOR);
    ghost var acts: seq<Action> := [];
    var _ := store.CreateJob(jobId, config, initiatedBy, now);
    AfterWrite(old(store.jobs), acts, Create(jobId, config, initiatedBy), now);
    acts := acts + [Write(Create(jobId, config, initiatedBy))];
    store.UpdateJobStatus(jobId, RUNNING, Some(EXPORT_STEP), now);
    AfterWrite(old(store.jobs), acts, UpdateStatus(jobId, RUNNING, Some(EXPORT_STEP)), now);
    acts := acts + [Write(UpdateStatus(jobId, RUNNING, Some(EXPORT_STEP)))];
    var c := ReadConfig(config);
    if c.Err? {
      return Stop(Err(c.error)), calls;
    }
    flow := Next(c.value);
  }

  /** Records a failing step: its result body (or the default) as error, then the job FAILED. */
  method RecordFailure(store: JobStatusManager, jobId: string, step: string, res: StepResult, default: string,
                       now: string, ghost jobs0: map<string, Job>, ghost acts: seq<Action>)
    requires store.Valid() && store.jobs == ApplyAll(jobs0, Writes(acts), now)
    modifies store
    ensures store.Valid()
    ensures store.jobs == ApplyAll(jobs0, Writes(acts + Failed(jobId, step, res, default)), now)
    ensures Calls(acts + Failed(jobId, step, res, default)) == Calls(acts)
  {
    var message := res.body.GetOr(default);
    store.AddStepResult(jobId, step, FAILED, None, Some(message), now);
    AfterWrite(jobs0, acts, AddStep(jobId, step, FAILED, None, Some(message)), now);
    ghost var acts1 := acts + [Write(AddStep(jobId, step, FAILED, None, Some(message)))];
    store.UpdateJobStatus(jobId, FAILED, None, now);
    AfterWrite(jobs0, acts1, UpdateStatus(jobId, FAILED, None), now);
    assert acts1 + [Write(UpdateStatus(jobId, FAILED, None))] == acts + Failed(jobId, step, res, default);
  }

  /** Records a step that answered 200, then the job RUNNING the next step. */
  method RecordSuccess(store: JobStatusManager, jobId: string, step: string, output: Option<string>, next: string,
                       now: string, ghost jobs0: map<string, Job>, ghost acts: seq<Action>)
    requires store.Valid() && store.jobs == ApplyAll(jobs0, Writes(acts), now)
    modifies store
    ensures store.Valid()
    ensures store.jobs == ApplyAll(jobs0, Writes(acts + Advanced(jobId, step, output, next)), now)
    ensures Calls(acts + Advanced(jobId, step, output, next)) == Calls(acts)
  {
    store.AddStepResult(jobId, step, SUCCEEDED, output, None, now);
    AfterWrite(jobs0, acts, AddStep(jobId, step, SUCCEEDED, output, None), now);
    ghost var acts1 := acts + [Write(AddStep(jobId, step, SUCCEEDED, output, None))];
    store.UpdateJobStatus(jobId, RUNNING, Some(next), now);
    AfterWrite(jobs0, acts1, UpdateStatus(jobId, RUNNING, Some(next)), now);
    assert acts1 + [Write(UpdateStatus(jobId, RUNNING, Some(next)))] == acts + Advanced(jobId, step, output, next);
  }

  /** Lines 37-61: invoke the export and record its outcome. */
  method RunExport(store: JobStatusManager, jobId: string, c: Config, reply: Result<StepResult, Fault>,
                   parse: Parser, now: string)
    returns (flow: Flow<map<string, string>>, calls: seq<Invocation>)
    requires store.Valid()
    modifies store
    ensures store.Valid()
    ensures var s := ExportStage(jobId, c, reply, parse);
      flow == s.flow && calls == Calls(s.actions) && store.jobs == ApplyAll(old(store.jobs), Writes(s.actions), now)
  {
    var call := Invocation(EXPORT_STEP, ExportPayload(c));
    AfterInvoke([], call);
    ghost var acts := [Invoke(call)];
    calls := [call];
    var code := StatusOf(reply);
    if code.Err? {
      return Stop(Err(code.error)), calls;
    }
    var result := reply.value;
    if code.value != 200 {
      RecordFailure(store, jobId, EXPORT_STEP, result, EXPORT_FAILED, now, old(store.jobs), acts);
      return Stop(Ok(Forwarded(result))), calls;
    }
    var data := Decode(result, parse);
    if data.Err? {
      return Stop(Err(data.error)), calls;
    }
    RecordSuccess(store, jobId, EXPORT_STEP, Lookup(data.value, "download_url"), UPLOAD_STEP, now, old(store.jobs), acts);
    flow := Next(data.value);
  }

  /** Lines 63-90: build the upload payload, invoke the upload and record its outcome. */
  method RunUpload(store: JobStatusManager, jobId: string, c: Config, exportData: map<string, string>,
                   reply: Result<StepResult, Fault>, parse: Parser, now: string)
    returns (flow: Flow<Uploaded>, calls: seq<Invocation>)
    requires store.Valid()
    modifies store
    ensures store.Valid()
    ensures var s := UploadStage(jobId, c, exportData, reply, parse);
      flow == s.flow && calls == Calls(s.actions) && store.jobs == ApplyAll(old(store.jobs), Writes(s.actions), now)
  {
    var payload := UploadPayload(exportData, c);
    if payload.Err? {
      return Stop(Err(payload.error)), [];
    }
    var call := Invocation(UPLOAD_STEP, payload.value);
    AfterInvoke([], call);
    ghost var acts := [Invoke(call)];
    calls := [call];
    var code := StatusOf(reply);
    if code.Err? {
      return Stop(Err(code.error)), calls;
    }
    var result := reply.value;
    if code.value != 200 {
      RecordFailure(store, jobId, UPLOAD_STEP, result, UPLOAD_FAILED, now, old(store.jobs), acts);
      return Stop(Ok(Forwarded(result))), calls;
    }
    var data := Decode(result, parse);
    if data.Err? {
      return Stop(Err(data.error)), calls;
    }
    RecordSuccess(store, jobId, UPLOAD_STEP, Lookup(data.value, "s3_uri"), IMPORT_STEP, now, old(store.jobs), acts);
    var s3Uri := Get(data.value, "s3_uri");
    if s3Uri.Err? {
      return Stop(Err(s3Uri.error)), calls;
    }
    flow := Next(Uploaded(exportData["job_id"], s3Uri.value));
  }

  /** Lines 92-115: invoke the import and record its outcome. */
  method RunImport(store: JobStatusManager, jobId: string, c: Config, s3Uri: string,
                   reply: Result<StepResult, Fault>, now: string)
    returns (flow: Flow<StepResult>, calls: seq<Invocation>)
    requires store.Valid()
    modifies store
    ensures store.Valid()
    ensures var s := ImportStage(jobId, c, s3Uri, reply);
      flow == s.flow && calls == Calls(s.actions) && store.jobs == ApplyAll(old(store.jobs), Writes(s.actions), now)
  {
    var call := Invocation(IMPORT_STEP, ImportPayload(s3Uri, c));
    AfterInvoke([], call);
    ghost var acts := [Invoke(call)];
    calls := [call];
    var code := StatusOf(reply);
    if code.Err? {
      return Stop(Err(code.error)), calls;
    }
    var result := reply.value;
    if code.value != 200 {
      RecordFailure(store, jobId, IMPORT_STEP, result, IMPORT_FAILED, now, old(store.jobs), acts);
      return Stop(Ok(Forwarded(result))), calls;
    }
    RecordSuccess(store, jobId, IMPORT_STEP, None, PERMISSIONS_STEP, now, old(store.jobs), acts);
    flow := Next(result);
  }

  /** Lines 117-161: invoke the permission update, record the end of the run
      and build the summary. */
  method RunPermissions(store: JobStatusManager, jobId: string, c: Config, up: Uploaded, importResult: StepResult,
                        reply: Result<StepResult, Fault>, parse: Parser, now: string)
    returns (flow: Flow<Response>, calls: seq<Invocation>)
    requires store.Valid()
    modifies store
    ensures store.Valid()
    ensures var s := PermissionsStage(jobId, c, up, importResult, reply, parse);
      flow == s.flow && calls == Calls(s.actions) && store.jobs == ApplyAll(old(store.jobs), Writes(s.actions), now)
  {
    var call := Invocation(PERMISSIONS_STEP, PermissionsPayload(c));
    AfterInvoke([], call);
    ghost var acts := [Invoke(call)];
    calls := [call];
    var code := StatusOf(reply);
    if code.Err? {
      return Stop(Err(code.error)), calls;
    }
    flow := RunFinish(store, jobId, up, importResult, reply.value, code.value, parse, now);
    Compose(old(store.jobs), acts, Finish(jobId, up, importResult, reply.value, code.value, parse).actions, now);
  }

  method RunFinish(store: JobStatusManager, jobId: string, up: Uploaded, importResult: StepResult,
                   result: StepResult, code: int, parse: Parser, now: string)
    returns (flow: Flow<Response>)
    requires store.Valid()
    modifies store
    ensures store.Valid()
    ensures var s := Finish(jobId, up, importResult, result, code, parse);
      flow == s.flow && Calls(s.actions) == [] && store.jobs == ApplyAll(old(store.jobs), Writes(s.actions), now)
  {
    ghost var jobs0 := store.jobs;
    if code == 200 {
      ghost var acts: seq<Action> := [];
      store.AddStepResult(jobId, PERMISSIONS_STEP, SUCCEEDED, None, None, now);
      AfterWrite(jobs0, acts, AddStep(jobId, PERMISSIONS_STEP, SUCCEEDED, None, None), now);
      acts := acts + [Write(AddStep(jobId, PERMISSIONS_STEP, SUCCEEDED, None, None))];
      store.UpdateJobStatus(jobId, COMPLETED, None, now);
      AfterWrite(jobs0, acts, UpdateStatus(jobId, COMPLETED, None), now);
      acts := acts + [Write(UpdateStatus(jobId, COMPLETED, None))];
      var importJobId := ImportJobId(importResult, parse);
      if importJobId.Err? {
        return Stop(Err(importJobId.error));
      }
      var data := Decode(result, parse);
      if data.Err? {
        return Stop(Err(data.error));
      }
      var results := map["export_job_id" := Some(up.exportJobId), "import_job_id" := Some(importJobId.value),
                          "s3_uri" := Some(up.s3Uri), "dashboard_id" := Lookup(data.value, "dashboard_id")];
      store.SetJobResults(jobId, results, now);
      AfterWrite(jobs0, acts, SetResults(jobId, results), now);
      flow := Stop(Ok(Deployed(jobId, up.exportJobId, importJobId.value, up.s3Uri, code)));
    } else {
      RecordFailure(store, jobId, PERMISSIONS_STEP, result, PERMISSIONS_FAILED, now, jobs0, []);
      assert [] + Failed(jobId, PERMISSIONS_STEP, result, PERMISSIONS_FAILED) == Failed(jobId, PERMISSIONS_STEP, result, PERMISSIONS_FAILED);
      var importJobId := ImportJobId(importResult, parse);
      if importJobId.Err? {
        return Stop(Err(importJobId.error));
      }
      flow := Stop(Ok(Deployed(jobId, up.exportJobId, importJobId.value, up.s3Uri, code)));
    }
  }

  /** The handler's `try` block, stage by stage. */
  method Attempt(store: JobStatusManager, jobId: string, request: Request, replies: Replies, parse: Parser, now: string)
    returns (result: Result<Response, Fault>, calls: seq<Invocation>)
    requires store.Valid()
    modifies store
    ensures store.Valid()
    ensures var o := Body(jobId, request, replies, parse);
      result == o.result && calls == Calls(o.actions) && store.jobs == ApplyAll(old(store.jobs), Writes(o.actions), now)
  {
    ghost var jobs0 := store.jobs;
    var f1, c1 := RunStart(store, jobId, request, now);
    ghost var a1 := Start(jobId, request).actions;
    if f1.Stop? {
      return f1.result, c1;
    }
    var c := f1.value;

    ghost var jobs1 := store.jobs;
    var f2, c2 := RunExport(store, jobId, c, replies.exportReply, parse, now);
    ghost var a2 := ExportStage(jobId, c, replies.exportReply, parse).actions;
    Compose(jobs0, a1, a2, now);
    calls := c1 + c2;
    if f2.Stop? {
      return f2.result, calls;
    }
    var exportData := f2.value;

    ghost var jobs2 := store.jobs;
    var f3, c3 := RunUpload(store, jobId, c, exportData, replies.uploadReply, parse, now);
    ghost var a3 := UploadStage(jobId, c, exportData, replies.uploadReply, parse).actions;
    Compose(jobs0, a1 + a2, a3, now);
    calls := calls + c3;
    if f3.Stop? {
      return f3.result, calls;
    }
    var up := f3.value;

    var f4, c4 := RunImport(store, jobId, c, up.s3Uri, replies.importReply, now);
    ghost var a4 := ImportStage(jobId, c, up.s3Uri, replies.importReply).actions;
    Compose(jobs0, a1 + a2 + a3, a4, now);
    calls := calls + c4;
    if f4.Stop? {
      return f4.result, calls;
    }
    var importResult := f4.value;

    var f5, c5 := RunPermissions(store, jobId, c, up, importResult, replies.permissionsReply, parse, now);
    ghost var a5 := PermissionsStage(jobId, c, up, importResult, replies.permissionsReply, parse).actions;
    Compose(jobs0, a1 + a2 + a3 + a4, a5, now);
    calls := calls + c5;
    result := if f5.Stop? then f5.result else Err(MalformedJson);
  }

  /** `lambda_handler`: a whole run on the store, including the exception
      handler that marks the job FAILED and answers 500. */
  method LambdaHandler(store: JobStatusManager, setupFault: Option<Fault>, started: DateTime, uuid: string,
                       request: Request, replies: Replies, parse: Parser, now: string)
    returns (response: Response, calls: seq<Invocation>)
    requires store.Valid() && ValidDateTime(started)
    modifies store
    ensures store.Valid()
    ensures var run := Orchestrate(setupFault, started, uuid, request, replies, parse);
      response == run.response && calls == Calls(run.actions) && store.jobs == ApplyAll(old(store.jobs), Writes(run.actions), now)
  {
    if setupFault.Some? {
      return Crashed(setupFault.value, UNKNOWN_JOB), [];
    }
    var jobId := JobId(started, uuid);
    var result;
    result, calls := Attempt(store, jobId, request, replies, parse, now);
    ghost var o := Body(jobId, request, replies, parse);
    if result.Err? {
      store.UpdateJobStatus(jobId, FAILED, None, now);
      AfterWrite(old(store.jobs), o.actions, UpdateStatus(jobId, FAILED, None), now);
      response := Crashed(result.error, jobId);
    } else {
      response := result.value;
    }
  }
}
