/** What an orchestrator run promises, proved for every input: the order in
    which steps are invoked, where a run stops, the statuses it writes and
    the record it leaves. */
module OrchestratorProperties {
  import opened Wrappers
  import opened Clock
  import opened Http
  import opened JobStore
  import opened Orchestrator

  const STEP_DEFAULTS: seq<string> := [EXPORT_FAILED, UPLOAD_FAILED, IMPORT_FAILED, PERMISSIONS_FAILED]

  /** The answer of the i-th invocation. */
  function ReplyAt(replies: Replies, i: nat): Result<StepResult, Fault>
    requires i < 4
  {
    if i == 0 then replies.exportReply
    else if i == 1 then replies.uploadReply
    else if i == 2 then replies.importReply
    else replies.permissionsReply
  }

  predicate Terminal(status: string) {
    status == COMPLETED || status == FAILED
  }

  ghost predicate Interim(sts: seq<string>) {
    forall i :: 0 <= i < |sts| ==> sts[i] == RUNNING
  }

  ghost predicate AllAbout(ops: seq<StoreOp>, jobId: string) {
    forall k :: 0 <= k < |ops| ==> ops[k].jobId == jobId
  }

  function FailedOps(jobId: string, step: string, res: StepResult, default: string): seq<StoreOp> {
    [AddStep(jobId, step, FAILED, None, Some(res.body.GetOr(default))), UpdateStatus(jobId, FAILED, None)]
  }

  function AdvancedOps(jobId: string, step: string, output: Option<string>, next: string): seq<StoreOp> {
    [AddStep(jobId, step, SUCCEEDED, output, None), UpdateStatus(jobId, RUNNING, Some(next))]
  }

  lemma NotesAppend(a: seq<StoreOp>, b: seq<StoreOp>)
    ensures Notes(a + b) == Notes(a) + Notes(b)
  {
  }

  lemma ActionsOfTwo(a: Action, b: Action)
    ensures Writes([a, b]) == (if a.Write? then [a.op] else []) + (if b.Write? then [b.op] else [])
    ensures Calls([a, b]) == (if a.Invoke? then [a.call] else []) + (if b.Invoke? then [b.call] else [])
  {
    assert [a, b][1..] == [b];
    assert [b][1..] == [];
    var wb := if b.Write? then [b.op] else [];
    var cb := if b.Invoke? then [b.call] else [];
    assert Writes([b]) == wb + Writes([]);
    assert Calls([b]) == cb + Calls([]);
    assert wb + [] == wb;
    assert cb + [] == cb;
  }

  lemma ActionsOfInvoke(call: Invocation, rest: seq<Action>)
    ensures Writes([Invoke(call)] + rest) == Writes(rest)
    ensures Calls([Invoke(call)] + rest) == [call] + Calls(rest)
  {
    WritesAppend([Invoke(call)], rest);
    CallsAppend([Invoke(call)], rest);
    assert [Invoke(call)][1..] == [];
  }

  lemma ActionsOfFailed(jobId: string, step: string, res: StepResult, default: string)
    ensures Writes(Failed(jobId, step, res, default)) == FailedOps(jobId, step, res, default)
    ensures Calls(Failed(jobId, step, res, default)) == []
  {
    ActionsOfTwo(Write(AddStep(jobId, step, FAILED, None, Some(res.body.GetOr(default)))), Write(UpdateStatus(jobId, FAILED, None)));
  }

  lemma ActionsOfAdvanced(jobId: string, step: string, output: Option<string>, next: string)
    ensures Writes(Advanced(jobId, step, output, next)) == AdvancedOps(jobId, step, output, next)
    ensures Calls(Advanced(jobId, step, output, next)) == []
  {
    ActionsOfTwo(Write(AddStep(jobId, step, SUCCEEDED, output, None)), Write(UpdateStatus(jobId, RUNNING, Some(next))));
  }

  lemma StatusesOfTwo(a: StoreOp, b: StoreOp)
    ensures StatusesWritten([a, b]) == StatusesWritten([a]) + StatusesWritten([b])
  {
    StatusesWrittenAppend([a], [b]);
    assert [a] + [b] == [a, b];
  }

  /** A write as the job record sees it: created, status (and current step)
      set, a step recorded with a status, or the results written. */
  datatype Note = Created | SetTo(status: string, step: Option<string>) | Recorded(name: string, outcome: string) | Summarised

  function NoteOf(op: StoreOp): Note {
    match op
    case Create(_, _, _) => Created
    case UpdateStatus(_, status, step) => SetTo(status, step)
    case AddStep(_, name, status, _, _) => Recorded(name, status)
    case SetResults(_, _) => Summarised
  }

  function Notes(ops: seq<StoreOp>): (r: seq<Note>)
    ensures |r| == |ops| && forall k :: 0 <= k < |ops| ==> r[k] == NoteOf(ops[k])
  {
    seq(|ops|, k requires 0 <= k < |ops| => NoteOf(ops[k]))
  }

  /** The writes a run makes before the first step. */
  const OPENING: seq<Note> := [Created, SetTo(RUNNING, Some(EXPORT_STEP))]

  /** The writes of the first `n` steps when each succeeded. */
  function Advances(n: nat): seq<Note>
    requires n <= 3
  {
    if n == 0 then [] else Advances(n - 1) + [Recorded(STEP_NAMES[n - 1], SUCCEEDED), SetTo(RUNNING, Some(STEP_NAMES[n]))]
  }

  /** The results a run that deployed writes. */
  ghost predicate ResultsFor(r: Results, d: Response)
    requires d.Deployed?
  {
    r.Keys == {"export_job_id", "import_job_id", "s3_uri", "dashboard_id"} &&
    r["export_job_id"] == Some(d.exportJobId) && r["import_job_id"] == Some(d.importJobId) && r["s3_uri"] == Some(d.s3Uri)
  }

  /** What a middle stage (export, upload or import) did, as the run sees it. */
  ghost predicate MiddleStage<T>(s: Stage<T>, jobId: string, reply: Result<StepResult, Fault>,
                                 step: string, default: string, next: string, recordedOnError: bool)
  {
    var ops := Writes(s.actions);
    var calls := Calls(s.actions);
    |calls| <= 1 && (calls != [] ==> calls[0].functionName == step) &&
    (calls == [] ==> s.flow.Stop? && s.flow.result.Err?) &&
    AllAbout(ops, jobId) &&
    (s.flow.Next? ==>
       StatusOf(reply) == Ok(200) && StatusesWritten(ops) == [RUNNING] &&
       Notes(ops) == [Recorded(step, SUCCEEDED), SetTo(RUNNING, Some(next))]) &&
    (s.flow.Stop? && s.flow.result.Ok? ==>
       reply.Ok? && s.flow.result.value == Forwarded(reply.value) && StatusOf(reply).Ok? && StatusOf(reply).value != 200 &&
       ops == FailedOps(jobId, step, reply.value, default) && StatusesWritten(ops) == [FAILED]) &&
    (s.flow.Stop? && s.flow.result.Err? ==>
       Interim(StatusesWritten(ops)) && (!recordedOnError ==> ops == []))
  }

  /** A middle stage whose invocation raised, or whose answer could not be
      read, stops with the error and writes nothing. */
  lemma RaisedStage<T>(s: Stage<T>, call: Invocation, jobId: string, reply: Result<StepResult, Fault>,
                       step: string, default: string, next: string, recorded: bool)
    requires call.functionName == step
    requires s.actions == [Invoke(call)] && s.flow.Stop? && s.flow.result.Err?
    ensures MiddleStage(s, jobId, reply, step, default, next, recorded) && Calls(s.actions) == [call]
  {
    ActionsOfInvoke(call, []);
    assert [Invoke(call)] + [] == [Invoke(call)];
  }

  /** A middle stage answered with a status other than 200 records the
      failure and forwards the answer. */
  lemma ForwardedStage<T>(s: Stage<T>, call: Invocation, jobId: string, reply: Result<StepResult, Fault>,
                          step: string, default: string, next: string, recorded: bool)
    requires call.functionName == step && StatusOf(reply).Ok? && StatusOf(reply).value != 200
    requires s.actions == [Invoke(call)] + Failed(jobId, step, reply.value, default)
    requires s.flow == Stop(Ok(Forwarded(reply.value)))
    ensures MiddleStage(s, jobId, reply, step, default, next, recorded) && Calls(s.actions) == [call]
  {
    ActionsOfInvoke(call, Failed(jobId, step, reply.value, default));
    ActionsOfFailed(jobId, step, reply.value, default);
    StatusesOfTwo(AddStep(jobId, step, FAILED, None, Some(reply.value.body.GetOr(default))), UpdateStatus(jobId, FAILED, None));
  }

  /** A middle stage answered 200 records the step and moves the job on
      (the upload stage may still fail after recording). */
  lemma AdvancedStage<T>(s: Stage<T>, call: Invocation, jobId: string, reply: Result<StepResult, Fault>,
                         step: string, default: string, next: string, output: Option<string>, recorded: bool)
    requires call.functionName == step && StatusOf(reply) == Ok(200)
    requires s.actions == [Invoke(call)] + Advanced(jobId, step, output, next)
    requires s.flow.Next? || (recorded && s.flow.Stop? && s.flow.result.Err?)
    ensures MiddleStage(s, jobId, reply, step, default, next, recorded) && Calls(s.actions) == [call]
  {
    ActionsOfInvoke(call, Advanced(jobId, step, output, next));
    ActionsOfAdvanced(jobId, step, output, next);
    StatusesOfTwo(AddStep(jobId, step, SUCCEEDED, output, None), UpdateStatus(jobId, RUNNING, Some(next)));
  }

  lemma ExportShape(jobId: string, c: Config, reply: Result<StepResult, Fault>, parse: Parser)
    ensures MiddleStage(ExportStage(jobId, c, reply, parse), jobId, reply, EXPORT_STEP, EXPORT_FAILED, UPLOAD_STEP, false)
    ensures Calls(ExportStage(jobId, c, reply, parse).actions) == [Invocation(EXPORT_STEP, ExportPayload(c))]
  {
    var call := Invocation(EXPORT_STEP, ExportPayload(c));
    var s := ExportStage(jobId, c, reply, parse);
    match StatusOf(reply)
    case Err(f) =>
      RaisedStage(s, call, jobId, reply, EXPORT_STEP, EXPORT_FAILED, UPLOAD_STEP, false);
    case Ok(code) =>
      if code != 200 {
        ForwardedStage(s, call, jobId, reply, EXPORT_STEP, EXPORT_FAILED, UPLOAD_STEP, false);
      } else {
        match Decode(reply.value, parse)
        case Err(f) =>
          RaisedStage(s, call, jobId, reply, EXPORT_STEP, EXPORT_FAILED, UPLOAD_STEP, false);
        case Ok(data) =>
          AdvancedStage(s, call, jobId, reply, EXPORT_STEP, EXPORT_FAILED, UPLOAD_STEP, Lookup(data, "download_url"), false);
      }
  }

  lemma UploadShape(jobId: string, c: Config, exportData: map<string, string>, reply: Result<StepResult, Fault>, parse: Parser)
    ensures MiddleStage(UploadStage(jobId, c, exportData, reply, parse), jobId, reply, UPLOAD_STEP, UPLOAD_FAILED, IMPORT_STEP, true)
    ensures var s := UploadStage(jobId, c, exportData, reply, parse);
      s.flow.Next? ==> "job_id" in exportData && s.flow.value.exportJobId == exportData["job_id"]
  {
    var s := UploadStage(jobId, c, exportData, reply, parse);
    match UploadPayload(exportData, c)
    case Err(f) =>
    case Ok(payload) =>
      var call := Invocation(UPLOAD_STEP, payload);
      match StatusOf(reply)
      case Err(f) =>
        RaisedStage(s, call, jobId, reply, UPLOAD_STEP, UPLOAD_FAILED, IMPORT_STEP, true);
      case Ok(code) =>
        if code != 200 {
          ForwardedStage(s, call, jobId, reply, UPLOAD_STEP, UPLOAD_FAILED, IMPORT_STEP, true);
        } else {
          match Decode(reply.value, parse)
          case Err(f) =>
            RaisedStage(s, call, jobId, reply, UPLOAD_STEP, UPLOAD_FAILED, IMPORT_STEP, true);
          case Ok(data) =>
            AdvancedStage(s, call, jobId, reply, UPLOAD_STEP, UPLOAD_FAILED, IMPORT_STEP, Lookup(data, "s3_uri"), true);
        }
  }

  lemma ImportShape(jobId: string, c: Config, s3Uri: string, reply: Result<StepResult, Fault>)
    ensures MiddleStage(ImportStage(jobId, c, s3Uri, reply), jobId, reply, IMPORT_STEP, IMPORT_FAILED, PERMISSIONS_STEP, false)
    ensures var s := ImportStage(jobId, c, s3Uri, reply);
      s.flow.Next? ==> reply == Ok(s.flow.value)
  {
    var call := Invocation(IMPORT_STEP, ImportPayload(s3Uri, c));
    var s := ImportStage(jobId, c, s3Uri, reply);
    match StatusOf(reply)
    case Err(f) =>
      RaisedStage(s, call, jobId, reply, IMPORT_STEP, IMPORT_FAILED, PERMISSIONS_STEP, false);
    case Ok(code) =>
      if code != 200 {
        ForwardedStage(s, call, jobId, reply, IMPORT_STEP, IMPORT_FAILED, PERMISSIONS_STEP, false);
      } else {
        AdvancedStage(s, call, jobId, reply, IMPORT_STEP, IMPORT_FAILED, PERMISSIONS_STEP, None, false);
      }
  }

  /** An export that answered 200 with a readable body is recorded SUCCEEDED
      with its `download_url` (when the answer has one) as the step's output
      key, and the job moves on to the upload. */
  lemma ExportRecorded(jobId: string, c: Config, reply: Result<StepResult, Fault>, parse: Parser)
    ensures var s := ExportStage(jobId, c, reply, parse);
      s.flow.Next? <==> StatusOf(reply) == Ok(200) && Decode(reply.value, parse).Ok?
    ensures var s := ExportStage(jobId, c, reply, parse);
      s.flow.Next? ==>
        s.flow.value == Decode(reply.value, parse).value &&
        Writes(s.actions) == [AddStep(jobId, EXPORT_STEP, SUCCEEDED, Lookup(s.flow.value, "download_url"), None),
                              UpdateStatus(jobId, RUNNING, Some(UPLOAD_STEP))]
  {
    if StatusOf(reply) == Ok(200) && Decode(reply.value, parse).Ok? {
      var data := Decode(reply.value, parse).value;
      var call := Invocation(EXPORT_STEP, ExportPayload(c));
      ActionsOfInvoke(call, Advanced(jobId, EXPORT_STEP, Lookup(data, "download_url"), UPLOAD_STEP));
      ActionsOfAdvanced(jobId, EXPORT_STEP, Lookup(data, "download_url"), UPLOAD_STEP);
    }
  }

  /** An upload that answered 200 with a readable body is recorded SUCCEEDED
      with its `s3_uri` as the step's output key, and the job moves on to the
      import. The record is written before `s3_uri` is read for the import,
      so an answer without one is recorded without output key and then ends
      the run with a missing-key fault. */
  lemma UploadRecorded(jobId: string, c: Config, exportData: map<string, string>,
                       reply: Result<StepResult, Fault>, parse: Parser)
    requires UploadPayload(exportData, c).Ok? && StatusOf(reply) == Ok(200) && Decode(reply.value, parse).Ok?
    ensures var s := UploadStage(jobId, c, exportData, reply, parse);
      var data := Decode(reply.value, parse).value;
      Writes(s.actions) == [AddStep(jobId, UPLOAD_STEP, SUCCEEDED, Lookup(data, "s3_uri"), None),
                            UpdateStatus(jobId, RUNNING, Some(IMPORT_STEP))] &&
      (s.flow.Next? <==> "s3_uri" in data) &&
      (s.flow.Next? ==> s.flow.value.s3Uri == data["s3_uri"]) &&
      (s.flow.Stop? ==> s.flow.result == Err(MissingKey("s3_uri")))
  {
    var data := Decode(reply.value, parse).value;
    var call := Invocation(UPLOAD_STEP, UploadPayload(exportData, c).value);
    ActionsOfInvoke(call, Advanced(jobId, UPLOAD_STEP, Lookup(data, "s3_uri"), IMPORT_STEP));
    ActionsOfAdvanced(jobId, UPLOAD_STEP, Lookup(data, "s3_uri"), IMPORT_STEP);
  }

  /** An import that answered 200 is recorded SUCCEEDED without output key,
      and the job moves on to the permission update. */
  lemma ImportRecorded(jobId: string, c: Config, s3Uri: string, reply: Result<StepResult, Fault>)
    ensures var s := ImportStage(jobId, c, s3Uri, reply);
      s.flow.Next? <==> StatusOf(reply) == Ok(200)
    ensures var s := ImportStage(jobId, c, s3Uri, reply);
      s.flow.Next? ==>
        Writes(s.actions) == [AddStep(jobId, IMPORT_STEP, SUCCEEDED, None, None),
                              UpdateStatus(jobId, RUNNING, Some(PERMISSIONS_STEP))]
  {
    if StatusOf(reply) == Ok(200) {
      var call := Invocation(IMPORT_STEP, ImportPayload(s3Uri, c));
      ActionsOfInvoke(call, Advanced(jobId, IMPORT_STEP, None, PERMISSIONS_STEP));
      ActionsOfAdvanced(jobId, IMPORT_STEP, None, PERMISSIONS_STEP);
    }
  }

  lemma StartShape(jobId: string, request: Request)
    ensures var s := Start(jobId, request);
      Calls(s.actions) == [] &&
      (request.config.None? ==> s == Stage([], Stop(Err(MissingKey("config"))))) &&
      (request.config.Some? ==>
         Writes(s.actions) == [Create(jobId, request.config.value, request.initiatedBy.GetOr(DEFAULT_INITIATOR)),
                               UpdateStatus(jobId, RUNNING, Some(EXPORT_STEP))] &&
         StatusesWritten(Writes(s.actions)) == [PENDING, RUNNING]) &&
      (s.flow.Stop? ==> s.flow.result.Err?)
  {
    if request.config.Some? {
      var a := Write(Create(jobId, request.config.value, request.initiatedBy.GetOr(DEFAULT_INITIATOR)));
      var b := Write(UpdateStatus(jobId, RUNNING, Some(EXPORT_STEP)));
      ActionsOfTwo(a, b);
      StatusesOfTwo(a.op, b.op);
    }
  }

  /** What the permissions stage did: it always ends the run. */
  ghost predicate LastStage(s: Stage<Response>, jobId: string, reply: Result<StepResult, Fault>, up: Uploaded)
  {
    var ops := Writes(s.actions);
    var sts := StatusesWritten(ops);
    |Calls(s.actions)| == 1 && Calls(s.actions)[0].functionName == PERMISSIONS_STEP &&
    AllAbout(ops, jobId) && s.flow.Stop? &&
    (sts == [] || sts == [COMPLETED] || sts == [FAILED]) &&
    (s.flow.result.Ok? ==>
       StatusOf(reply).Ok? && s.flow.result.value.Deployed? &&
       s.flow.result.value.jobId == jobId && s.flow.result.value.exportJobId == up.exportJobId &&
       s.flow.result.value.s3Uri == up.s3Uri && s.flow.result.value.permissionsStatus == StatusOf(reply).value &&
       (sts == [COMPLETED] <==> StatusOf(reply).value == 200) && sts != [] &&
       (StatusOf(reply).value != 200 ==> ops == FailedOps(jobId, PERMISSIONS_STEP, reply.value, PERMISSIONS_FAILED)) &&
       (StatusOf(reply).value == 200 ==>
          |ops| == 3 && Notes(ops) == [Recorded(PERMISSIONS_STEP, SUCCEEDED), SetTo(COMPLETED, None), Summarised] &&
          ops[2].SetResults? && ResultsFor(ops[2].results, s.flow.result.value)))
  }

  lemma PermissionsShape(jobId: string, c: Config, up: Uploaded, importResult: StepResult,
                         reply: Result<StepResult, Fault>, parse: Parser)
    ensures LastStage(PermissionsStage(jobId, c, up, importResult, reply, parse), jobId, reply, up)
  {
    var call := Invocation(PERMISSIONS_STEP, PermissionsPayload(c));
    match StatusOf(reply)
    case Err(f) =>
      ActionsOfInvoke(call, []);
      assert [Invoke(call)] + [] == [Invoke(call)];
    case Ok(code) =>
      var f := Finish(jobId, up, importResult, reply.value, code, parse);
      ActionsOfInvoke(call, f.actions);
      FinishShape(jobId, up, importResult, reply.value, code, parse);
  }

  lemma FinishShape(jobId: string, up: Uploaded, importResult: StepResult, res: StepResult, code: int, parse: Parser)
    ensures var s := Finish(jobId, up, importResult, res, code, parse);
      var ops := Writes(s.actions);
      var sts := StatusesWritten(ops);
      Calls(s.actions) == [] && AllAbout(ops, jobId) && s.flow.Stop? &&
      (code == 200 ==> sts == [COMPLETED]) && (code != 200 ==> sts == [FAILED] && ops == FailedOps(jobId, PERMISSIONS_STEP, res, PERMISSIONS_FAILED)) &&
      (s.flow.result.Ok? ==>
         s.flow.result.value.Deployed? && s.flow.result.value.jobId == jobId &&
         s.flow.result.value.exportJobId == up.exportJobId && s.flow.result.value.s3Uri == up.s3Uri &&
         s.flow.result.value.permissionsStatus == code)
    ensures var s := Finish(jobId, up, importResult, res, code, parse);
      var ops := Writes(s.actions);
      s.flow.result.Ok? && code == 200 ==>
        |ops| == 3 && Notes(ops) == [Recorded(PERMISSIONS_STEP, SUCCEEDED), SetTo(COMPLETED, None), Summarised] &&
        ops[2].SetResults? && ResultsFor(ops[2].results, s.flow.result.value)
  {
    if code == 200 {
      FinishCompleted(jobId, up, importResult, res, code, parse);
    } else {
      FinishRefused(jobId, up, importResult, res, code, parse);
    }
  }

  lemma FinishCompleted(jobId: string, up: Uploaded, importResult: StepResult, res: StepResult, code: int, parse: Parser)
    requires code == 200
    ensures var s := Finish(jobId, up, importResult, res, code, parse);
      var ops := Writes(s.actions);
      Calls(s.actions) == [] && AllAbout(ops, jobId) && s.flow.Stop? && StatusesWritten(ops) == [COMPLETED] &&
      (s.flow.result.Ok? ==>
         s.flow.result.value.Deployed? && s.flow.result.value.jobId == jobId &&
         s.flow.result.value.exportJobId == up.exportJobId && s.flow.result.value.s3Uri == up.s3Uri &&
         s.flow.result.value.permissionsStatus == code &&
         |ops| == 3 && Notes(ops) == [Recorded(PERMISSIONS_STEP, SUCCEEDED), SetTo(COMPLETED, None), Summarised] &&
         ops[2].SetResults? && ResultsFor(ops[2].results, s.flow.result.value))
  {
    var a := Write(AddStep(jobId, PERMISSIONS_STEP, SUCCEEDED, None, None));
    var b := Write(UpdateStatus(jobId, COMPLETED, None));
    ActionsOfTwo(a, b);
    StatusesOfTwo(a.op, b.op);
    match ImportJobId(importResult, parse)
    case Err(_) =>
    case Ok(importJobId) =>
      match Decode(res, parse)
      case Err(_) =>
      case Ok(data) =>
        var results := map["export_job_id" := Some(up.exportJobId), "import_job_id" := Some(importJobId),
                            "s3_uri" := Some(up.s3Uri), "dashboard_id" := Lookup(data, "dashboard_id")];
        ThreeWrites(a.op, b.op, SetResults(jobId, results));
        assert [a, b] + [Write(SetResults(jobId, results))] == [a, b, Write(SetResults(jobId, results))];
        NotesOfCompleted(jobId, SetResults(jobId, results));
        DeployedResults(jobId, up.exportJobId, importJobId, up.s3Uri, Lookup(data, "dashboard_id"), code);
  }

  lemma NotesOfCompleted(jobId: string, w: StoreOp)
    requires w.SetResults?
    ensures Notes([AddStep(jobId, PERMISSIONS_STEP, SUCCEEDED, None, None), UpdateStatus(jobId, COMPLETED, None), w]) ==
      [Recorded(PERMISSIONS_STEP, SUCCEEDED), SetTo(COMPLETED, None), Summarised]
  {
  }

  /** The results a deployment stores describe its summary. */
  lemma DeployedResults(jobId: string, exportJobId: string, importJobId: string, s3Uri: string, dashboard: Option<string>, code: int)
    ensures var results := map["export_job_id" := Some(exportJobId), "import_job_id" := Some(importJobId),
                                "s3_uri" := Some(s3Uri), "dashboard_id" := dashboard];
      ResultsFor(results, Deployed(jobId, exportJobId, importJobId, s3Uri, code))
  {
  }

  lemma FinishRefused(jobId: string, up: Uploaded, importResult: StepResult, res: StepResult, code: int, parse: Parser)
    requires code != 200
    ensures var s := Finish(jobId, up, importResult, res, code, parse);
      var ops := Writes(s.actions);
      Calls(s.actions) == [] && AllAbout(ops, jobId) && s.flow.Stop? &&
      StatusesWritten(ops) == [FAILED] && ops == FailedOps(jobId, PERMISSIONS_STEP, res, PERMISSIONS_FAILED) &&
      (s.flow.result.Ok? ==>
         s.flow.result.value.Deployed? && s.flow.result.value.jobId == jobId &&
         s.flow.result.value.exportJobId == up.exportJobId && s.flow.result.value.s3Uri == up.s3Uri &&
         s.flow.result.value.permissionsStatus == code)
  {
    ActionsOfFailed(jobId, PERMISSIONS_STEP, res, PERMISSIONS_FAILED);
    StatusesOfTwo(AddStep(jobId, PERMISSIONS_STEP, FAILED, None, Some(res.body.GetOr(PERMISSIONS_FAILED))), UpdateStatus(jobId, FAILED, None));
  }

  lemma ThreeWrites(a: StoreOp, b: StoreOp, w: StoreOp)
    requires w.SetResults?
    ensures var acts := [Write(a), Write(b), Write(w)];
      Writes(acts) == [a, b, w] && Calls(acts) == [] && StatusesWritten([a, b, w]) == StatusesWritten([a, b])
  {
    var acts := [Write(a), Write(b), Write(w)];
    assert acts == [Write(a), Write(b)] + [Write(w)];
    ActionsOfTwo(Write(a), Write(b));
    WritesAppend([Write(a), Write(b)], [Write(w)]);
    CallsAppend([Write(a), Write(b)], [Write(w)]);
    assert Writes([Write(w)]) == [w] by { assert [Write(w)][1..] == []; }
    assert Calls([Write(w)]) == [] by { assert [Write(w)][1..] == []; }
    StatusesWrittenAppend([a, b], [w]);
    assert StatusesWritten([w]) == [] by { assert [w][1..] == []; }
    assert [a, b] + [w] == [a, b, w];
  }

  lemma Concat(a: seq<Action>, b: seq<Action>, jobId: string)
    requires AllAbout(Writes(a), jobId) && AllAbout(Writes(b), jobId)
    ensures Calls(a + b) == Calls(a) + Calls(b)
    ensures Writes(a + b) == Writes(a) + Writes(b)
    ensures StatusesWritten(Writes(a + b)) == StatusesWritten(Writes(a)) + StatusesWritten(Writes(b))
    ensures AllAbout(Writes(a + b), jobId)
  {
    CallsAppend(a, b);
    WritesAppend(a, b);
    StatusesWrittenAppend(Writes(a), Writes(b));
  }

  /** After Start and the first `k` steps all went on: the calls so far
      are the first `k` step names, each answered 200; the record was
      created and set RUNNING, and nothing since wrote another status. */
  ghost predicate Progress(acts: seq<Action>, jobId: string, request: Request, replies: Replies, k: nat) {
    var calls := Calls(acts);
    var ops := Writes(acts);
    var sts := StatusesWritten(ops);
    k <= 3 && request.config.Some? && |calls| == k &&
    (forall i :: 0 <= i < k ==> calls[i].functionName == STEP_NAMES[i] && StatusOf(ReplyAt(replies, i)) == Ok(200)) &&
    AllAbout(ops, jobId) &&
    |ops| >= 2 && ops[0] == Create(jobId, request.config.value, request.initiatedBy.GetOr(DEFAULT_INITIATOR)) &&
    ops[1] == UpdateStatus(jobId, RUNNING, Some(EXPORT_STEP)) &&
    |acts| >= 2 && acts[0] == Write(ops[0]) && acts[1] == Write(ops[1]) &&
    |sts| >= 2 && sts[0] == PENDING && Interim(sts[1..]) &&
    Notes(ops) == OPENING + Advances(k)
  }

  /** A body that forwards the refusal of step `n - 1`, the last it called:
      that step's answer was not 200 and is recorded FAILED, and the job
      FAILED. */
  ghost predicate Refused(o: Outcome, jobId: string, replies: Replies)
    requires o.result.Ok? && o.result.value.Forwarded?
  {
    var n := |Calls(o.actions)|;
    var ops := Writes(o.actions);
    1 <= n <= 3 && ReplyAt(replies, n - 1) == Ok(o.result.value.result) &&
    StatusOf(ReplyAt(replies, n - 1)).Ok? && StatusOf(ReplyAt(replies, n - 1)).value != 200 &&
    |ops| >= 2 && ops[|ops| - 2..] == FailedOps(jobId, STEP_NAMES[n - 1], o.result.value.result, STEP_DEFAULTS[n - 1]) &&
    Notes(ops) == OPENING + Advances(n - 1) + [Recorded(STEP_NAMES[n - 1], FAILED), SetTo(FAILED, None)]
  }

  /** What the body of a run did, with the statuses it wrote split into
      the creation, the RUNNING updates and at most one terminal status. */
  ghost predicate Shape(o: Outcome, jobId: string, request: Request, replies: Replies,
                        interim: seq<string>, last: seq<string>)
  {
    var calls := Calls(o.actions);
    var ops := Writes(o.actions);
    var n := |calls|;
    n <= 4 &&
    (forall i :: 0 <= i < n ==> calls[i].functionName == STEP_NAMES[i]) &&
    (forall i :: 0 <= i < n - 1 ==> StatusOf(ReplyAt(replies, i)) == Ok(200)) &&
    AllAbout(ops, jobId) &&
    (request.config.None? ==> o == Outcome([], Err(MissingKey("config")))) &&
    (request.config.Some? ==>
       |ops| >= 2 && |o.actions| >= 2 && o.actions[0] == Write(ops[0]) && o.actions[1] == Write(ops[1]) && ops[0] == Create(jobId, request.config.value, request.initiatedBy.GetOr(DEFAULT_INITIATOR)) &&
       ops[1] == UpdateStatus(jobId, RUNNING, Some(EXPORT_STEP)) &&
       StatusesWritten(ops) == [PENDING] + interim + last && Interim(interim) &&
       (last == [] || last == [FAILED] || last == [COMPLETED])) &&
    (o.result.Ok? ==>
       request.config.Some? && last != [] && n >= 1 &&
       (o.result.value.Forwarded? || o.result.value.Deployed?)) &&
    (o.result.Ok? && o.result.value.Forwarded? ==> last == [FAILED] && Refused(o, jobId, replies)) &&
    (o.result.Ok? && o.result.value.Deployed? ==>
       n == 4 && o.result.value.jobId == jobId &&
       StatusOf(replies.permissionsReply) == Ok(o.result.value.permissionsStatus) &&
       (last == [COMPLETED] <==> o.result.value.permissionsStatus == 200) &&
       Notes(ops) == OPENING + Advances(3) +
         (if o.result.value.permissionsStatus == 200 then [Recorded(PERMISSIONS_STEP, SUCCEEDED), SetTo(COMPLETED, None), Summarised]
          else [Recorded(PERMISSIONS_STEP, FAILED), SetTo(FAILED, None)]) &&
       (o.result.value.permissionsStatus == 200 ==> |ops| >= 1 && ops[|ops| - 1].SetResults? && ResultsFor(ops[|ops| - 1].results, o.result.value)))
  }

  lemma StartProgress(jobId: string, request: Request, replies: Replies)
    requires Start(jobId, request).flow.Next?
    ensures Progress(Start(jobId, request).actions, jobId, request, replies, 0)
  {
    StartShape(jobId, request);
    var sts := StatusesWritten(Writes(Start(jobId, request).actions));
    assert sts[1..] == [RUNNING];
  }

  lemma StartStop(jobId: string, request: Request, replies: Replies) returns (interim: seq<string>, last: seq<string>)
    requires Start(jobId, request).flow.Stop?
    ensures var s := Start(jobId, request);
      Shape(Outcome(s.actions, s.flow.result), jobId, request, replies, interim, last)
  {
    StartShape(jobId, request);
    interim, last := [], [];
    if request.config.Some? {
      interim := [RUNNING];
    }
  }

  /** Appending a stage's actions to the calls so far keeps them in order. */
  lemma ExtendCalls(acts: seq<Action>, b: seq<Action>, replies: Replies, k: nat)
    requires k <= 3 && |Calls(acts)| == k
    requires forall i :: 0 <= i < k ==> Calls(acts)[i].functionName == STEP_NAMES[i] && StatusOf(ReplyAt(replies, i)) == Ok(200)
    requires |Calls(b)| <= 1 && (Calls(b) != [] ==> Calls(b)[0].functionName == STEP_NAMES[k])
    ensures var calls := Calls(acts + b);
      calls == Calls(acts) + Calls(b) && |calls| == k + |Calls(b)| && |calls| <= 4 &&
      (forall i :: 0 <= i < |calls| ==> calls[i].functionName == STEP_NAMES[i]) &&
      (forall i :: 0 <= i < |calls| - 1 ==> StatusOf(ReplyAt(replies, i)) == Ok(200))
  {
    CallsAppend(acts, b);
    var calls := Calls(acts + b);
    forall i | 0 <= i < |calls|
      ensures calls[i].functionName == STEP_NAMES[i]
    {
      if i < k {
        assert calls[i] == Calls(acts)[i];
      } else {
        assert calls[i] == Calls(b)[0];
      }
    }
  }

  /** Appending a stage's actions to the writes so far keeps the opening
      writes and adds the stage's writes. */
  lemma ExtendWrites(acts: seq<Action>, b: seq<Action>, jobId: string, k: nat)
    requires k <= 3 && AllAbout(Writes(acts), jobId) && AllAbout(Writes(b), jobId)
    requires |Writes(acts)| >= 2 && |acts| >= 2 && acts[0] == Write(Writes(acts)[0]) && acts[1] == Write(Writes(acts)[1])
    requires Notes(Writes(acts)) == OPENING + Advances(k)
    ensures var all := acts + b;
      var ops := Writes(all);
      ops == Writes(acts) + Writes(b) && AllAbout(ops, jobId) &&
      |ops| >= 2 && |all| >= 2 && all[0] == Write(ops[0]) && all[1] == Write(ops[1]) &&
      ops[0] == Writes(acts)[0] && ops[1] == Writes(acts)[1] &&
      StatusesWritten(ops) == StatusesWritten(Writes(acts)) + StatusesWritten(Writes(b)) &&
      Notes(ops) == OPENING + Advances(k) + Notes(Writes(b))
  {
    WritesAppend(acts, b);
    StatusesWrittenAppend(Writes(acts), Writes(b));
    NotesAppend(Writes(acts), Writes(b));
  }

  /** A middle stage that goes on extends the progress by one step. */
  lemma StepOn<T>(acts: seq<Action>, s: Stage<T>, jobId: string, request: Request, replies: Replies, k: nat, recorded: bool)
    requires k < 3 && Progress(acts, jobId, request, replies, k)
    requires MiddleStage(s, jobId, ReplyAt(replies, k), STEP_NAMES[k], STEP_DEFAULTS[k], STEP_NAMES[k + 1], recorded)
    requires s.flow.Next?
    ensures Progress(acts + s.actions, jobId, request, replies, k + 1)
  {
    ExtendCalls(acts, s.actions, replies, k);
    ExtendWrites(acts, s.actions, jobId, k);
    StillRunning(StatusesWritten(Writes(acts)));
    AdvancesNext(k);
    var calls := Calls(acts + s.actions);
    assert calls[k] == Calls(s.actions)[0];
  }

  /** One more RUNNING keeps the statuses in the running phase. */
  lemma StillRunning(sts: seq<string>)
    requires |sts| >= 2 && sts[0] == PENDING && Interim(sts[1..])
    ensures var more := sts + [RUNNING];
      |more| >= 2 && more[0] == PENDING && Interim(more[1..])
  {
    assert (sts + [RUNNING])[1..] == sts[1..] + [RUNNING];
  }

  /** The writes of one more successful step. */
  lemma AdvancesNext(k: nat)
    requires k < 3
    ensures OPENING + Advances(k) + [Recorded(STEP_NAMES[k], SUCCEEDED), SetTo(RUNNING, Some(STEP_NAMES[k + 1]))] ==
      OPENING + Advances(k + 1)
  {
  }

  /** A middle stage that stops ends the body there. */
  lemma StopAt<T>(acts: seq<Action>, s: Stage<T>, jobId: string, request: Request, replies: Replies, k: nat, recorded: bool)
    returns (interim: seq<string>, last: seq<string>)
    requires k < 3 && Progress(acts, jobId, request, replies, k)
    requires MiddleStage(s, jobId, ReplyAt(replies, k), STEP_NAMES[k], STEP_DEFAULTS[k], STEP_NAMES[k + 1], recorded)
    requires s.flow.Stop?
    ensures Shape(Outcome(acts + s.actions, s.flow.result), jobId, request, replies, interim, last)
  {
    if s.flow.result.Ok? {
      interim, last := StopForwarded(acts, s, jobId, request, replies, k);
    } else {
      interim, last := StopFaulted(acts, s, jobId, request, replies, k);
    }
  }

  lemma StopForwarded<T>(acts: seq<Action>, s: Stage<T>, jobId: string, request: Request, replies: Replies, k: nat)
    returns (interim: seq<string>, last: seq<string>)
    requires k < 3 && Progress(acts, jobId, request, replies, k)
    requires |Calls(s.actions)| == 1 && Calls(s.actions)[0].functionName == STEP_NAMES[k]
    requires var reply := ReplyAt(replies, k);
      reply.Ok? && s.flow == Stop(Ok(Forwarded(reply.value))) && StatusOf(reply).Ok? && StatusOf(reply).value != 200 &&
      Writes(s.actions) == FailedOps(jobId, STEP_NAMES[k], reply.value, STEP_DEFAULTS[k])
    ensures Shape(Outcome(acts + s.actions, s.flow.result), jobId, request, replies, interim, last)
  {
    ExtendCalls(acts, s.actions, replies, k);
    var reply := ReplyAt(replies, k);
    ForwardedWrites(acts, s.actions, jobId, k, reply.value);
    var sts := StatusesWritten(Writes(acts));
    interim, last := sts[1..], [FAILED];
    SplitOpening(sts, [FAILED]);
    ForwardedShape(Outcome(acts + s.actions, s.flow.result), jobId, request, replies, interim, last);
  }

  /** The writes of a run whose `k`-th step answered with a status other
      than 200. */
  lemma ForwardedWrites(acts: seq<Action>, b: seq<Action>, jobId: string, k: nat, res: StepResult)
    requires k < 3 && AllAbout(Writes(acts), jobId)
    requires |Writes(acts)| >= 2 && |acts| >= 2 && acts[0] == Write(Writes(acts)[0]) && acts[1] == Write(Writes(acts)[1])
    requires Notes(Writes(acts)) == OPENING + Advances(k)
    requires Writes(b) == FailedOps(jobId, STEP_NAMES[k], res, STEP_DEFAULTS[k])
    ensures var all := acts + b;
      var ops := Writes(all);
      AllAbout(ops, jobId) &&
      |ops| >= 2 && |all| >= 2 && all[0] == Write(ops[0]) && all[1] == Write(ops[1]) &&
      ops[0] == Writes(acts)[0] && ops[1] == Writes(acts)[1] &&
      StatusesWritten(ops) == StatusesWritten(Writes(acts)) + [FAILED] &&
      ops[|ops| - 2..] == FailedOps(jobId, STEP_NAMES[k], res, STEP_DEFAULTS[k]) &&
      Notes(ops) == OPENING + Advances(k) + [Recorded(STEP_NAMES[k], FAILED), SetTo(FAILED, None)]
  {
    var failed := FailedOps(jobId, STEP_NAMES[k], res, STEP_DEFAULTS[k]);
    assert AllAbout(failed, jobId);
    ExtendWrites(acts, b, jobId, k);
    LastTwo(Writes(acts), failed);
    NotesOfFailed(jobId, STEP_NAMES[k], res, STEP_DEFAULTS[k]);
    StatusesOfTwo(failed[0], failed[1]);
  }

  /** The statuses after the creation's PENDING. */
  lemma SplitOpening(sts: seq<string>, more: seq<string>)
    requires |sts| >= 1 && sts[0] == PENDING
    ensures sts + more == [PENDING] + sts[1..] + more
  {
    assert sts == [PENDING] + sts[1..];
  }

  lemma LastTwo(a: seq<StoreOp>, b: seq<StoreOp>)
    requires |b| == 2
    ensures var ab := a + b; |ab| >= 2 && ab[|ab| - 2..] == b
  {
    var ab := a + b;
    assert ab[|ab| - 2..] == [ab[|ab| - 2], ab[|ab| - 1]];
  }

  lemma NotesOfFailed(jobId: string, step: string, res: StepResult, default: string)
    ensures Notes(FailedOps(jobId, step, res, default)) == [Recorded(step, FAILED), SetTo(FAILED, None)]
  {
  }

  /** The conditions under which an outcome ending in a forwarded answer has
      the shape of a body. */
  lemma ForwardedShape(o: Outcome, jobId: string, request: Request, replies: Replies, interim: seq<string>, last: seq<string>)
    requires var calls := Calls(o.actions);
      var ops := Writes(o.actions);
      var n := |calls|;
      1 <= n <= 3 && (forall i :: 0 <= i < n ==> calls[i].functionName == STEP_NAMES[i]) &&
      (forall i :: 0 <= i < n - 1 ==> StatusOf(ReplyAt(replies, i)) == Ok(200)) &&
      AllAbout(ops, jobId) && request.config.Some? &&
      |ops| >= 2 && |o.actions| >= 2 && o.actions[0] == Write(ops[0]) && o.actions[1] == Write(ops[1]) &&
      ops[0] == Create(jobId, request.config.value, request.initiatedBy.GetOr(DEFAULT_INITIATOR)) &&
      ops[1] == UpdateStatus(jobId, RUNNING, Some(EXPORT_STEP)) &&
      StatusesWritten(ops) == [PENDING] + interim + last && Interim(interim) && last == [FAILED] &&
      o.result.Ok? && o.result.value.Forwarded? &&
      ReplyAt(replies, n - 1) == Ok(o.result.value.result) &&
      StatusOf(ReplyAt(replies, n - 1)).Ok? && StatusOf(ReplyAt(replies, n - 1)).value != 200 &&
      ops[|ops| - 2..] == FailedOps(jobId, STEP_NAMES[n - 1], o.result.value.result, STEP_DEFAULTS[n - 1]) &&
      Notes(ops) == OPENING + Advances(n - 1) + [Recorded(STEP_NAMES[n - 1], FAILED), SetTo(FAILED, None)]
    ensures Shape(o, jobId, request, replies, interim, last)
  {
  }

  lemma StopFaulted<T>(acts: seq<Action>, s: Stage<T>, jobId: string, request: Request, replies: Replies, k: nat)
    returns (interim: seq<string>, last: seq<string>)
    requires k < 3 && Progress(acts, jobId, request, replies, k)
    requires |Calls(s.actions)| <= 1 && (Calls(s.actions) != [] ==> Calls(s.actions)[0].functionName == STEP_NAMES[k])
    requires AllAbout(Writes(s.actions), jobId) && Interim(StatusesWritten(Writes(s.actions)))
    requires s.flow.Stop? && s.flow.result.Err?
    ensures Shape(Outcome(acts + s.actions, s.flow.result), jobId, request, replies, interim, last)
  {
    ExtendCalls(acts, s.actions, replies, k);
    ExtendWrites(acts, s.actions, jobId, k);
    var sts := StatusesWritten(Writes(acts));
    var more := StatusesWritten(Writes(s.actions));
    interim, last := sts[1..] + more, [];
    SplitOpening(sts, more);
    InterimAppend(sts[1..], more);
    assert [PENDING] + sts[1..] + more == [PENDING] + interim + last;
  }

  lemma InterimAppend(a: seq<string>, b: seq<string>)
    requires Interim(a) && Interim(b)
    ensures Interim(a + b)
  {
  }

  /** The permissions stage ends the body. */
  lemma EndAt(acts: seq<Action>, s: Stage<Response>, up: Uploaded, jobId: string, request: Request, replies: Replies)
    returns (interim: seq<string>, last: seq<string>)
    requires Progress(acts, jobId, request, replies, 3)
    requires LastStage(s, jobId, replies.permissionsReply, up)
    ensures Shape(Outcome(acts + s.actions, s.flow.result), jobId, request, replies, interim, last)
  {
    ExtendCalls(acts, s.actions, replies, 3);
    ExtendWrites(acts, s.actions, jobId, 3);
    var sts := StatusesWritten(Writes(acts));
    interim, last := sts[1..], StatusesWritten(Writes(s.actions));
    SplitOpening(sts, last);
    var ops := Writes(acts + s.actions);
    if s.flow.result.Ok? && StatusOf(replies.permissionsReply).value != 200 {
      NotesOfFailed(jobId, PERMISSIONS_STEP, replies.permissionsReply.value, PERMISSIONS_FAILED);
    }
    if s.flow.result.Ok? && StatusOf(replies.permissionsReply).value == 200 {
      assert ops[|ops| - 1] == Writes(s.actions)[2];
    }
    EndShape(Outcome(acts + s.actions, s.flow.result), jobId, request, replies, interim, last);
  }

  /** The conditions under which an outcome that reached the permissions
      step has the shape of a body. */
  lemma EndShape(o: Outcome, jobId: string, request: Request, replies: Replies, interim: seq<string>, last: seq<string>)
    requires var calls := Calls(o.actions);
      var ops := Writes(o.actions);
      |calls| == 4 && (forall i :: 0 <= i < 4 ==> calls[i].functionName == STEP_NAMES[i]) &&
      (forall i :: 0 <= i < 3 ==> StatusOf(ReplyAt(replies, i)) == Ok(200)) &&
      AllAbout(ops, jobId) && request.config.Some? &&
      |ops| >= 2 && |o.actions| >= 2 && o.actions[0] == Write(ops[0]) && o.actions[1] == Write(ops[1]) &&
      ops[0] == Create(jobId, request.config.value, request.initiatedBy.GetOr(DEFAULT_INITIATOR)) &&
      ops[1] == UpdateStatus(jobId, RUNNING, Some(EXPORT_STEP)) &&
      StatusesWritten(ops) == [PENDING] + interim + last && Interim(interim) &&
      (last == [] || last == [FAILED] || last == [COMPLETED])
    requires var ops := Writes(o.actions);
      o.result.Ok? ==>
        last != [] && o.result.value.Deployed? && o.result.value.jobId == jobId &&
        StatusOf(replies.permissionsReply) == Ok(o.result.value.permissionsStatus) &&
        (last == [COMPLETED] <==> o.result.value.permissionsStatus == 200) &&
        Notes(ops) == OPENING + Advances(3) +
          (if o.result.value.permissionsStatus == 200 then [Recorded(PERMISSIONS_STEP, SUCCEEDED), SetTo(COMPLETED, None), Summarised]
           else [Recorded(PERMISSIONS_STEP, FAILED), SetTo(FAILED, None)]) &&
        (o.result.value.permissionsStatus == 200 ==> ops[|ops| - 1].SetResults? && ResultsFor(ops[|ops| - 1].results, o.result.value))
    ensures Shape(o, jobId, request, replies, interim, last)
  {
  }

  /** The body of a run, for every input, has the shape described above. */
  lemma BodyShape(jobId: string, request: Request, replies: Replies, parse: Parser)
    returns (interim: seq<string>, last: seq<string>)
    ensures Shape(Body(jobId, request, replies, parse), jobId, request, replies, interim, last)
  {
    var s1 := Start(jobId, request);
    if s1.flow.Stop? {
      interim, last := StartStop(jobId, request, replies);
    } else {
      StartProgress(jobId, request, replies);
      interim, last := FromExport(jobId, request, replies, parse, s1.flow.value, s1.actions);
    }
  }

  lemma FromExport(jobId: string, request: Request, replies: Replies, parse: Parser, c: Config, done: seq<Action>)
    returns (interim: seq<string>, last: seq<string>)
    requires Progress(done, jobId, request, replies, 0)
    ensures Shape(AfterStart(jobId, c, done, replies, parse), jobId, request, replies, interim, last)
  {
    var s2 := ExportStage(jobId, c, replies.exportReply, parse);
    ExportShape(jobId, c, replies.exportReply, parse);
    if s2.flow.Stop? {
      interim, last := StopAt(done, s2, jobId, request, replies, 0, false);
    } else {
      StepOn(done, s2, jobId, request, replies, 0, false);
      interim, last := FromUpload(jobId, request, replies, parse, c, s2.flow.value, done + s2.actions);
    }
  }

  lemma FromUpload(jobId: string, request: Request, replies: Replies, parse: Parser, c: Config, exportData: map<string, string>,
                   done: seq<Action>)
    returns (interim: seq<string>, last: seq<string>)
    requires Progress(done, jobId, request, replies, 1)
    ensures Shape(AfterExport(jobId, c, exportData, done, replies, parse), jobId, request, replies, interim, last)
  {
    var s3 := UploadStage(jobId, c, exportData, replies.uploadReply, parse);
    UploadShape(jobId, c, exportData, replies.uploadReply, parse);
    if s3.flow.Stop? {
      interim, last := StopAt(done, s3, jobId, request, replies, 1, true);
    } else {
      StepOn(done, s3, jobId, request, replies, 1, true);
      interim, last := FromImport(jobId, request, replies, parse, c, s3.flow.value, done + s3.actions);
    }
  }

  lemma FromImport(jobId: string, request: Request, replies: Replies, parse: Parser, c: Config, up: Uploaded, done: seq<Action>)
    returns (interim: seq<string>, last: seq<string>)
    requires Progress(done, jobId, request, replies, 2)
    ensures Shape(AfterUpload(jobId, c, up, done, replies, parse), jobId, request, replies, interim, last)
  {
    var s4 := ImportStage(jobId, c, up.s3Uri, replies.importReply);
    ImportShape(jobId, c, up.s3Uri, replies.importReply);
    if s4.flow.Stop? {
      interim, last := StopAt(done, s4, jobId, request, replies, 2, false);
    } else {
      StepOn(done, s4, jobId, request, replies, 2, false);
      interim, last := FromPermissions(jobId, request, replies, parse, c, up, s4.flow.value, done + s4.actions);
    }
  }

  lemma FromPermissions(jobId: string, request: Request, replies: Replies, parse: Parser, c: Config, up: Uploaded,
                        importResult: StepResult, done: seq<Action>)
    returns (interim: seq<string>, last: seq<string>)
    requires Progress(done, jobId, request, replies, 3)
    ensures Shape(AfterImport(jobId, c, up, importResult, done, replies, parse), jobId, request, replies, interim, last)
  {
    var s5 := PermissionsStage(jobId, c, up, importResult, replies.permissionsReply, parse);
    PermissionsShape(jobId, c, up, importResult, replies.permissionsReply, parse);
    interim, last := EndAt(done, s5, up, jobId, request, replies);
  }

  /** How a run relates to its body: the same calls, the same writes plus
      the FAILED written by the exception handler, and the body's result or
      the error. */
  lemma RunOf(setupFault: Option<Fault>, started: DateTime, uuid: string, request: Request, replies: Replies, parse: Parser)
    requires ValidDateTime(started) && setupFault.None?
    ensures var jobId := JobId(started, uuid);
      var o := Body(jobId, request, replies, parse);
      var run := Orchestrate(setupFault, started, uuid, request, replies, parse);
      Calls(run.actions) == Calls(o.actions) &&
      Writes(run.actions) == Writes(o.actions) + (if o.result.Err? then [UpdateStatus(jobId, FAILED, None)] else []) &&
      run.response == (if o.result.Ok? then o.result.value else Crashed(o.result.error, jobId))
  {
    var jobId := JobId(started, uuid);
    var o := Body(jobId, request, replies, parse);
    if o.result.Err? {
      AfterWrite(map[], o.actions, UpdateStatus(jobId, FAILED, None), "");
    }
  }

  /** Before any step is invoked, the job is created (PENDING) and set
      RUNNING at the export step. */
  lemma OpensTheJob(setupFault: Option<Fault>, started: DateTime, uuid: string, request: Request, replies: Replies, parse: Parser)
    requires ValidDateTime(started) && setupFault.None? && request.config.Some?
    ensures var jobId := JobId(started, uuid);
      var run := Orchestrate(setupFault, started, uuid, request, replies, parse);
      |run.actions| >= 2 &&
      run.actions[0] == Write(Create(jobId, request.config.value, request.initiatedBy.GetOr(DEFAULT_INITIATOR))) &&
      run.actions[1] == Write(UpdateStatus(jobId, RUNNING, Some(EXPORT_STEP)))
  {
    var jobId := JobId(started, uuid);
    var _, _ := BodyShape(jobId, request, replies, parse);
  }

  /** Steps are invoked at most once each, in the order export, upload,
      import, permissions, and a step only once every earlier step answered
      200. */
  lemma StepsInOrder(setupFault: Option<Fault>, started: DateTime, uuid: string, request: Request, replies: Replies, parse: Parser)
    requires ValidDateTime(started)
    ensures var calls := Calls(Orchestrate(setupFault, started, uuid, request, replies, parse).actions);
      |calls| <= 4 &&
      (forall i :: 0 <= i < |calls| ==> calls[i].functionName == STEP_NAMES[i]) &&
      (forall i :: 0 <= i < |calls| - 1 ==> StatusOf(ReplyAt(replies, i)) == Ok(200))
  {
    if setupFault.None? {
      var _, _ := BodyShape(JobId(started, uuid), request, replies, parse);
      RunOf(setupFault, started, uuid, request, replies, parse);
    }
  }

  /** A request without `config` fails before the job is created: the only
      write is the handler's FAILED, and no step is invoked. */
  lemma MissingConfig(setupFault: Option<Fault>, started: DateTime, uuid: string, request: Request, replies: Replies, parse: Parser)
    requires ValidDateTime(started) && setupFault.None? && request.config.None?
    ensures var jobId := JobId(started, uuid);
      Orchestrate(setupFault, started, uuid, request, replies, parse) ==
        Run([Write(UpdateStatus(jobId, FAILED, None))], Crashed(MissingKey("config"), jobId))
  {
    var _, _ := BodyShape(JobId(started, uuid), request, replies, parse);
  }

  /** A run that forwards a step's answer stopped at export, upload or
      import, whose answer was not 200; that step alone is recorded FAILED,
      with its body (or the default text) as the error, every earlier step
      SUCCEEDED, and the job FAILED. */
  lemma StopsAtFirstRefusal(setupFault: Option<Fault>, started: DateTime, uuid: string, request: Request, replies: Replies, parse: Parser)
    requires ValidDateTime(started)
    ensures var run := Orchestrate(setupFault, started, uuid, request, replies, parse);
      var n := |Calls(run.actions)|;
      var ops := Writes(run.actions);
      run.response.Forwarded? ==>
        1 <= n <= 3 && ReplyAt(replies, n - 1) == Ok(run.response.result) &&
        StatusOf(ReplyAt(replies, n - 1)).Ok? && StatusOf(ReplyAt(replies, n - 1)).value != 200 &&
        |ops| >= 2 && ops[|ops| - 2..] == FailedOps(JobId(started, uuid), STEP_NAMES[n - 1], run.response.result, STEP_DEFAULTS[n - 1]) &&
        Notes(ops) == OPENING + Advances(n - 1) + [Recorded(STEP_NAMES[n - 1], FAILED), SetTo(FAILED, None)]
  {
    if setupFault.None? {
      var jobId := JobId(started, uuid);
      var o := Body(jobId, request, replies, parse);
      var run := Orchestrate(setupFault, started, uuid, request, replies, parse);
      RunOf(setupFault, started, uuid, request, replies, parse);
      if run.response.Forwarded? {
        assert o.result.Ok? && run.response == o.result.value;
        BodyForwarded(jobId, request, replies, parse);
        assert Refused(o, jobId, replies);
        assert Writes(run.actions) == Writes(o.actions) + [];
        assert Writes(o.actions) + [] == Writes(o.actions);
      }
    }
  }

  /** A run that reaches the permissions step answers with a summary whatever
      that step answered: all four steps ran, the summary carries the
      permissions code, and the job is COMPLETED with its results exactly
      when that code is 200, FAILED without results otherwise. */
  lemma PermissionsSummary(setupFault: Option<Fault>, started: DateTime, uuid: string, request: Request, replies: Replies, parse: Parser)
    requires ValidDateTime(started)
    ensures var run := Orchestrate(setupFault, started, uuid, request, replies, parse);
      var ops := Writes(run.actions);
      run.response.Deployed? ==>
        ResponseCode(run.response) == Some(200) && |Calls(run.actions)| == 4 &&
        run.response.jobId == JobId(started, uuid) &&
        StatusOf(replies.permissionsReply) == Ok(run.response.permissionsStatus) &&
        Notes(ops) == OPENING + Advances(3) +
          (if run.response.permissionsStatus == 200 then [Recorded(PERMISSIONS_STEP, SUCCEEDED), SetTo(COMPLETED, None), Summarised]
           else [Recorded(PERMISSIONS_STEP, FAILED), SetTo(FAILED, None)]) &&
        (run.response.permissionsStatus == 200 ==> |ops| >= 1 && ops[|ops| - 1].SetResults? && ResultsFor(ops[|ops| - 1].results, run.response))
  {
    if setupFault.None? {
      BodyDeployed(JobId(started, uuid), request, replies, parse);
      RunOf(setupFault, started, uuid, request, replies, parse);
    }
  }

  /** A crash before the job id exists reports `unknown` and does nothing;
      any later crash reports the job id and ends with a FAILED write. */
  lemma Crashes(setupFault: Option<Fault>, started: DateTime, uuid: string, request: Request, replies: Replies, parse: Parser)
    requires ValidDateTime(started)
    ensures var run := Orchestrate(setupFault, started, uuid, request, replies, parse);
      var ops := Writes(run.actions);
      run.response.Crashed? ==>
        ResponseCode(run.response) == Some(500) &&
        (setupFault.Some? ==> run.actions == [] && run.response.jobId == UNKNOWN_JOB) &&
        (setupFault.None? ==>
           run.response.jobId == JobId(started, uuid) && |ops| >= 1 && ops[|ops| - 1] == UpdateStatus(JobId(started, uuid), FAILED, None))
  {
    if setupFault.None? {
      var jobId := JobId(started, uuid);
      var o := Body(jobId, request, replies, parse);
      var interim, last := BodyShape(jobId, request, replies, parse);
      RunOf(setupFault, started, uuid, request, replies, parse);
      var run := Orchestrate(setupFault, started, uuid, request, replies, parse);
      if o.result.Err? {
        var ops := Writes(run.actions);
        assert ops == Writes(o.actions) + [UpdateStatus(jobId, FAILED, None)];
        assert ops[|ops| - 1] == UpdateStatus(jobId, FAILED, None);
      } else {
        assert run.response == o.result.value;
        assert !run.response.Crashed?;
      }
    }
  }

  /** The statuses the body writes, and how its result relates to the last. */
  lemma BodyStatuses(jobId: string, request: Request, replies: Replies, parse: Parser)
    returns (interim: seq<string>, last: seq<string>)
    requires request.config.Some?
    ensures var o := Body(jobId, request, replies, parse);
      StatusesWritten(Writes(o.actions)) == [PENDING] + interim + last && Interim(interim) &&
      (last == [] || last == [FAILED] || last == [COMPLETED]) &&
      (o.result.Ok? ==> last != [] && (o.result.value.Forwarded? || o.result.value.Deployed?)) &&
      (o.result.Ok? ==> (last == [COMPLETED] <==> o.result.value.Deployed? && o.result.value.permissionsStatus == 200))
  {
    interim, last := BodyShape(jobId, request, replies, parse);
  }

  /** The body writes only about its own job, and nothing at all without a
      configuration. */
  lemma BodyAbout(jobId: string, request: Request, replies: Replies, parse: Parser)
    ensures var o := Body(jobId, request, replies, parse);
      AllAbout(Writes(o.actions), jobId) &&
      (request.config.None? ==> o == Outcome([], Err(MissingKey("config"))))
  {
    var _, _ := BodyShape(jobId, request, replies, parse);
  }

  /** The body's calls and writes when it forwards a step's refusal. */
  lemma BodyForwarded(jobId: string, request: Request, replies: Replies, parse: Parser)
    ensures var o := Body(jobId, request, replies, parse);
      o.result.Ok? && o.result.value.Forwarded? ==> Refused(o, jobId, replies)
  {
    var _, _ := BodyShape(jobId, request, replies, parse);
  }

  /** The body's calls and writes when it answers with a summary. */
  lemma BodyDeployed(jobId: string, request: Request, replies: Replies, parse: Parser)
    ensures var o := Body(jobId, request, replies, parse);
      var ops := Writes(o.actions);
      o.result.Ok? && o.result.value.Deployed? ==>
        |Calls(o.actions)| == 4 && o.result.value.jobId == jobId &&
        StatusOf(replies.permissionsReply) == Ok(o.result.value.permissionsStatus) &&
        Notes(ops) == OPENING + Advances(3) +
          (if o.result.value.permissionsStatus == 200 then [Recorded(PERMISSIONS_STEP, SUCCEEDED), SetTo(COMPLETED, None), Summarised]
           else [Recorded(PERMISSIONS_STEP, FAILED), SetTo(FAILED, None)]) &&
        (o.result.value.permissionsStatus == 200 ==> |ops| >= 1 && ops[|ops| - 1].SetResults? && ResultsFor(ops[|ops| - 1].results, o.result.value))
  {
    var _, _ := BodyShape(jobId, request, replies, parse);
  }

  /** The statuses a run writes once the job exists: PENDING, then only
      RUNNING, then a terminal status, after which only the handler's FAILED
      can follow (a crash after COMPLETED turns the job FAILED). */
  lemma StatusTrace(setupFault: Option<Fault>, started: DateTime, uuid: string, request: Request, replies: Replies, parse: Parser)
    returns (interim: seq<string>, tail: seq<string>)
    requires ValidDateTime(started) && setupFault.None? && request.config.Some?
    ensures var run := Orchestrate(setupFault, started, uuid, request, replies, parse);
      StatusesWritten(Writes(run.actions)) == [PENDING] + interim + tail && Interim(interim) &&
      (tail == [FAILED] || tail == [COMPLETED] || tail == [COMPLETED, FAILED] || tail == [FAILED, FAILED]) &&
      (|tail| == 2 ==> run.response.Crashed?) &&
      (tail == [COMPLETED] <==> run.response.Deployed? && run.response.permissionsStatus == 200)
  {
    var jobId := JobId(started, uuid);
    var o := Body(jobId, request, replies, parse);
    var last;
    interim, last := BodyStatuses(jobId, request, replies, parse);
    RunOf(setupFault, started, uuid, request, replies, parse);
    if o.result.Err? {
      StatusesWrittenAppend(Writes(o.actions), [UpdateStatus(jobId, FAILED, None)]);
      if last == [] {
        tail := [FAILED];
      } else {
        tail := last + [FAILED];
      }
      assert StatusesWritten([UpdateStatus(jobId, FAILED, None)]) == [FAILED];
      assert [PENDING] + interim + last + [FAILED] == [PENDING] + interim + tail;
    } else {
      tail := last;
    }
  }

  /** Every run that got a job id leaves that job's record in a terminal
      status: COMPLETED exactly when the run answered with a summary whose
      permissions code is 200, FAILED otherwise. */
  lemma EndsTerminal(jobs: map<string, Job>, now: string, setupFault: Option<Fault>, started: DateTime, uuid: string,
                     request: Request, replies: Replies, parse: Parser)
    requires ValidDateTime(started) && setupFault.None?
    ensures var run := Orchestrate(setupFault, started, uuid, request, replies, parse);
      Record(ApplyAll(jobs, Writes(run.actions), now), JobId(started, uuid)).status ==
        Some(if run.response.Deployed? && run.response.permissionsStatus == 200 then COMPLETED else FAILED)
  {
    var jobId := JobId(started, uuid);
    var run := Orchestrate(setupFault, started, uuid, request, replies, parse);
    var ops := Writes(run.actions);
    var o := Body(jobId, request, replies, parse);
    BodyAbout(jobId, request, replies, parse);
    RunOf(setupFault, started, uuid, request, replies, parse);
    assert AllAbout(ops, jobId);
    RecordAfter(jobs, ops, now, jobId);
    StatusIsLastWritten(Record(jobs, jobId), ops, now);
    var sts := StatusesWritten(ops);
    if request.config.None? {
      assert ops == [UpdateStatus(jobId, FAILED, None)];
      assert sts == [FAILED];
    } else {
      var interim, tail := StatusTrace(setupFault, started, uuid, request, replies, parse);
      assert sts[|sts| - 1] == tail[|tail| - 1];
    }
  }
}
