/** The job status store: `JobStatusManager` over the `biops-job-runs`
    table, modelled as an in-memory map from job id to job record.

    DynamoDB's `update_item` creates the item when the key is absent, so an
    update of an unknown id leaves a sparse record holding only the key and
    the attributes it set; every attribute but `jobId` and `updatedAt` is
    therefore optional in a record. */
module JobStore {
  import opened Wrappers

  /** The deployment configuration, stored verbatim as the record's payload. */
  type Payload = map<string, string>

  /** The final results map; `None` stands for a JSON null. */
  type Results = map<string, Option<string>>

  const DEFAULT_TABLE: string := "biops-job-runs"
  const DEFAULT_LIST_LIMIT: int := 50

  const PENDING: string := "PENDING"
  const RUNNING: string := "RUNNING"
  const COMPLETED: string := "COMPLETED"
  const FAILED: string := "FAILED"
  const SUCCEEDED: string := "SUCCEEDED"

  /** One entry of a record's `steps` list. */
  datatype Step = Step(name: string, status: string, startedAt: string, endedAt: string,
                       outputS3Key: Option<string>, errorMessage: Option<string>)

  /** The `step` dict that `add_step_result` builds before merging it. */
  datatype StepUpdate = StepUpdate(name: string, status: string, endedAt: string,
                                   outputS3Key: Option<string>, errorMessage: Option<string>)

  datatype Job = Job(
    jobId: string,
    status: Option<string>,
    createdAt: Option<string>,
    updatedAt: string,
    initiatedBy: Option<string>,
    payload: Option<Payload>,
    currentStep: Option<string>,
    steps: Option<seq<Step>>,
    retryCount: Option<nat>,
    results: Option<Results>)

  /** Python's truthiness test on an optional string argument (`if x:`). */
  function Truthy(o: Option<string>): (r: Option<string>)
    ensures r.Some? <==> o.Some? && o.value != ""
    ensures r.Some? ==> r == o
  {
    if o.Some? && o.value != "" then o else None
  }

  function StepDict(name: string, status: string, now: string,
                    outputS3Key: Option<string>, errorMessage: Option<string>): StepUpdate
  {
    StepUpdate(name, status, now, Truthy(outputS3Key), Truthy(errorMessage))
  }

  /** `existing.update(step)`: keys of the update overwrite, keys it lacks survive. */
  function Merge(existing: Step, u: StepUpdate): Step {
    existing.(name := u.name, status := u.status, endedAt := u.endedAt,
              outputS3Key := if u.outputS3Key.Some? then u.outputS3Key else existing.outputS3Key,
              errorMessage := if u.errorMessage.Some? then u.errorMessage else existing.errorMessage)
  }

  /** A new entry: `step['startedAt'] = step['endedAt']`. */
  function Opened(u: StepUpdate): Step {
    Step(u.name, u.status, u.endedAt, u.endedAt, u.outputS3Key, u.errorMessage)
  }

  /** The index of the first step with the given name. */
  function FindStep(steps: seq<Step>, name: string): (r: Option<nat>)
    ensures r.Some? ==> r.value < |steps| && steps[r.value].name == name
    ensures r.Some? ==> forall j :: 0 <= j < r.value ==> steps[j].name != name
    ensures r.None? ==> forall j :: 0 <= j < |steps| ==> steps[j].name != name
  {
    if steps == [] then None
    else if steps[0].name == name then Some(0)
    else match FindStep(steps[1..], name)
      case None => None
      case Some(k) => Some(k + 1)
  }

  /** Find the first step with the update's name and merge into it, else append. */
  function Upsert(steps: seq<Step>, u: StepUpdate): seq<Step> {
    match FindStep(steps, u.name)
    case Some(i) => steps[i := Merge(steps[i], u)]
    case None => steps + [Opened(u)]
  }

  ghost predicate DistinctNames(steps: seq<Step>) {
    forall i, j :: 0 <= i < j < |steps| ==> steps[i].name != steps[j].name
  }

  function NameSet(steps: seq<Step>): set<string> {
    set k | 0 <= k < |steps| :: steps[k].name
  }

  /** Upserting keeps names distinct, adds the update's name, and grows the list
      by one exactly when the name was new. */
  lemma UpsertKeepsNamesDistinct(steps: seq<Step>, u: StepUpdate)
    requires DistinctNames(steps)
    ensures DistinctNames(Upsert(steps, u))
    ensures NameSet(Upsert(steps, u)) == NameSet(steps) + {u.name}
    ensures |Upsert(steps, u)| == if u.name in NameSet(steps) then |steps| else |steps| + 1
  {
    var r := Upsert(steps, u);
    match FindStep(steps, u.name)
    case Some(i) =>
      assert r == steps[i := Merge(steps[i], u)];
      forall x | x in NameSet(r) ensures x in NameSet(steps) + {u.name} {
        var k :| 0 <= k < |r| && r[k].name == x;
      }
      forall x | x in NameSet(steps) + {u.name} ensures x in NameSet(r) {
        if x == u.name {
          assert r[i].name == x;
        } else {
          var k :| 0 <= k < |steps| && steps[k].name == x;
          assert r[k].name == x;
        }
      }
      assert u.name in NameSet(steps) by { assert steps[i].name == u.name; }
    case None =>
      assert r == steps + [Opened(u)];
      assert u.name !in NameSet(steps);
      forall x | x in NameSet(r) ensures x in NameSet(steps) + {u.name} {
        var k :| 0 <= k < |r| && r[k].name == x;
        if k < |steps| { assert r[k] == steps[k]; }
      }
      forall x | x in NameSet(steps) + {u.name} ensures x in NameSet(r) {
        if x == u.name {
          assert r[|steps|].name == x;
        } else {
          var k :| 0 <= k < |steps| && steps[k].name == x;
          assert r[k].name == x;
        }
      }
  }

  /** A name already present: the first entry with it is merged in place,
      keeping its position and `startedAt`; no other entry changes. */
  lemma UpsertExisting(steps: seq<Step>, u: StepUpdate, i: nat)
    requires i < |steps| && steps[i].name == u.name
    requires forall j :: 0 <= j < i ==> steps[j].name != u.name
    ensures |Upsert(steps, u)| == |steps|
    ensures Upsert(steps, u)[i].startedAt == steps[i].startedAt
    ensures Upsert(steps, u)[i].status == u.status && Upsert(steps, u)[i].endedAt == u.endedAt
    ensures forall j :: 0 <= j < |steps| && j != i ==> Upsert(steps, u)[j] == steps[j]
  {
    var r := FindStep(steps, u.name);
    assert r.Some? && r.value == i;
  }

  /** A new name: exactly one entry is appended, with startedAt = endedAt. */
  lemma UpsertNew(steps: seq<Step>, u: StepUpdate)
    requires forall j :: 0 <= j < |steps| ==> steps[j].name != u.name
    ensures Upsert(steps, u) == steps + [Step(u.name, u.status, u.endedAt, u.endedAt, u.outputS3Key, u.errorMessage)]
  {
    assert FindStep(steps, u.name).None?;
  }

  /** A re-recorded step that omits a field keeps the value an earlier call wrote,
      for instance an old error message on a step now recorded SUCCEEDED. */
  lemma StaleFieldSurvives(steps: seq<Step>, i: nat, now: string)
    requires DistinctNames(steps)
    requires i < |steps| && steps[i].errorMessage.Some?
    ensures var r := Upsert(steps, StepDict(steps[i].name, SUCCEEDED, now, None, None));
      |r| == |steps| && r[i].status == SUCCEEDED && r[i].errorMessage == steps[i].errorMessage
  {
    var u := StepDict(steps[i].name, SUCCEEDED, now, None, None);
    UpsertExisting(steps, u, i);
  }

  /** Recording the same step name twice leaves one entry for it, carrying the
      second call's status and time, and each optional field from the latest
      call that supplied it. */
  lemma UpsertTwice(steps: seq<Step>, u1: StepUpdate, u2: StepUpdate)
    requires DistinctNames(steps) && u1.name == u2.name
    ensures var r := Upsert(Upsert(steps, u1), u2);
      DistinctNames(r) && |r| == |Upsert(steps, u1)| &&
      exists i :: 0 <= i < |r| && r[i].name == u2.name && r[i].status == u2.status && r[i].endedAt == u2.endedAt
        && r[i].errorMessage == (if u2.errorMessage.Some? then u2.errorMessage else Upsert(steps, u1)[i].errorMessage)
        && r[i].outputS3Key == (if u2.outputS3Key.Some? then u2.outputS3Key else Upsert(steps, u1)[i].outputS3Key)
  {
    var s1 := Upsert(steps, u1);
    UpsertKeepsNamesDistinct(steps, u1);
    UpsertKeepsNamesDistinct(s1, u2);
    assert u2.name in NameSet(s1);
    var i :| 0 <= i < |s1| && s1[i].name == u2.name;
    var f := FindStep(s1, u2.name);
    assert f.Some? && f.value == i;
    UpsertExisting(s1, u2, i);
  }

  /** The item `update_item` starts from when the key is absent. */
  function Blank(jobId: string): Job {
    Job(jobId, None, None, "", None, None, None, None, None, None)
  }

  function Record(jobs: map<string, Job>, jobId: string): Job {
    if jobId in jobs then jobs[jobId] else Blank(jobId)
  }

  /** One call on the store, with the arguments the source passes. */
  datatype StoreOp =
    | Create(jobId: string, payload: Payload, initiatedBy: string)
    | UpdateStatus(jobId: string, status: string, currentStep: Option<string>)
    | AddStep(jobId: string, name: string, status: string, outputS3Key: Option<string>, errorMessage: Option<string>)
    | SetResults(jobId: string, results: Results)

  function Created(jobId: string, payload: Payload, initiatedBy: string, now: string): Job {
    Job(jobId, Some(PENDING), Some(now), now, Some(initiatedBy), Some(payload), Some(""), Some([]), Some(0), None)
  }

  /** What one call does to the record it names, given that record (or the
      blank item when there is none). */
  function Effect(j: Job, op: StoreOp, now: string): Job {
    match op
    case Create(id, payload, initiator) => Created(id, payload, initiator, now)
    case UpdateStatus(_, status, step) =>
      j.(status := Some(status), updatedAt := now,
         currentStep := if Truthy(step).Some? then step else j.currentStep)
    case AddStep(_, name, status, out, err) =>
      j.(steps := Some(Upsert(j.steps.GetOr([]), StepDict(name, status, now, out, err))), updatedAt := now)
    case SetResults(_, results) =>
      j.(results := Some(results), updatedAt := now)
  }

  /** The effect of one call on the table: only the record it names changes. */
  function ApplyOp(jobs: map<string, Job>, op: StoreOp, now: string): map<string, Job> {
    jobs[op.jobId := Effect(Record(jobs, op.jobId), op, now)]
  }

  function ApplyAll(jobs: map<string, Job>, ops: seq<StoreOp>, now: string): map<string, Job>
    decreases |ops|
  {
    if ops == [] then jobs else ApplyAll(ApplyOp(jobs, ops[0], now), ops[1..], now)
  }

  /** The effect of a run of calls on one record. */
  function EffectAll(j: Job, ops: seq<StoreOp>, now: string): Job
    decreases |ops|
  {
    if ops == [] then j else EffectAll(Effect(j, ops[0], now), ops[1..], now)
  }

  lemma {:induction false} EffectAllAppend(j: Job, a: seq<StoreOp>, b: seq<StoreOp>, now: string)
    ensures EffectAll(j, a + b, now) == EffectAll(EffectAll(j, a, now), b, now)
    decreases |a|
  {
    if a != [] {
      assert (a + b)[1..] == a[1..] + b;
      EffectAllAppend(Effect(j, a[0], now), a[1..], b, now);
    } else {
      assert a + b == b;
    }
  }

  /** Calls that all name one job leave that job's record as their effects
      on it, in order, compute it. */
  lemma {:induction false} RecordAfter(jobs: map<string, Job>, ops: seq<StoreOp>, now: string, id: string)
    requires forall k :: 0 <= k < |ops| ==> ops[k].jobId == id
    ensures Record(ApplyAll(jobs, ops, now), id) == EffectAll(Record(jobs, id), ops, now)
    decreases |ops|
  {
    if ops != [] {
      assert ops[0].jobId == id;
      RecordAfter(ApplyOp(jobs, ops[0], now), ops[1..], now, id);
    }
  }

  /** The statuses a run of calls writes, in order (`create_job` writes PENDING). */
  function StatusesWritten(ops: seq<StoreOp>): seq<string>
    decreases |ops|
  {
    if ops == [] then []
    else
      (match ops[0]
       case Create(_, _, _) => [PENDING]
       case UpdateStatus(_, status, _) => [status]
       case _ => []) + StatusesWritten(ops[1..])
  }

  lemma {:induction false} StatusesWrittenAppend(a: seq<StoreOp>, b: seq<StoreOp>)
    ensures StatusesWritten(a + b) == StatusesWritten(a) + StatusesWritten(b)
    decreases |a|
  {
    if a == [] {
      assert a + b == b;
    } else {
      assert (a + b)[0] == a[0];
      assert (a + b)[1..] == a[1..] + b;
      StatusesWrittenAppend(a[1..], b);
    }
  }

  /** A record's status after a run of calls is the last status they wrote,
      or its old status when they wrote none. */
  lemma {:induction false} StatusIsLastWritten(j: Job, ops: seq<StoreOp>, now: string)
    ensures var sts := StatusesWritten(ops);
      EffectAll(j, ops, now).status == if sts == [] then j.status else Some(sts[|sts| - 1])
    decreases |ops|
  {
    if ops != [] {
      StatusIsLastWritten(Effect(j, ops[0], now), ops[1..], now);
    }
  }

  /** The store's invariant: records are keyed by their own id and no record
      lists two steps with one name. */
  ghost predicate WellFormed(jobs: map<string, Job>) {
    forall id :: id in jobs ==> jobs[id].jobId == id && (jobs[id].steps.Some? ==> DistinctNames(jobs[id].steps.value))
  }

  lemma ApplyOpWellFormed(jobs: map<string, Job>, op: StoreOp, now: string)
    requires WellFormed(jobs)
    ensures WellFormed(ApplyOp(jobs, op, now))
  {
    match op
    case AddStep(id, name, status, out, err) =>
      var j := Record(jobs, id);
      assert DistinctNames(j.steps.GetOr([]));
      UpsertKeepsNamesDistinct(j.steps.GetOr([]), StepDict(name, status, now, out, err));
    case _ =>
  }

  lemma {:induction false} ApplyAllWellFormed(jobs: map<string, Job>, ops: seq<StoreOp>, now: string)
    requires WellFormed(jobs)
    ensures WellFormed(ApplyAll(jobs, ops, now))
    decreases |ops|
  {
    if ops != [] {
      ApplyOpWellFormed(jobs, ops[0], now);
      ApplyAllWellFormed(ApplyOp(jobs, ops[0], now), ops[1..], now);
    }
  }

  lemma {:induction false} ApplyAllAppend(jobs: map<string, Job>, a: seq<StoreOp>, b: seq<StoreOp>, now: string)
    ensures ApplyAll(jobs, a + b, now) == ApplyAll(ApplyAll(jobs, a, now), b, now)
    decreases |a|
  {
    if a != [] {
      assert (a + b)[1..] == a[1..] + b;
      ApplyAllAppend(ApplyOp(jobs, a[0], now), a[1..], b, now);
    } else {
      assert a + b == b;
    }
  }

  /** Every call in `ops` is about `id` and none re-creates it. */
  ghost predicate About(ops: seq<StoreOp>, id: string) {
    forall k :: 0 <= k < |ops| ==> ops[k].jobId == id && !ops[k].Create?
  }

  /** The status left by a run of calls: the last one written, else `status`. */
  function StatusAfter(ops: seq<StoreOp>, status: Option<string>): Option<string>
    decreases |ops|
  {
    if ops == [] then status
    else StatusAfter(ops[1..], if ops[0].UpdateStatus? then Some(ops[0].status) else status)
  }

  /** The current step left by a run of calls: the last non-empty one written. */
  function CurrentStepAfter(ops: seq<StoreOp>, step: Option<string>): Option<string>
    decreases |ops|
  {
    if ops == [] then step
    else CurrentStepAfter(ops[1..], if ops[0].UpdateStatus? && Truthy(ops[0].currentStep).Some? then ops[0].currentStep else step)
  }

  /** The step names recorded by a run of calls, added to `names`. */
  function NamesAfter(ops: seq<StoreOp>, names: set<string>): set<string>
    decreases |ops|
  {
    if ops == [] then names
    else NamesAfter(ops[1..], if ops[0].AddStep? then names + {ops[0].name} else names)
  }

  /** A list of steps with distinct names has one entry per name. */
  lemma {:induction false} DistinctNamesCount(steps: seq<Step>)
    requires DistinctNames(steps)
    ensures |NameSet(steps)| == |steps|
  {
    if steps != [] {
      var init := steps[..|steps| - 1];
      var last := steps[|steps| - 1];
      assert DistinctNames(init);
      DistinctNamesCount(init);
      assert NameSet(steps) == NameSet(init) + {last.name} by {
        forall x | x in NameSet(steps) ensures x in NameSet(init) + {last.name} {
          var k :| 0 <= k < |steps| && steps[k].name == x;
          if k < |steps| - 1 { assert init[k] == steps[k]; }
        }
        forall x | x in NameSet(init) ensures x in NameSet(steps) {
          var k :| 0 <= k < |init| && init[k].name == x;
          assert steps[k] == init[k];
        }
      }
      assert last.name !in NameSet(init) by {
        forall k | 0 <= k < |init| ensures init[k].name != last.name {
          assert init[k] == steps[k];
        }
      }
    }
  }

  /** Replaying calls about one job: its status is the last written, its
      current step the last non-empty one written, its steps carry exactly the
      names recorded, each once, and no other record changes. */
  lemma {:induction false} Replay(jobs: map<string, Job>, ops: seq<StoreOp>, now: string, id: string)
    requires WellFormed(jobs) && About(ops, id)
    ensures var j0 := Record(jobs, id); var j := Record(ApplyAll(jobs, ops, now), id);
      j.status == StatusAfter(ops, j0.status) &&
      j.currentStep == CurrentStepAfter(ops, j0.currentStep) &&
      NameSet(j.steps.GetOr([])) == NamesAfter(ops, NameSet(j0.steps.GetOr([]))) &&
      DistinctNames(j.steps.GetOr([])) &&
      j.payload == j0.payload && j.createdAt == j0.createdAt && j.initiatedBy == j0.initiatedBy
    ensures forall other :: other != id ==> (other in jobs <==> other in ApplyAll(jobs, ops, now))
    ensures forall other :: other != id && other in jobs ==> ApplyAll(jobs, ops, now)[other] == jobs[other]
    decreases |ops|
  {
    if ops != [] {
      var next := ApplyOp(jobs, ops[0], now);
      ApplyOpWellFormed(jobs, ops[0], now);
      assert About(ops[1..], id) by {
        forall k | 0 <= k < |ops[1..]| ensures ops[1..][k].jobId == id && !ops[1..][k].Create? {
          assert ops[1..][k] == ops[k + 1];
        }
      }
      Replay(next, ops[1..], now, id);
      var j0 := Record(jobs, id);
      assert ops[0].jobId == id && !ops[0].Create?;
      assert DistinctNames(j0.steps.GetOr([]));
      if ops[0].AddStep? {
        UpsertKeepsNamesDistinct(j0.steps.GetOr([]), StepDict(ops[0].name, ops[0].status, now, ops[0].outputS3Key, ops[0].errorMessage));
      }
    }
  }

  /** The round trip of a whole run: a job created and then updated reads back
      with the last status written (PENDING if none) and one step entry per
      distinct step name recorded. */
  lemma CreatedThenReplayed(jobs: map<string, Job>, id: string, payload: Payload, initiatedBy: string,
                            ops: seq<StoreOp>, now: string)
    requires WellFormed(jobs) && About(ops, id)
    ensures id in ApplyAll(jobs, [Create(id, payload, initiatedBy)] + ops, now)
    ensures ApplyAll(jobs, [Create(id, payload, initiatedBy)] + ops, now)[id].steps.Some?
    ensures var j := ApplyAll(jobs, [Create(id, payload, initiatedBy)] + ops, now)[id];
      j.status == StatusAfter(ops, Some(PENDING)) &&
      NameSet(j.steps.value) == NamesAfter(ops, {}) &&
      |j.steps.value| == |NamesAfter(ops, {})| &&
      j.payload == Some(payload) && j.initiatedBy == Some(initiatedBy)
  {
    ApplyAllAppend(jobs, [Create(id, payload, initiatedBy)], ops, now);
    var created := ApplyOp(jobs, Create(id, payload, initiatedBy), now);
    assert ApplyAll(jobs, [Create(id, payload, initiatedBy)], now) == created;
    ApplyOpWellFormed(jobs, Create(id, payload, initiatedBy), now);
    Replay(created, ops, now, id);
    assert NameSet([]) == {};
    var j := Record(ApplyAll(created, ops, now), id);
    ReplayKeeps(created, ops, now, id);
    assert j.steps.Some? by { ReplayKeepsSteps(created, ops, now, id); }
    DistinctNamesCount(j.steps.value);
  }

  lemma {:induction false} ReplayKeeps(jobs: map<string, Job>, ops: seq<StoreOp>, now: string, id: string)
    requires id in jobs
    ensures id in ApplyAll(jobs, ops, now)
    decreases |ops|
  {
    if ops != [] {
      ReplayKeeps(ApplyOp(jobs, ops[0], now), ops[1..], now, id);
    }
  }

  /** Once a record has a steps list, no call removes it. */
  lemma {:induction false} ReplayKeepsSteps(jobs: map<string, Job>, ops: seq<StoreOp>, now: string, id: string)
    requires id in jobs && jobs[id].steps.Some? && About(ops, id)
    ensures Record(ApplyAll(jobs, ops, now), id).steps.Some?
    decreases |ops|
  {
    if ops != [] {
      assert About(ops[1..], id) by {
        forall k | 0 <= k < |ops[1..]| ensures ops[1..][k].jobId == id && !ops[1..][k].Create? {
          assert ops[1..][k] == ops[k + 1];
        }
      }
      assert ops[0].jobId == id && !ops[0].Create?;
      ReplayKeepsSteps(ApplyOp(jobs, ops[0], now), ops[1..], now, id);
    }
  }

  /** A `list_jobs` answer: distinct stored records, as many as the store
      holds up to `limit`. */
  ghost predicate Page(jobs: map<string, Job>, page: seq<Job>, limit: int) {
    |page| == (if limit < |jobs| then limit else |jobs|) &&
    (forall k :: 0 <= k < |page| ==> page[k].jobId in jobs && jobs[page[k].jobId] == page[k]) &&
    (forall a, b :: 0 <= a < b < |page| ==> page[a].jobId != page[b].jobId)
  }

  class JobStatusManager {
    const tableName: string
    var jobs: map<string, Job>

    ghost predicate Valid()
      reads this
    {
      WellFormed(jobs)
    }

    constructor (tableName: string)
      ensures Valid() && this.tableName == tableName && jobs == map[]
    {
      this.tableName := tableName;
      jobs := map[];
    }

    /** `create_job`: a fresh PENDING record, replacing any record with that id. */
    method CreateJob(jobId: string, payload: Payload, initiatedBy: string, now: string) returns (item: Job)
      requires Valid()
      modifies this
      ensures Valid()
      ensures jobs == ApplyOp(old(jobs), Create(jobId, payload, initiatedBy), now)
      ensures item == jobs[jobId]
      ensures item.status == Some(PENDING) && item.currentStep == Some("") && item.steps == Some([])
      ensures item.retryCount == Some(0) && item.payload == Some(payload) && item.initiatedBy == Some(initiatedBy)
      ensures item.results.None? && item.createdAt == Some(now) && item.updatedAt == now
    {
      item := Created(jobId, payload, initiatedBy, now);
      jobs := jobs[jobId := item];
    }

    /** `update_job_status`: sets status and updatedAt, and currentStep only
        when a non-empty step name is given. */
    method UpdateJobStatus(jobId: string, status: string, currentStep: Option<string>, now: string)
      requires Valid()
      modifies this
      ensures Valid()
      ensures jobs == ApplyOp(old(jobs), UpdateStatus(jobId, status, currentStep), now)
      ensures jobs[jobId].status == Some(status) && jobs[jobId].updatedAt == now
      ensures jobs[jobId].currentStep ==
              if currentStep.Some? && currentStep.value != "" then currentStep else Record(old(jobs), jobId).currentStep
      ensures jobs[jobId].(status := Record(old(jobs), jobId).status,
                           updatedAt := Record(old(jobs), jobId).updatedAt,
                           currentStep := Record(old(jobs), jobId).currentStep) == Record(old(jobs), jobId)
    {
      var item := Record(jobs, jobId);
      item := item.(status := Some(status), updatedAt := now);
      if currentStep.Some? && currentStep.value != "" {
        item := item.(currentStep := currentStep);
      }
      jobs := jobs[jobId := item];
    }

    /** `add_step_result`: scan for the first step of that name, merge into it
        in place, or append a new step. */
    method AddStepResult(jobId: string, stepName: string, status: string,
                         outputS3Key: Option<string>, errorMessage: Option<string>, now: string)
      requires Valid()
      modifies this
      ensures Valid()
      ensures jobs == ApplyOp(old(jobs), AddStep(jobId, stepName, status, outputS3Key, errorMessage), now)
    {
      var step := StepDict(stepName, status, now, outputS3Key, errorMessage);
      var item := Record(jobs, jobId);
      var steps := item.steps.GetOr([]);
      ghost var before := steps;
      var stepFound := false;
      var i := 0;
      while i < |steps|
        invariant 0 <= i <= |steps| == |before|
        invariant steps == before
        invariant forall j :: 0 <= j < i ==> before[j].name != stepName
      {
        if steps[i].name == stepName {
          steps := steps[i := Merge(steps[i], step)];
          stepFound := true;
          break;
        }
        i := i + 1;
      }
      if !stepFound {
        steps := steps + [Opened(step)];
      }
      assert steps == Upsert(before, step);
      jobs := jobs[jobId := item.(steps := Some(steps), updatedAt := now)];
      ApplyOpWellFormed(old(jobs), AddStep(jobId, stepName, status, outputS3Key, errorMessage), now);
    }

    /** `set_job_results`: changes only results and updatedAt. */
    method SetJobResults(jobId: string, results: Results, now: string)
      requires Valid()
      modifies this
      ensures Valid()
      ensures jobs == ApplyOp(old(jobs), SetResults(jobId, results), now)
      ensures jobs[jobId] == Record(old(jobs), jobId).(results := Some(results), updatedAt := now)
    {
      var item := Record(jobs, jobId);
      jobs := jobs[jobId := item.(results := Some(results), updatedAt := now)];
    }

    /** `get_job`: the stored record, or None. */
    method GetJob(jobId: string) returns (r: Option<Job>)
      ensures r.Some? <==> jobId in jobs
      ensures r.Some? ==> r.value == jobs[jobId]
    {
      r := if jobId in jobs then Some(jobs[jobId]) else None;
    }

    /** `list_jobs`: one scan page of at most `limit` stored records, in no
        promised order; DynamoDB refuses a limit below 1. */
    method ListJobs(limit: int) returns (r: Option<seq<Job>>)
      requires Valid()
      ensures r.None? <==> limit < 1
      ensures r.Some? ==> |r.value| <= limit && Page(jobs, r.value, limit)
    {
      if limit < 1 {
        return None;
      }
      var remaining := jobs.Keys;
      var page: seq<Job> := [];
      while remaining != {} && |page| < limit
        invariant remaining <= jobs.Keys
        invariant |page| + |remaining| == |jobs.Keys| && |page| <= limit
        invariant forall k :: 0 <= k < |page| ==> page[k].jobId in jobs && jobs[page[k].jobId] == page[k] && page[k].jobId !in remaining
        invariant forall a, b :: 0 <= a < b < |page| ==> page[a].jobId != page[b].jobId
        decreases remaining
      {
        var id :| id in remaining;
        page := page + [jobs[id]];
        remaining := remaining - {id};
      }
      assert |jobs.Keys| == |jobs|;
      r := Some(page);
    }
  }
}
