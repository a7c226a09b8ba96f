# QuickSight asset deployment and admin reports, modelled in Dafny

This project models two parts of a QuickSight operations repository.

The first part deploys a dashboard from a source account to a target account. Several Lambda functions do the work:

- An **orchestrator** creates a job record. It then invokes four executors in turn: export, upload, import and update-permissions. It records each step's outcome in a DynamoDB job table.
- Each **executor** works on its own: the asset-bundle export (it polls until the job is terminal), the bundle upload to S3 (a `.qs` and a `.zip` variant), the asset-bundle import (same polling), and the grant of dashboard and dataset permissions.
- A **job API** lists and shows the job records and starts new runs.
- The shared **job store** (`JobStatusManager`) creates job records, upserts steps and sets statuses and results.

The second part is the Glue scripts of the admin suite, which walk a QuickSight account and write CSV reports to S3:

- **Q topics with their permissions** and topic/dataset pairs.
- **Dashboard lineage**: analysis, dataset, data source and table.
- **A data dictionary** of output columns.
- **Dataset properties** with the latest SPICE refresh.
- **One row per dataset and permission.**

The model also covers the **dataset column comparison** used when merging dataset definitions.

The model is written in the form the code has:

- The job store is a class whose methods update a map of records.
- The orchestrator is a plan of pure effects (`Orchestrate`), plus an imperative handler proved to carry that plan out on the store.
- Loops that accumulate results are methods with loop invariants. Each is proved equal to a recursive specification function, and the properties are lemmas about those functions.

Inputs stand in for everything the code gets from outside:

- AWS calls: the answers of QuickSight, STS, S3 and Lambda. These are paging inputs, per-id answer maps, poll sequences, and results that may be a raised fault. DynamoDB is the in-memory job store, whose calls always succeed.
- The clock and the UUID.
- `json.loads`.

An exception that ends a Python function is an `Err`. Where the code catches it and goes on, the model keeps the rows written so far, together with what was raised.

Some behaviours of the code are kept as written even where they look unintended:

- DynamoDB `update_item` creates a sparse record for an unknown id. So a run whose request lacks `config` leaves a record holding only a FAILED status.
- The dataset-permission script's capacity variables are module-level globals. A dataset whose capacity lookup finds nothing keeps the previous dataset's values. Before any dataset has assigned them, reading them raises `NameError`.
- That script's DIRECT_QUERY rows for three-part principals, and its orphan rows, carry 21 cells under a 20-column header. The model keeps those rows as written.
- The combined dataset script swallows every `ClientError` raised around a dataset, whatever its code, and moves on.
- The topic script stops paging on an empty token. The dataset scripts' `_list` stops only on an absent token. The loop guarded by `if next_token:` sends an empty token as no token.

## Model

| member | source | states |
|---|---|---|
| JobStore.JobStatusManager.constructor | 3_Agent_to_Deploy_Assets/cdk-python/cdk.out.redeploy/asset.f9d2c62c98d5ce37ea6ce1b92da6700dfb6bae82f31fbe6b40ec34be21d5c420/shared/dynamodb_utils.py:7-9 | a new store over the named table holds no records |
| JobStore.JobStatusManager.CreateJob | 3_Agent_to_Deploy_Assets/cdk-python/cdk.out.redeploy/asset.f9d2c62c98d5ce37ea6ce1b92da6700dfb6bae82f31fbe6b40ec34be21d5c420/shared/dynamodb_utils.py:11-26 | the record for the id is replaced by a fresh PENDING one with empty current step and steps, retry count 0 and both timestamps `now`; no other record changes; the item is returned |
| JobStore.JobStatusManager.UpdateJobStatus | 3_Agent_to_Deploy_Assets/cdk-python/cdk.out.redeploy/asset.f9d2c62c98d5ce37ea6ce1b92da6700dfb6bae82f31fbe6b40ec34be21d5c420/shared/dynamodb_utils.py:28-46 | only that record changes: status and updatedAt are set, currentStep only when the argument is non-empty; an unknown id gets a sparse record |
| JobStore.JobStatusManager.AddStepResult | 3_Agent_to_Deploy_Assets/cdk-python/cdk.out.redeploy/asset.f9d2c62c98d5ce37ea6ce1b92da6700dfb6bae82f31fbe6b40ec34be21d5c420/shared/dynamodb_utils.py:48-86 | only that record changes: its steps become the upsert of the step (merged into the first step of that name, or appended with startedAt = endedAt) and updatedAt is set; output key and error are part of the step only when non-empty |
| JobStore.JobStatusManager.SetJobResults | 3_Agent_to_Deploy_Assets/cdk-python/cdk.out.redeploy/asset.f9d2c62c98d5ce37ea6ce1b92da6700dfb6bae82f31fbe6b40ec34be21d5c420/shared/dynamodb_utils.py:88-97 | only results and updatedAt of that record change |
| JobStore.JobStatusManager.GetJob | 3_Agent_to_Deploy_Assets/cdk-python/cdk.out.redeploy/asset.f9d2c62c98d5ce37ea6ce1b92da6700dfb6bae82f31fbe6b40ec34be21d5c420/shared/dynamodb_utils.py:99-102 | returns the stored record exactly when the id is stored |
| JobStore.JobStatusManager.ListJobs | 3_Agent_to_Deploy_Assets/cdk-python/cdk.out.redeploy/asset.f9d2c62c98d5ce37ea6ce1b92da6700dfb6bae82f31fbe6b40ec34be21d5c420/shared/dynamodb_utils.py:104-107 | refuses a limit below 1; otherwise returns as many distinct stored records as the table holds, up to `limit`, and changes nothing |
| JobStore.FindStep | 3_Agent_to_Deploy_Assets/cdk-python/cdk.out.redeploy/asset.f9d2c62c98d5ce37ea6ce1b92da6700dfb6bae82f31fbe6b40ec34be21d5c420/shared/dynamodb_utils.py:67-73 | the index of the first step with the name, or none exactly when no step has it |
| JobStore.UpsertKeepsNamesDistinct | 3_Agent_to_Deploy_Assets/cdk-python/cdk.out.redeploy/asset.f9d2c62c98d5ce37ea6ce1b92da6700dfb6bae82f31fbe6b40ec34be21d5c420/shared/dynamodb_utils.py:67-77 | upserting keeps step names distinct, adds the name, and grows the list only for a new name |
| JobStore.UpsertExisting | 3_Agent_to_Deploy_Assets/cdk-python/cdk.out.redeploy/asset.f9d2c62c98d5ce37ea6ce1b92da6700dfb6bae82f31fbe6b40ec34be21d5c420/shared/dynamodb_utils.py:69-73 | a present name: only that entry changes, by merging the update into it |
| JobStore.UpsertNew | 3_Agent_to_Deploy_Assets/cdk-python/cdk.out.redeploy/asset.f9d2c62c98d5ce37ea6ce1b92da6700dfb6bae82f31fbe6b40ec34be21d5c420/shared/dynamodb_utils.py:75-77 | a new name: exactly one entry is appended, with startedAt = endedAt |
| JobStore.StaleFieldSurvives | 3_Agent_to_Deploy_Assets/cdk-python/cdk.out.redeploy/asset.f9d2c62c98d5ce37ea6ce1b92da6700dfb6bae82f31fbe6b40ec34be21d5c420/shared/dynamodb_utils.py:57-60 | a re-recorded step without an error message keeps the message an earlier call wrote |
| JobStore.UpsertTwice | 3_Agent_to_Deploy_Assets/cdk-python/cdk.out.redeploy/asset.f9d2c62c98d5ce37ea6ce1b92da6700dfb6bae82f31fbe6b40ec34be21d5c420/shared/dynamodb_utils.py:67-77 | recording one step name twice leaves one entry, with the second call's status and time and each optional field from the latest call that gave it |
| JobStore.RecordAfter | 3_Agent_to_Deploy_Assets/cdk-python/cdk.out.redeploy/asset.f9d2c62c98d5ce37ea6ce1b92da6700dfb6bae82f31fbe6b40ec34be21d5c420/shared/dynamodb_utils.py:41-46 | calls naming one job leave its record as their effects composed, and no other record changes |
| JobStore.StatusIsLastWritten | 3_Agent_to_Deploy_Assets/cdk-python/cdk.out.redeploy/asset.f9d2c62c98d5ce37ea6ce1b92da6700dfb6bae82f31fbe6b40ec34be21d5c420/shared/dynamodb_utils.py:28-46 | a record's status after a run of calls is the last status written, else what it was |
| JobStore.ApplyAllWellFormed | 3_Agent_to_Deploy_Assets/cdk-python/cdk.out.redeploy/asset.f9d2c62c98d5ce37ea6ce1b92da6700dfb6bae82f31fbe6b40ec34be21d5c420/shared/dynamodb_utils.py:11-97 | every record stays keyed by its own id, and the steps of each keep distinct names |
| JobStore.DistinctNamesCount | 3_Agent_to_Deploy_Assets/cdk-python/cdk.out.redeploy/asset.f9d2c62c98d5ce37ea6ce1b92da6700dfb6bae82f31fbe6b40ec34be21d5c420/shared/dynamodb_utils.py:67-77 | a steps list with distinct names has one entry per name |
| JobStore.Replay | 3_Agent_to_Deploy_Assets/cdk-python/cdk.out.redeploy/asset.f9d2c62c98d5ce37ea6ce1b92da6700dfb6bae82f31fbe6b40ec34be21d5c420/shared/dynamodb_utils.py:11-97 | replaying calls about one job gives the last status written, the last non-empty current step, the old step names plus the recorded ones (still distinct), the same payload, creation time and initiator, and leaves every other record as it was |
| JobStore.CreatedThenReplayed | 3_Agent_to_Deploy_Assets/cdk-python/cdk.out.redeploy/asset.f9d2c62c98d5ce37ea6ce1b92da6700dfb6bae82f31fbe6b40ec34be21d5c420/shared/dynamodb_utils.py:11-26 | a job created and then updated reads back with its payload and initiator, the last status written after PENDING, and one step per recorded name |
| JobStore.ReplayKeepsSteps | 3_Agent_to_Deploy_Assets/cdk-python/cdk.out.redeploy/asset.f9d2c62c98d5ce37ea6ce1b92da6700dfb6bae82f31fbe6b40ec34be21d5c420/shared/dynamodb_utils.py:63-77 | once a record has a steps list, no call about that job removes the list |
| Arns.RoleArnFields | 3_Agent_to_Deploy_Assets/cdk-python/cdk.out.redeploy/asset.f9d2c62c98d5ce37ea6ce1b92da6700dfb6bae82f31fbe6b40ec34be21d5c420/shared/utils.py:23-27 | the assumed role ARN splits into its six colon fields with account and role name |
| Arns.UserArnFields | 3_Agent_to_Deploy_Assets/cdk-python/cdk.out.redeploy/asset.f9d2c62c98d5ce37ea6ce1b92da6700dfb6bae82f31fbe6b40ec34be21d5c420/shared/utils.py:36-44 | a QuickSight user ARN splits into its six fields with region, account and `user/namespace/name` |
| Arns.UserArnShape | 3_Agent_to_Deploy_Assets/cdk-python/cdk.out.redeploy/asset.f9d2c62c98d5ce37ea6ce1b92da6700dfb6bae82f31fbe6b40ec34be21d5c420/shared/utils.py:36-44 | the user ARN is the `arn:aws:quicksight:` prefix with region, account, namespace and user |
| Arns.UserArnName | 3_Agent_to_Deploy_Assets/cdk-python/cdk.out.redeploy/asset.f9d2c62c98d5ce37ea6ce1b92da6700dfb6bae82f31fbe6b40ec34be21d5c420/shared/utils.py:44 | the last slash part of a user ARN is the user name |
| Orchestrator.JobIdFields | 3_Agent_to_Deploy_Assets/lambda/orchestrator/lambda_function.py:18 | the job id reads back as `job-`, the compact timestamp and the first 8 uuid characters |
| Orchestrator.JobIdInjective | 3_Agent_to_Deploy_Assets/lambda/orchestrator/lambda_function.py:18 | two runs get the same id exactly when they start in the same second with the same uuid prefix |
| Orchestrator.ReadConfigFails | 3_Agent_to_Deploy_Assets/lambda/orchestrator/lambda_function.py:22-35 | the configuration is read exactly when every required key is present; otherwise the fault names the first missing key in reading order, and the defaults fill in dashboard name and region |
| Orchestrator.UploadPayload | 3_Agent_to_Deploy_Assets/lambda/orchestrator/lambda_function.py:63-75 | a built upload payload carries the export answer's job id |
| Orchestrator.UploadPayloadFails | 3_Agent_to_Deploy_Assets/lambda/orchestrator/lambda_function.py:63-75 | the upload payload is built exactly when the export answer has all three keys |
| Orchestrator.StatusOf | 3_Agent_to_Deploy_Assets/lambda/orchestrator/lambda_function.py:52-56 | a status code exactly when the invocation returned one, and then that code |
| Orchestrator.Decode | 3_Agent_to_Deploy_Assets/lambda/orchestrator/lambda_function.py:58 | a dictionary exactly when the body is present and parses, and then the parsed one |
| Orchestrator.Compose | 3_Agent_to_Deploy_Assets/lambda/orchestrator/lambda_function.py:14-161 | performing two batches of actions one after the other writes the store as their writes concatenated |
| Orchestrator.RunStart | 3_Agent_to_Deploy_Assets/lambda/orchestrator/lambda_function.py:17-35 | creates the record, sets it RUNNING at the export, and ends exactly as the plan's start stage with its writes |
| Orchestrator.RecordFailure | 3_Agent_to_Deploy_Assets/lambda/orchestrator/lambda_function.py:52-56 | records the step FAILED with its body or the default, then the job FAILED, as the plan's writes |
| Orchestrator.RecordSuccess | 3_Agent_to_Deploy_Assets/lambda/orchestrator/lambda_function.py:58-61 | records the step SUCCEEDED, then the job RUNNING the next step, as the plan's writes |
| Orchestrator.RunExport | 3_Agent_to_Deploy_Assets/lambda/orchestrator/lambda_function.py:37-61 | invokes the export and leaves the store and the outcome as the plan's export stage |
| Orchestrator.RunUpload | 3_Agent_to_Deploy_Assets/lambda/orchestrator/lambda_function.py:63-90 | builds the payload, invokes the upload and leaves the store as the plan's upload stage |
| Orchestrator.RunImport | 3_Agent_to_Deploy_Assets/lambda/orchestrator/lambda_function.py:92-115 | invokes the import and leaves the store as the plan's import stage |
| Orchestrator.RunPermissions | 3_Agent_to_Deploy_Assets/lambda/orchestrator/lambda_function.py:117-132 | invokes the permission update and hands on to the finish exactly as the plan |
| Orchestrator.RunFinish | 3_Agent_to_Deploy_Assets/lambda/orchestrator/lambda_function.py:134-161 | 200 records SUCCEEDED, COMPLETED and the results; any other code records FAILED twice; the summary reply is the plan's |
| Orchestrator.Attempt | 3_Agent_to_Deploy_Assets/lambda/orchestrator/lambda_function.py:14-161 | the handler's `try` block performs the plan's body: the same invocations in order and the same store writes |
| Orchestrator.LambdaHandler | 3_Agent_to_Deploy_Assets/lambda/orchestrator/lambda_function.py:12-177 | a whole run: the store ends as the plan's writes applied, and the reply and invocations are the plan's, including the crash path's FAILED write and `unknown` id |
| OrchestratorProperties.BodyShape | 3_Agent_to_Deploy_Assets/lambda/orchestrator/lambda_function.py:37-161 | for every input the body invokes its steps in order, stops at the first failure, and writes RUNNING statuses, then one terminal status at the end |
| OrchestratorProperties.RunOf | 3_Agent_to_Deploy_Assets/lambda/orchestrator/lambda_function.py:163-177 | a run has the body's invocations, and its writes are the body's plus a FAILED write when the body raised after the id existed |
| OrchestratorProperties.OpensTheJob | 3_Agent_to_Deploy_Assets/lambda/orchestrator/lambda_function.py:24-26 | before any step is invoked, the job is created PENDING and set RUNNING at the export |
| OrchestratorProperties.StepsInOrder | 3_Agent_to_Deploy_Assets/lambda/orchestrator/lambda_function.py:45-130 | the invoked functions are a prefix of export, upload, import, update-permissions, each at most once |
| OrchestratorProperties.MissingConfig | 3_Agent_to_Deploy_Assets/lambda/orchestrator/lambda_function.py:22 | a request without `config` invokes nothing, and its only write is FAILED for a job never created |
| OrchestratorProperties.StopsAtFirstRefusal | 3_Agent_to_Deploy_Assets/lambda/orchestrator/lambda_function.py:52-112 | a run that forwards a step's non-200 answer stopped at export, upload or import, with that step recorded FAILED |
| OrchestratorProperties.PermissionsSummary | 3_Agent_to_Deploy_Assets/lambda/orchestrator/lambda_function.py:134-161 | a run answering with a summary carries its job id and the permissions code; the job ends COMPLETED with its results exactly when that code is 200, else FAILED without results |
| OrchestratorProperties.Crashes | 3_Agent_to_Deploy_Assets/lambda/orchestrator/lambda_function.py:163-177 | a crash before the job id exists reports `unknown` and writes nothing |
| OrchestratorProperties.StatusTrace | 3_Agent_to_Deploy_Assets/lambda/orchestrator/lambda_function.py:24-167 | the statuses written once the job exists are PENDING, then RUNNING ones, then terminal ones only at the end |
| OrchestratorProperties.EndsTerminal | 3_Agent_to_Deploy_Assets/lambda/orchestrator/lambda_function.py:12-177 | every run that got a job id leaves its record COMPLETED exactly when it answered with a summary whose permissions code is 200, FAILED otherwise |
| OrchestratorProperties.ExportRecorded | 3_Agent_to_Deploy_Assets/lambda/orchestrator/lambda_function.py:58-61 | the export moves on exactly when it answered 200 with a readable body; it is then recorded SUCCEEDED with the answer's `download_url` as output key, and the job is RUNNING the upload |
| OrchestratorProperties.UploadRecorded | 3_Agent_to_Deploy_Assets/lambda/orchestrator/lambda_function.py:87-90 | an upload that answered 200 with a readable body is recorded SUCCEEDED with its `s3_uri` as output key and the job set RUNNING the import; the run goes on exactly when `s3_uri` is present, else it ends on that missing key after the record |
| OrchestratorProperties.ImportRecorded | 3_Agent_to_Deploy_Assets/lambda/orchestrator/lambda_function.py:114-115 | the import moves on exactly when it answered 200; it is then recorded SUCCEEDED without output key, and the job is RUNNING the permission update |
| Http.ReadAllFails | 3_Agent_to_Deploy_Assets/lambda/orchestrator/lambda_function.py:27-33 | reading required keys in turn fails exactly when one is missing, naming the first missing one |
| Http.ParseJson | 3_Agent_to_Deploy_Assets/lambda/orchestrator/lambda_function.py:58 | the decoded dictionary, or a malformed-JSON fault exactly when the text is no JSON object |
| Polling.FirstStop | 3_Agent_to_Deploy_Assets/lambda/export_assets/lambda_function.py:90-99 | the index of the first answer that raises, lacks a status or has a terminal one; every earlier answer goes on |
| Polling.Final | 3_Agent_to_Deploy_Assets/lambda/export_assets/lambda_function.py:90-99 | the final describe response has a terminal `JobStatus`, or the loop's fault |
| Polling.Poll | 3_Agent_to_Deploy_Assets/lambda/export_assets/lambda_function.py:90-99 | the describe loop leaves at the first stopping answer |
| ExportAssets.ReadRequestFails | 3_Agent_to_Deploy_Assets/lambda/export_assets/lambda_function.py:20-67 | a request is read exactly when its three keys are present, else it fails on the first missing one |
| ExportAssets.LambdaHandler | 3_Agent_to_Deploy_Assets/lambda/export_assets/lambda_function.py:15-142 | the reply is the handler's value, and an export is started exactly for a start request whose session opened, with the computed job |
| ExportAssets.ExportIdDate | 3_Agent_to_Deploy_Assets/lambda/export_assets/lambda_function.py:74-75 | the export id ends with today's ISO date, and two ids for one request are equal exactly on the same day |
| ExportAssets.DashboardArnFields | 3_Agent_to_Deploy_Assets/lambda/export_assets/lambda_function.py:78-87 | the dashboard ARN splits into its six fields |
| ExportAssets.DashboardArnAsset | 3_Agent_to_Deploy_Assets/lambda/export_assets/lambda_function.py:78-87 | the last slash part of the dashboard ARN is the asset id |
| ExportAssets.AnswerFollowsFirstTerminal | 3_Agent_to_Deploy_Assets/lambda/export_assets/lambda_function.py:90-127 | a started export answers by the first stopping poll answer, every earlier one in progress: 200 with the download URL and format for SUCCESSFUL, 500 without header naming the export id for FAILED |
| ExportAssets.ShowsStoredJob | 3_Agent_to_Deploy_Assets/lambda/export_assets/lambda_function.py:28-49 | a GET under `/export/` reads the stored job named after the last `/export/`, and a 404 naming it when it is absent |
| ExportAssets.ReplyShape | 3_Agent_to_Deploy_Assets/lambda/export_assets/lambda_function.py:15-142 | the code is 200, 404 or 500; 200 only for a stored job or a successful export |
| ImportAssets.ReadRequestFails | 3_Agent_to_Deploy_Assets/cdk-python/cdk.out/asset.5221d8a207270739faf49aa406ae9155182fc053a8e3aa2814c8071bbc14cdc2/lambda_function.py:52-58 | a start request is read exactly when its keys are present, else it fails on the first missing one |
| ImportAssets.Details | 3_Agent_to_Deploy_Assets/cdk-python/cdk.out/asset.5221d8a207270739faf49aa406ae9155182fc053a8e3aa2814c8071bbc14cdc2/lambda_function.py:90-108 | the error details hold the status, the id, the message, and exactly the copied fields present in the response |
| ImportAssets.BuildDetails | 3_Agent_to_Deploy_Assets/cdk-python/cdk.out/asset.5221d8a207270739faf49aa406ae9155182fc053a8e3aa2814c8071bbc14cdc2/lambda_function.py:90-108 | the in-place construction of the error details yields them |
| ImportAssets.LambdaHandler | 3_Agent_to_Deploy_Assets/cdk-python/cdk.out/asset.5221d8a207270739faf49aa406ae9155182fc053a8e3aa2814c8071bbc14cdc2/lambda_function.py:24-141 | the reply is the handler's value, and an import is started exactly for a start request whose session opened |
| ImportAssets.AnswerFollowsFirstTerminal | 3_Agent_to_Deploy_Assets/cdk-python/cdk.out/asset.5221d8a207270739faf49aa406ae9155182fc053a8e3aa2814c8071bbc14cdc2/lambda_function.py:79-126 | a started import answers by the first stopping poll answer |
| ImportAssets.DetailsKeys | 3_Agent_to_Deploy_Assets/cdk-python/cdk.out/asset.5221d8a207270739faf49aa406ae9155182fc053a8e3aa2814c8071bbc14cdc2/lambda_function.py:90-108 | a failure's details have the three fixed keys plus the copied fields present |
| ImportAssets.ImportIdDate | 3_Agent_to_Deploy_Assets/cdk-python/cdk.out/asset.5221d8a207270739faf49aa406ae9155182fc053a8e3aa2814c8071bbc14cdc2/lambda_function.py:65-66 | two import ids for one asset and account are equal exactly on the same day |
| ImportAssets.StatusRoute | 3_Agent_to_Deploy_Assets/cdk-python/cdk.out/asset.5221d8a207270739faf49aa406ae9155182fc053a8e3aa2814c8071bbc14cdc2/lambda_function.py:24-45 | a status request reads the id after the last `/import/` and answers 200 with the described status |
| UploadAssets.Fields | 3_Agent_to_Deploy_Assets/cdk-python/cdk.out.redeploy/asset.6315c6f0f6ced14a85b27b5e7970f45c403d9b9f624a2cb9db87aa8d1474fcd3/lambda_function.py:10-23 | only a POST reads its fields from the JSON body; any other event is its own field map |
| UploadAssets.BundleKeyParts | 3_Agent_to_Deploy_Assets/cdk-python/cdk.out.redeploy/asset.6315c6f0f6ced14a85b27b5e7970f45c403d9b9f624a2cb9db87aa8d1474fcd3/lambda_function.py:33-35 | the bundle key's two slash segments are `{format}_{job}` and that name with the extension |
| UploadAssets.BundleKeyInjective | 3_Agent_to_Deploy_Assets/cdk-python/cdk.out.redeploy/asset.483ab30cad6b59d953e921bd341cea9f1a392163b60fd0df3d767e3171626d6d/lambda_function.py:41-43 | bundle keys of one format and extension are equal exactly for equal job ids |
| UploadAssets.QsStoresDownload | 3_Agent_to_Deploy_Assets/cdk-python/cdk.out.redeploy/asset.6315c6f0f6ced14a85b27b5e7970f45c403d9b9f624a2cb9db87aa8d1474fcd3/lambda_function.py:25-78 | the `.qs` reply is 200 exactly when the object was stored; what is stored is the downloaded bytes under the bundle key in the requested bucket |
| UploadAssets.ZipStoresDownload | 3_Agent_to_Deploy_Assets/cdk-python/cdk.out.redeploy/asset.483ab30cad6b59d953e921bd341cea9f1a392163b60fd0df3d767e3171626d6d/lambda_function.py:31-85 | the `.zip` variant stores nothing unless the session opened and the download answered 200; then it stores the content with the target's credentials |
| UploadAssets.RefusalNamesStatus | 3_Agent_to_Deploy_Assets/cdk-python/cdk.out.redeploy/asset.483ab30cad6b59d953e921bd341cea9f1a392163b60fd0df3d767e3171626d6d/lambda_function.py:36-38 | distinct refused download codes give distinct messages |
| UploadAssets.UploadedUriParts | 3_Agent_to_Deploy_Assets/cdk-python/cdk.out.redeploy/asset.483ab30cad6b59d953e921bd341cea9f1a392163b60fd0df3d767e3171626d6d/lambda_function.py:51 | the announced URI takes apart into the bucket and the bundle key |
| UploadAssets.ZipNeedsTarget | 3_Agent_to_Deploy_Assets/cdk-python/cdk.out.redeploy/asset.483ab30cad6b59d953e921bd341cea9f1a392163b60fd0df3d767e3171626d6d/lambda_function.py:12-29 | the `.zip` request is read exactly when the four common keys and the target keys are present |
| UpdatePermissions.DataSetIdOfArn | 3_Agent_to_Deploy_Assets/cdk-python/cdk.out.tools/asset.f0f098aa97223b1db795bc9807a67944c7e14f640f0c15d87f41468b9b3bcf98/lambda_function.py:80 | the id read from a standard dataset ARN is the dataset's id |
| UpdatePermissions.DatasetGrants | 3_Agent_to_Deploy_Assets/cdk-python/cdk.out.tools/asset.f0f098aa97223b1db795bc9807a67944c7e14f640f0c15d87f41468b9b3bcf98/lambda_function.py:79-101 | one grant per dataset ARN, in order, each to the admin with the ten dataset actions |
| UpdatePermissions.FirstFailing | 3_Agent_to_Deploy_Assets/cdk-python/cdk.out.tools/asset.f0f098aa97223b1db795bc9807a67944c7e14f640f0c15d87f41468b9b3bcf98/lambda_function.py:79-101 | the first grant call that raises, with every earlier one going through |
| UpdatePermissions.GrantDatasets | 3_Agent_to_Deploy_Assets/cdk-python/cdk.out.tools/asset.f0f098aa97223b1db795bc9807a67944c7e14f640f0c15d87f41468b9b3bcf98/lambda_function.py:79-101 | the loop makes exactly the grants before the first raising call, and reports that fault |
| UpdatePermissions.LambdaHandler | 3_Agent_to_Deploy_Assets/cdk-python/cdk.out.tools/asset.f0f098aa97223b1db795bc9807a67944c7e14f640f0c15d87f41468b9b3bcf98/lambda_function.py:10-134 | the straight-line handler gives the reply and the grants of the handler's value |
| UpdatePermissions.NotFound | 3_Agent_to_Deploy_Assets/cdk-python/cdk.out.tools/asset.f0f098aa97223b1db795bc9807a67944c7e14f640f0c15d87f41468b9b3bcf98/lambda_function.py:43-47 | an empty search answers 404 without header, naming the dashboard, and grants nothing |
| UpdatePermissions.FanOut | 3_Agent_to_Deploy_Assets/cdk-python/cdk.out.tools/asset.f0f098aa97223b1db795bc9807a67944c7e14f640f0c15d87f41468b9b3bcf98/lambda_function.py:49-119 | a 200 reply means one dashboard grant to the first search hit, then one grant per dataset, with `datasets_updated` their number |
| UpdatePermissions.ReplyShape | 3_Agent_to_Deploy_Assets/cdk-python/cdk.out.tools/asset.f0f098aa97223b1db795bc9807a67944c7e14f640f0c15d87f41468b9b3bcf98/lambda_function.py:103-134 | the code is 200, 404 or 500; 404 exactly for an empty search, without header; otherwise the JSON header exactly for API Gateway events; only the first grant is a dashboard grant |
| JobApi.RouteOf | 3_Agent_to_Deploy_Assets/cdk-python/cdk.out/asset.e8fe6db159f7fab71ee3a13cf21222c508088d174593e6ba5b9262133ce09cc5/lambda_function.py:12-74 | a route exactly when method and path are present; a job route takes the id after the last `/jobs/` |
| JobApi.StartRequest | 3_Agent_to_Deploy_Assets/cdk-python/cdk.out/asset.e8fe6db159f7fab71ee3a13cf21222c508088d174593e6ba5b9262133ce09cc5/lambda_function.py:39-61 | a start invokes the orchestrator asynchronously with the body's config and initiator |
| JobApi.LambdaHandler | 3_Agent_to_Deploy_Assets/cdk-python/cdk.out/asset.e8fe6db159f7fab71ee3a13cf21222c508088d174593e6ba5b9262133ce09cc5/lambda_function.py:5-74 | lists up to 50 stored jobs, shows one or answers 404, starts a run with 202 after one asynchronous invocation, answers 404 for other endpoints and 500 on an exception, always with the JSON header |
| JobApi.Routing | 3_Agent_to_Deploy_Assets/cdk-python/cdk.out/asset.e8fe6db159f7fab71ee3a13cf21222c508088d174593e6ba5b9262133ce09cc5/lambda_function.py:12-62 | the routes are exactly `GET /jobs`, `GET` under `/jobs/`, `POST /jobs`, and nothing else |
| ColumnDiff.DictOf | 1_BIOps/Sample_Merge_Conflict_Resolver/compare_quicksight_datasets.py:29-30 | the comprehension's dict: distinct keys in first-occurrence order, each with the type of its last column |
| ColumnDiff.CompareOutputColumns | 1_BIOps/Sample_Merge_Conflict_Resolver/compare_quicksight_datasets.py:28-56 | the two loops compute the difference of the two dicts |
| ColumnDiff.DiffMembers | 1_BIOps/Sample_Merge_Conflict_Resolver/compare_quicksight_datasets.py:38-54 | removed names are exactly old names absent from the new side; retyped ones are names on both sides with different last types; added ones are new names absent from the old side |
| ColumnDiff.Disjoint | 1_BIOps/Sample_Merge_Conflict_Resolver/compare_quicksight_datasets.py:38-54 | no name is in two of the lists |
| ColumnDiff.SelfDiff | 1_BIOps/Sample_Merge_Conflict_Resolver/compare_quicksight_datasets.py:28-56 | comparing a description with itself finds no difference |
| ColumnDiff.Order | 1_BIOps/Sample_Merge_Conflict_Resolver/compare_quicksight_datasets.py:38-54 | removed and retyped names follow the old dict's order, and added names follow the new one's, without repeats |
| ColumnDiff.MissingColumns | 1_BIOps/Sample_Merge_Conflict_Resolver/compare_quicksight_datasets.py:29-30 | a missing `OutputColumns` compares like an empty list |
| ColumnDiff.FindPut | 1_BIOps/Sample_Merge_Conflict_Resolver/compare_quicksight_datasets.py:29-30 | reading a dict after an assignment gives the assigned value for that key and the old one for others |
| Paging.Fetched | 2_Quick_Admin_Suite/Glue/NewTemplates/admin_suite_q.py:31-44 | the number of pages read is up to and including the first one whose token ends the listing |
| Paging.ItemsMembers | 2_Quick_Admin_Suite/Glue/NewTemplates/admin_suite_dataset.py:48-62 | the collected items are exactly the items of the pages read |
| Paging.Requested | 2_Quick_Admin_Suite/Glue/NewTemplates/admin_suite_dataset.py:243-247 | a request carries the previous token exactly when it is present and non-empty |
| Paging.EmptyTokenReadsOn | 2_Quick_Admin_Suite/Glue/NewTemplates/admin_suite_dataset.py:58 | an empty token ends a topic listing but not a `_list` listing |
| TopicAccess.ListAllTopics | 2_Quick_Admin_Suite/Glue/NewTemplates/admin_suite_q.py:31-44 | the topics are those of the pages read up to the first missing or empty token; each request after the first carries the previous token |
| TopicAccess.DescribeTopicDetails | 2_Quick_Admin_Suite/Glue/NewTemplates/admin_suite_q.py:46-61 | the described topics in summary order, leaving out topics whose describe raised |
| TopicAccess.DescribedMembers | 2_Quick_Admin_Suite/Glue/NewTemplates/admin_suite_q.py:46-61 | each described topic is the answer for a summary's id and carries that id |
| TopicAccess.PrincipalType | 2_Quick_Admin_Suite/Glue/NewTemplates/admin_suite_q.py:103 | `Group` exactly for `:group/` principals, `User` for `:user/` ones without it, else `Unknown` |
| TopicAccess.OwnerName | 2_Quick_Admin_Suite/Glue/NewTemplates/admin_suite_q.py:102 | the text after the last `/`, or the whole principal without one |
| TopicAccess.BuildAccessData | 2_Quick_Admin_Suite/Glue/NewTemplates/admin_suite_q.py:78-123 | the access rows are the rows of each topic's permissions, topic after topic |
| TopicAccess.AccessRowCount | 2_Quick_Admin_Suite/Glue/NewTemplates/admin_suite_q.py:78-123 | one access row per permission |
| TopicAccess.AccessRowMembers | 2_Quick_Admin_Suite/Glue/NewTemplates/admin_suite_q.py:86-116 | every access row is the row of one permission of one listed topic, and every such row is there |
| TopicAccess.PermissionRowFields | 2_Quick_Admin_Suite/Glue/NewTemplates/admin_suite_q.py:105-116 | each access row says `Q Topic`, carries the principal as given and its actions joined with `\|` |
| TopicAccess.FlattenTopics | 2_Quick_Admin_Suite/Glue/NewTemplates/admin_suite_q.py:136-156 | the info rows are each topic's rows, topic after topic |
| TopicAccess.InfoRowCount | 2_Quick_Admin_Suite/Glue/NewTemplates/admin_suite_q.py:136-156 | one info row per dataset of a topic and one for a topic without datasets, whose dataset cells are empty |
| TopicAccess.AccessUri | 2_Quick_Admin_Suite/Glue/NewTemplates/admin_suite_q.py:166-193 | nothing for no rows, else the URI of the access object in the output path's bucket |
| TopicAccess.RunJob | 2_Quick_Admin_Suite/Glue/NewTemplates/admin_suite_q.py:199-237 | a failing access probe ends the job with that fault; otherwise it writes what `Written` describes |
| TopicAccess.WrittenObjects | 2_Quick_Admin_Suite/Glue/NewTemplates/admin_suite_q.py:125-237 | the info object is always written; the access object exactly when there are access rows |
| S3Paths.BucketThenPrefix | 2_Quick_Admin_Suite/Glue/NewTemplates/admin_suite_dataset.py:108-130 | the bucket, a `/` and the prefix give back the stripped output path |
| S3Paths.UriParts | 2_Quick_Admin_Suite/Glue/NewTemplates/admin_suite_dataset.py:108-130 | an object URI takes apart into its bucket and key |
| Ingestions.ErrorMessage | 2_Quick_Admin_Suite/Glue/NewTemplates/admin_suite_dataset.py:310 | failed-refresh message: at most 100 characters keep their first 50 and a dash before the advice; longer ones are the advice alone |
| Ingestions.ErrorMessageKeeps | 2_Quick_Admin_Suite/Glue/admin_suite_ds_property.py:152-159 | messages of at most 50 characters survive whole, 51 to 100 lose everything after the 50th, and longer ones all read the same |
| Ingestions.FailedAssigns | 2_Quick_Admin_Suite/Glue/NewTemplates/admin_suite_dataset.py:291-293 | after a failed refresh both capacity variables are assigned |
| Ingestions.FoundForgets | 2_Quick_Admin_Suite/Glue/NewTemplates/admin_suite_dataset.py:281-293 | a lookup that finds a capacity forgets what came before; one that finds none for a refresh that is not failed keeps the old values |
| DatasetMetadata.Lookup | 2_Quick_Admin_Suite/Glue/NewTemplates/admin_suite_dataset.py:161-170 | an id the service does not know answers ResourceNotFoundException |
| DatasetMetadata.ListAll | 2_Quick_Admin_Suite/Glue/NewTemplates/admin_suite_dataset.py:48-62 | `_list` returns the items of the pages up to the first absent token, sending each page's token as it is |
| DatasetMetadata.Resolved | 2_Quick_Admin_Suite/Glue/NewTemplates/admin_suite_dataset.py:161-170 | a not-found resource reads as `N/A` for id and name, any other error is raised, and an answer gives its name |
| DatasetMetadata.ArnParts | 2_Quick_Admin_Suite/Glue/NewTemplates/admin_suite_dataset.py:158-160 | a QuickSight ARN `…:<type>/<id>` has that resource type and id |
| DatasetMetadata.DashboardSource | 2_Quick_Admin_Suite/Glue/NewTemplates/admin_suite_dataset.py:156-176 | a dashboard built from an analysis names it, or `N/A` when it is gone; other sources name none |
| DatasetMetadata.FlatSql | 2_Quick_Admin_Suite/Glue/NewTemplates/admin_suite_dataset.py:223 | the query with every line feed, carriage return and tab removed |
| DatasetMetadata.FlatSqlClean | 2_Quick_Admin_Suite/Glue/NewTemplates/admin_suite_dataset.py:223 | the flattened query has none of those left, is no longer, and a query without them is unchanged |
| DatasetMetadata.TableLoop | 2_Quick_Admin_Suite/Glue/NewTemplates/admin_suite_dataset.py:188-227 | the table loop writes the rows of `TablesRows` and stops at the first exception |
| DatasetMetadata.TablesRaised | 2_Quick_Admin_Suite/Glue/NewTemplates/admin_suite_dataset.py:188-227 | once a table raises, no later table adds a row |
| DatasetMetadata.LineageLoop | 2_Quick_Admin_Suite/Glue/NewTemplates/admin_suite_dataset.py:148-237 | the dashboard loop gives `Lineage`: the rows of every dashboard, or the exception that ends the script |
| DatasetMetadata.LineageWide | 2_Quick_Admin_Suite/Glue/NewTemplates/admin_suite_dataset.py:207-227 | every lineage row has thirteen cells |
| DatasetMetadata.RelationalRow | 2_Quick_Admin_Suite/Glue/NewTemplates/admin_suite_dataset.py:190-208 | a relational table gives one row with its data source and `N/A` for each missing catalog, schema or name |
| DatasetMetadata.CustomSqlRow | 2_Quick_Admin_Suite/Glue/NewTemplates/admin_suite_dataset.py:210-227 | a custom query whose data source is gone gives `N/A` for the data source and catalog, and its SQL on one line |
| DatasetMetadata.UnknownDatasetSkipped | 2_Quick_Admin_Suite/Glue/NewTemplates/admin_suite_dataset.py:229-237 | a dataset the service does not know, or a flat-file error, adds no row and does not stop the script |
| DatasetMetadata.DictionaryRows | 2_Quick_Admin_Suite/Glue/NewTemplates/admin_suite_dataset.py:261-267 | one dictionary row per output column, with the column's name, type and description, or an empty cell for none |
| Arns.ArnRegion | 2_Quick_Admin_Suite/Glue/NewTemplates/admin_suite_dataset.py:257 | the fourth colon field of the ARN, or the IndexError when there are fewer than four; both dataset scripts read the region this way (admin_suite_ds_property.py:68 too) |
| DatasetMetadata.DescribeDataset | 2_Quick_Admin_Suite/Glue/NewTemplates/admin_suite_dataset.py:259-335 | the body of the dataset loop gives the step function's tables |
| DatasetMetadata.DescribePage | 2_Quick_Admin_Suite/Glue/NewTemplates/admin_suite_dataset.py:251-335 | the dataset loop over one page processes its datasets in order |
| DatasetMetadata.DatasetLoop | 2_Quick_Admin_Suite/Glue/NewTemplates/admin_suite_dataset.py:241-340 | the page loop gives the tables of all listed datasets, sending each non-empty token and resending none for an empty one |
| DatasetMetadata.RunJob | 2_Quick_Admin_Suite/Glue/NewTemplates/admin_suite_dataset.py:112-366 | a 404 bucket check exits with status 1, another error raises; otherwise the three objects under the prefix, only the properties file with its header |
| DatasetMetadata.StepShape | 2_Quick_Admin_Suite/Glue/NewTemplates/admin_suite_dataset.py:259-335 | rows are only appended; every property row has 16 cells and every dictionary row 5 |
| DatasetMetadata.ProcessShape | 2_Quick_Admin_Suite/Glue/NewTemplates/admin_suite_dataset.py:243-340 | the same holds for the whole dataset loop |
| DatasetMetadata.NoIngestionsNoRow | 2_Quick_Admin_Suite/Glue/NewTemplates/admin_suite_dataset.py:270-274 | a SPICE dataset without ingestions writes its dictionary rows and no property row |
| DatasetMetadata.UnhandledStatusNoRow | 2_Quick_Admin_Suite/Glue/NewTemplates/admin_suite_dataset.py:295-320 | a status outside the six handled ones writes no property row |
| DatasetMetadata.HandledStatusRow | 2_Quick_Admin_Suite/Glue/NewTemplates/admin_suite_dataset.py:295-320 | a handled status writes a row once the capacity is assigned: `0` for a completed refresh's missing counts, the shortened message for a failed one |
| DatasetMetadata.DirectQueryRowCells | 2_Quick_Admin_Suite/Glue/NewTemplates/admin_suite_dataset.py:323-325 | a DIRECT_QUERY row reports capacity `0`, no error and no file flag |
| DatasetMetadata.ClientErrorSkips | 2_Quick_Admin_Suite/Glue/NewTemplates/admin_suite_dataset.py:327-330 | a dataset whose describe or ingestion listing raises a ClientError keeps what it wrote and adds nothing more |
| DatasetMetadata.StaleCapacity | 2_Quick_Admin_Suite/Glue/NewTemplates/admin_suite_dataset.py:281-293 | a SPICE dataset without capacity and without a failed refresh keeps the previous capacity and file flag |
| DatasetMetadata.UploadedKeys | 2_Quick_Admin_Suite/Glue/NewTemplates/admin_suite_dataset.py:130-136 | the three keys sit under the output path's prefix |
| DatasetProperty.GranteeOf | 2_Quick_Admin_Suite/Glue/admin_suite_ds_property.py:110-126 | a principal without `/` raises; one with three or four parts gives the type, principal and additional info cells; any other count gives no row |
| DatasetProperty.UserGrantee | 2_Quick_Admin_Suite/Glue/admin_suite_ds_property.py:110-122 | a QuickSight user ARN gives type `user`, the user name and the namespace |
| DatasetProperty.StatusCellsOf | 2_Quick_Admin_Suite/Glue/admin_suite_ds_property.py:100-211 | a completed refresh gives its row counts and time exactly when `RowInfo`, both counts and the time are present, else a KeyError; a failed one gives its error type and shortened message exactly when `ErrorInfo` and its `Type` are present, else a KeyError; the four in-progress statuses give empty cells and no error; any other status gives no cells |
| DatasetProperty.PermissionLoop | 2_Quick_Admin_Suite/Glue/admin_suite_ds_property.py:108-126 | the permission loop gives the rows of `PermissionRows` |
| DatasetProperty.ProcessDataset | 2_Quick_Admin_Suite/Glue/admin_suite_ds_property.py:60-238 | the body of the dataset loop is one step |
| DatasetProperty.ProcessPage | 2_Quick_Admin_Suite/Glue/admin_suite_ds_property.py:60-238 | the dataset loop over one page processes its datasets in order |
| DatasetProperty.CollectProperties | 2_Quick_Admin_Suite/Glue/admin_suite_ds_property.py:45-243 | the module-level loop is the dataset steps over every listed dataset up to the first absent token, or the first exception; each request after the first carries the previous token unless it is empty |
| DatasetProperty.RunJob | 2_Quick_Admin_Suite/Glue/admin_suite_ds_property.py:29-258 | the script fails exactly when the dataset loop raises; otherwise it writes the 20-column header and the rows to `admin-console-new-` plus the account id, under the fixed datasets-properties key |
| DatasetProperty.Counted | 2_Quick_Admin_Suite/Glue/admin_suite_ds_property.py:63 | each dataset is counted once and rows are only appended |
| DatasetProperty.StepWidth | 2_Quick_Admin_Suite/Glue/admin_suite_ds_property.py:101-238 | a SPICE dataset's rows have 20 cells; a DIRECT_QUERY dataset's rows have 20 or 21 |
| DatasetProperty.ProcessWidth | 2_Quick_Admin_Suite/Glue/admin_suite_ds_property.py:50-243 | every row written has 20 or 21 cells |
| DatasetProperty.DirectQueryOrphanRow | 2_Quick_Admin_Suite/Glue/admin_suite_ds_property.py:235-238 | a DIRECT_QUERY dataset without permissions gives one row of 21 cells, with `Orphaned` under `AdditionalInfo` |
| DatasetProperty.SpiceOrphanRow | 2_Quick_Admin_Suite/Glue/admin_suite_ds_property.py:127-131 | a SPICE dataset without permissions gives one 20-cell row with `Orphaned` under `Principal` |
| DatasetProperty.DirectQueryPermissionRow | 2_Quick_Admin_Suite/Glue/admin_suite_ds_property.py:224-233 | a four-part principal gives 20 aligned cells; a three-part one gives 21, with its type under `Principal` |
| DatasetProperty.UnhandledStatusNoRow | 2_Quick_Admin_Suite/Glue/admin_suite_ds_property.py:100-211 | an unhandled refresh status adds no row but still updates the capacity globals |
| DatasetProperty.Aborts | 2_Quick_Admin_Suite/Glue/admin_suite_ds_property.py:68-114 | a SPICE dataset without ingestions, a short ARN, or a first principal without `/` ends the script; the last holds for DIRECT_QUERY datasets and for SPICE datasets whose refresh status gives a row |
| DatasetProperty.StaleCapacity | 2_Quick_Admin_Suite/Glue/admin_suite_ds_property.py:83-98 | a dataset whose capacity is not found and whose refresh is not failed reports the previous dataset's capacity and file flag |
| Clock.IsoDateRoundTrip | 3_Agent_to_Deploy_Assets/lambda/export_assets/lambda_function.py:74-75 | the ISO date of a valid date reads back as that date |
| Clock.IsoDateInjective | 3_Agent_to_Deploy_Assets/lambda/export_assets/lambda_function.py:74-75 | distinct valid dates have distinct ISO texts |
| Clock.CompactStampRoundTrip | 3_Agent_to_Deploy_Assets/lambda/orchestrator/lambda_function.py:18 | the `%Y%m%d-%H%M%S` stamp reads back as its date and time |
| Clock.CompactStampInjective | 3_Agent_to_Deploy_Assets/lambda/orchestrator/lambda_function.py:18 | distinct times in seconds give distinct stamps |

## Left out

- AWS calls are not modelled as services. QuickSight, STS, S3 and Lambda answers are inputs: pages, per-id answer maps, poll sequences and invocation replies.
- The job store's DynamoDB calls are taken to succeed: `JobStatusManager` never raises. So the export GET route's 500 `Failed to retrieve job` answer is not modelled, and the orchestrator's handler is not modelled failing inside `create_job` or `update_job_status`.
- The Glue scripts' final S3 writes (`upload_file`, `put_object`) are taken to succeed. A failure there is not modelled.
- The store's table is an in-memory map, and `list_jobs`'s scan order and page choice are not determined.
- The clock, `uuid4` and the `time.sleep` between polls are parameters or are left out. The orchestrator's writes share one timestamp.
- Concurrency is left out: one handler runs against the table at a time. The read-modify-write in `add_step_result` is not modelled as racing.
- `json.loads` and `json.dumps` are a parser parameter and structured reply bodies. No JSON text is produced or parsed.
- Logging and `print` output are left out.
- CSV quoting and encoding are left out, as are the `|` delimiter of the lineage file and the temporary files. Rows are sequences of cells.
- The Glue job setup and commit are left out (`getResolvedOptions`, `job.init`, `job.commit`).
- Required summary and record fields (`DataSetId`, `Name` and so on) are taken to be present. A `KeyError` on them is not modelled; the optional fields the code reads with `get` and the ingestion and error fields are modelled.
- `IngestionId` is read and never used, so it is left out.
- The repeated `list_ingestions` calls inside the capacity lookup of the dataset-permission script are taken to return the same answer as the first.
- The combined dataset script's second `describe_data_set` call for a SPICE dataset's capacity (admin_suite_dataset.py:282) is taken to give the same answer as the first (line 261).
- The unused `list_datasets` call in the combined dataset script (admin_suite_dataset.py:240) is left out.
- Dashboard fields other than name, source entity ARN and dataset ARNs are left out.
- The other copies of the executors in other CDK output directories are left out, as are the topic scripts that duplicate admin_suite_q.py and the data-source property script.
- The CDK stacks, the web UI and the driver scripts are left out.
- Only `compare_output_columns` is modelled from the column comparison script. Its file loading and printing are left out.
- JobStore.JobStatusManager.ListJobs: states only that the page holds distinct stored records within the limit, because the scan order is not modelled.
