/** The Meshy job handlers: the poll endpoint, keyed by a job id, and the webhook, keyed by the
    task id Meshy sends. Both run the same reconcile body on the job and the task they fetch;
    they differ in their gates and in which task id they fetch and pass on. */
module Meshy {
  import opened Wrappers
  import opened Json
  import opened Jobs
  import opened Reconcile
  import opened MeshyConfig
  import Storage
  import Auth

  /** What the outside world answers during one run: the fetched task (or the message the
      fetch threw), the body of the create-task response (or its thrown message), the storage
      transfers, `ASSET_MAX_MB`, the error of the asset-row update, and the current time. */
  datatype MeshyIo = MeshyIo(
    fetched: Result<Value, string>,
    created: Result<Value, string>,
    transfer: Storage.TransferIo,
    maxMb: Option<JsNum>,
    assetUpdateError: Option<string>,
    now: string)

  const TextTo3DMissingId := "Meshy response missing result task id"
  const RemeshMissingId := "Meshy remesh response missing result task id"

  /** `createTextTo3DTask` / `createRemeshTask` after the request: the response's `result`
      must be a non-empty string, else the call throws `missing`; a `null` body makes
      `data.result` itself throw. */
  function CreatedTaskId(response: Result<Value, string>, missing: string): (r: Result<string, string>)
    ensures response.Failure? ==> r == Failure(response.error)
    ensures response.Success? && r.Failure? ==>
              r.error == (if response.value.Null? then NullRead("result") else missing)
    ensures r.Success? ==> r.value != "" && response.Success?
                           && Get(Props(response.value), "result") == Some(Str(r.value))
  {
    match response
    case Failure(m) => Failure(m)
    case Success(data) =>
      if data.Null? then Failure(NullRead("result"))
      else
        var result := Get(Props(data), "result");
        if Truthy(result) && result.value.Str? then Success(result.value.s) else Failure(missing)
  }

  /** The task the reconcile body works on: the fetched body, or the message the fetch threw.
      A `null` body makes the first read of it, `task.status`, throw. */
  function ReadTask(fetched: Result<Value, string>): (r: Result<Value, string>)
    ensures fetched.Failure? ==> r == fetched
    ensures fetched.Success? ==> (r.Failure? <==> fetched.value.Null?)
    ensures fetched.Success? && r.Failure? ==> r.error == NullRead("status")
    ensures r.Success? ==> r == fetched
  {
    match fetched
    case Failure(m) => Failure(m)
    case Success(task) => if task.Null? then Failure(NullRead("status")) else Success(task)
  }

  /** `task.model_urls?.fbx ?? task.model_urls?.glb ?? null`. */
  function MeshUrl(task: Value): Value {
    var models := Props(Get(Props(task), "model_urls").GetOr(Null));
    Nullish(Get(models, "fbx"), Nullish(Get(models, "glb"), Null))
  }

  /** An entry for channel `c` when the chosen value is a string. */
  function UrlEntry(c: Storage.Channel, v: Option<Value>): map<Storage.Channel, string> {
    if v.Some? && v.value.Str? then map[c := v.value.s] else map[]
  }

  /** The five URLs `updateAssetFromTask` reads from a finished task. */
  function ChannelUrls(task: Value): map<Storage.Channel, string> {
    var textures := Get(Props(task), "texture_urls");
    UrlEntry(Storage.Mesh, Some(MeshUrl(task)))
      + UrlEntry(Storage.Albedo, PickTexture(textures, AlbedoKeys))
      + UrlEntry(Storage.Metalness, PickTexture(textures, MetalnessKeys))
      + UrlEntry(Storage.Roughness, PickTexture(textures, RoughnessKeys))
      + UrlEntry(Storage.Normal, PickTexture(textures, NormalKeys))
  }

  /** `updateAssetFromTask`: nothing without an asset; otherwise the asset fields, the stored
      copies when storing is on, and the asset write, or the job's error message when the
      write fails. */
  function AssetUpdate(w: World, task: Value, io: MeshyIo): World {
    var job := w.job;
    if job.assetId.None? || job.assetId.value == "" then w
    else
      var urls := ChannelUrls(task);
      var fields := AssetFields(job.id, urls);
      var (w1, f1) := if ShouldStoreAssets(job.requestPayload)
        then StoreStep(w, job.assetId.value, urls, fields, io.maxMb, io.transfer)
        else (w, fields);
      match io.assetUpdateError
      case None => WithAssetWrite(w1, AssetWrite(job.assetId.value, f1))
      case Some(e) => WithUpdate(w1, SetError("Asset update failed: " + e))
  }

  /** The job finishes at `stage`, then the asset row is updated. */
  function FinishOutcome(w: World, stage: Stage, key: string, task: Value, io: MeshyIo): Outcome {
    Outcome(AssetUpdate(FinishStep(w, stage, key, task, io.now), task, io), Progress(w.job.id, stage, Succeeded))
  }

  /** One create call; its id moves the job to `next`, a throw goes to the catch block. */
  function AdvanceOutcome(w: World, endpoint: Endpoint, request: Record, recorded: Record, next: Stage,
                          resultKey: string, markerKey: string, requestKey: string, task: Value,
                          io: MeshyIo, missing: string): Outcome
  {
    var w1 := WithCall(w, CreateTask(endpoint, request));
    match CreatedTaskId(io.created, missing)
    case Failure(m) => CatchStep(w1, m, false)
    case Success(id) => AdvanceStep(w1, next, id, AdvancePatch(resultKey, markerKey, requestKey, task, id, Obj(recorded)), Obj(recorded))
  }

  /** PREVIEW succeeded: finish when refine is off, resume a refine task created earlier, or
      create one from the preview task `taskId`. */
  function PreviewOutcome(w: World, taskId: string, task: Value, io: MeshyIo): Outcome {
    var cfg := RefineConfig(w.job.requestPayload.GetOr(map[]));
    if !cfg.enabled then FinishOutcome(w, Preview, "preview_result", task, io)
    else match Marker(w.job.resultPayload, "refine_task_id")
      case Some(id) => ResumeStep(w, Refine, id)
      case None =>
        AdvanceOutcome(w, MeshyTextTo3D, cfg.payload["preview_task_id" := Str(taskId)], cfg.payload, Refine,
                       "preview_result", "refine_task_id", "refine_request", task, io, TextTo3DMissingId)
  }

  /** REFINE succeeded: finish when remesh is off, resume a remesh task created earlier, or
      create one from the refine task `taskId`. */
  function RefineOutcome(w: World, taskId: string, task: Value, io: MeshyIo): Outcome {
    var cfg := RemeshConfig(w.job.requestPayload.GetOr(map[]));
    if !cfg.enabled then FinishOutcome(w, Refine, "refine_result", task, io)
    else match Marker(w.job.resultPayload, "remesh_task_id")
      case Some(id) => ResumeStep(w, Remesh, id)
      case None =>
        AdvanceOutcome(w, MeshyRemesh, map["input_task_id" := Str(taskId)] + cfg.payload, cfg.payload, Remesh,
                       "refine_result", "remesh_task_id", "remesh_request", task, io, RemeshMissingId)
  }

  function SucceededOutcome(w: World, taskId: string, task: Value, io: MeshyIo): Outcome {
    match w.job.stage
    case Preview => PreviewOutcome(w, taskId, task, io)
    case Refine => RefineOutcome(w, taskId, task, io)
    case Remesh => FinishOutcome(w, Remesh, "remesh_result", task, io)
  }

  /** The endpoint a stage's task is read from. */
  function FetchEndpoint(stage: Stage): Endpoint {
    if stage == Remesh then MeshyRemesh else MeshyTextTo3D
  }

  /** `task.status` as the handlers compare it. */
  function TaskStatus(task: Value): Option<Value> {
    Get(Props(task), "status")
  }

  /** `task.message ?? "Meshy task failed"`. */
  function FailureMessage(task: Value): Value {
    Nullish(Get(Props(task), "message"), Str("Meshy task failed"))
  }

  /** The `try` block both handlers run for a live job, reading task `taskId`. */
  function ReconcileOutcome(w: World, taskId: string, io: MeshyIo): Outcome {
    var w1 := WithCall(w, GetTask(FetchEndpoint(w.job.stage), taskId));
    match ReadTask(io.fetched)
    case Failure(m) => CatchStep(w1, m, false)
    case Success(task) =>
      var status := TaskStatus(task);
      if status == Some(Str("PENDING")) || status == Some(Str("IN_PROGRESS")) then
        InProgressStep(w1, task, "Meshy task in progress")
      else if status == Some(Str("FAILED")) then
        TerminateStep(w1, Failed, Some(FailureMessage(task)), task, io.now, map["message" := FailureMessage(task)])
      else if status == Some(Str("SUCCEEDED")) then
        SucceededOutcome(w1, taskId, task, io)
      else
        Outcome(w1, Error(500, "Unhandled task status"))
  }

  /** The poll handler from its provider check on: the job's own task id is the one read. */
  function PollOutcome(w: World, io: MeshyIo): Outcome {
    var job := w.job;
    if job.provider != Meshy then Outcome(w, Error(400, "Unsupported provider"))
    else if IsTerminal(job.status) then Outcome(w, Progress(job.id, job.stage, job.status))
    else if job.providerTaskId.None? || job.providerTaskId.value == "" then
      Outcome(w, Error(409, "provider_task_id missing for job"))
    else ReconcileOutcome(w, job.providerTaskId.value, io)
  }

  // ---------------------------------------------------------------------------------------
  // The webhook's gates.

  /** A candidate task id: a non-empty string. */
  predicate IsTaskId(v: Option<Value>) {
    v.Some? && v.value.Str? && v.value.s != ""
  }

  /** The first candidate that is a non-empty string. */
  function FirstTaskId(candidates: seq<Option<Value>>): (id: Option<string>)
    ensures id.None? <==> forall i :: 0 <= i < |candidates| ==> !IsTaskId(candidates[i])
    ensures id.Some? ==> exists i :: 0 <= i < |candidates| && candidates[i] == Some(Str(id.value))
                                     && id.value != "" && (forall j :: 0 <= j < i ==> !IsTaskId(candidates[j]))
    decreases |candidates|
  {
    if candidates == [] then None
    else if IsTaskId(candidates[0]) then Some(candidates[0].value.s)
    else
      assert forall i :: 1 <= i < |candidates| ==> candidates[1..][i - 1] == candidates[i];
      FirstTaskId(candidates[1..])
  }

  /** `id`, `task_id`, `taskId`, `data.id`, `data.task_id`, in that order. */
  function Candidates(body: Record): seq<Option<Value>> {
    var data := Props(Get(body, "data").GetOr(Null));
    [Get(body, "id"), Get(body, "task_id"), Get(body, "taskId"), Get(data, "id"), Get(data, "task_id")]
  }

  /** `extractTaskId`. */
  method ExtractTaskId(body: Record) returns (taskId: Option<string>)
    ensures taskId == FirstTaskId(Candidates(body))
  {
    var candidates := Candidates(body);
    var i := 0;
    while i < |candidates|
      invariant 0 <= i <= |candidates|
      invariant FirstTaskId(candidates[i..]) == FirstTaskId(candidates)
    {
      var candidate := candidates[i];
      if candidate.Some? && candidate.value.Str? && |candidate.value.s| > 0 {
        return Some(candidate.value.s);
      }
      assert candidates[i..][1..] == candidates[i + 1..];
      i := i + 1;
    }
    return None;
  }

  /** The webhook call: its JSON body, its `x-meshy-webhook-secret` header, and the configured
      `MESHY_WEBHOOK_SECRET`. */
  datatype WebhookRequest = WebhookRequest(body: Record, secretHeader: Option<string>, globalSecret: Option<string>)

  /** `verifyPerUserSecret(...).ok`: with a header, the job must exist and its owner's stored
      secret must be set and equal to the header. `storedSecret` is the owner's
      `webhook_secret` for MESHY, None when there is no such row. */
  function PerUserSecretOk(secretHeader: Option<string>, jobFound: bool, storedSecret: Option<Value>): (ok: bool)
    ensures Auth.Unset(secretHeader) ==> ok
    ensures !Auth.Unset(secretHeader) ==> (ok <==> jobFound && storedSecret == Some(Str(secretHeader.value)))
  {
    if Auth.Unset(secretHeader) then true
    else if !jobFound then false
    else if !Truthy(storedSecret) then false
    else storedSecret.value == Str(secretHeader.value)
  }

  /** Whether the request may proceed: the global secret, or else a header matching the owner's. */
  predicate Authorised(req: WebhookRequest, jobFound: bool, storedSecret: Option<Value>) {
    Auth.AssertWebhookSecret(req.globalSecret, req.secretHeader)
    || (!Auth.Unset(req.secretHeader) && PerUserSecretOk(req.secretHeader, jobFound, storedSecret))
  }

  /** The webhook handler after the body is parsed. The job table is the one job of `w`: a
      lookup by `provider_task_id` finds it exactly when its task id is the one sent. */
  function WebhookOutcome(w: World, req: WebhookRequest, storedSecret: Option<Value>, io: MeshyIo): Outcome {
    match FirstTaskId(Candidates(req.body))
    case None => Outcome(w, Error(400, "task_id missing"))
    case Some(taskId) =>
      var found := w.job.providerTaskId == Some(taskId);
      if !Authorised(req, found, storedSecret) then Outcome(w, Error(401, "Unauthorized"))
      else if !found then Outcome(w, NoMatchingJob)
      else if IsTerminal(w.job.status) then Outcome(w, Progress(w.job.id, w.job.stage, w.job.status))
      else ReconcileOutcome(w, taskId, io)
  }

  // ---------------------------------------------------------------------------------------
  // The handlers as they run: each write goes to the backend in the source's order.

  method UpdateAssetFromTask(b: Backend, task: Value, io: MeshyIo)
    modifies b
    ensures b.State() == AssetUpdate(old(b.State()), task, io)
  {
    var job := b.job;
    if job.assetId.None? || job.assetId.value == "" {
      return;
    }
    var meshUrl := MeshUrl(task);
    var textures := Get(Props(task), "texture_urls");
    var textureUrl := PickTextureUrl(textures, AlbedoKeys);
    var metalnessUrl := PickTextureUrl(textures, MetalnessKeys);
    var roughnessUrl := PickTextureUrl(textures, RoughnessKeys);
    var normalUrl := PickTextureUrl(textures, NormalKeys);
    var urls := UrlEntry(Storage.Mesh, Some(meshUrl)) + UrlEntry(Storage.Albedo, textureUrl)
      + UrlEntry(Storage.Metalness, metalnessUrl) + UrlEntry(Storage.Roughness, roughnessUrl)
      + UrlEntry(Storage.Normal, normalUrl);
    var fields := BuildAssetFields(job.id, urls);
    if ShouldStoreAssets(job.requestPayload) {
      fields := Store(b, job.assetId.value, urls, fields, io.maxMb, io.transfer);
    }
    match io.assetUpdateError
    case None => b.WriteAsset(AssetWrite(job.assetId.value, fields));
    case Some(e) => b.UpdateJob(SetError("Asset update failed: " + e));
  }

  method FinishStage(b: Backend, stage: Stage, key: string, task: Value, io: MeshyIo) returns (reply: Reply)
    modifies b
    ensures Outcome(b.State(), reply) == FinishOutcome(old(b.State()), stage, key, task, io)
  {
    reply := Progress(b.job.id, stage, Succeeded);
    Finish(b, stage, key, task, io.now);
    UpdateAssetFromTask(b, task, io);
  }

  method AdvanceStage(b: Backend, endpoint: Endpoint, request: Record, recorded: Record, next: Stage,
                      resultKey: string, markerKey: string, requestKey: string, task: Value,
                      io: MeshyIo, missing: string) returns (reply: Reply)
    modifies b
    ensures Outcome(b.State(), reply) ==
            AdvanceOutcome(old(b.State()), endpoint, request, recorded, next, resultKey, markerKey, requestKey, task, io, missing)
  {
    b.CallProvider(CreateTask(endpoint, request));
    match CreatedTaskId(io.created, missing)
    case Failure(m) =>
      reply := Catch(b, m, false);
    case Success(id) =>
      reply := Advance(b, next, id, AdvancePatch(resultKey, markerKey, requestKey, task, id, Obj(recorded)), Obj(recorded));
  }

  method OnSucceeded(b: Backend, taskId: string, task: Value, io: MeshyIo) returns (reply: Reply)
    modifies b
    ensures Outcome(b.State(), reply) == SucceededOutcome(old(b.State()), taskId, task, io)
  {
    match b.job.stage
    case Preview =>
      reply := OnPreviewSucceeded(b, taskId, task, io);
    case Refine =>
      reply := OnRefineSucceeded(b, taskId, task, io);
    case Remesh =>
      reply := FinishStage(b, Remesh, "remesh_result", task, io);
  }

  /** PREVIEW succeeded: finish, resume a recorded refine task, or create one. */
  method OnPreviewSucceeded(b: Backend, taskId: string, task: Value, io: MeshyIo) returns (reply: Reply)
    modifies b
    ensures Outcome(b.State(), reply) == PreviewOutcome(old(b.State()), taskId, task, io)
  {
    var job := b.job;
    var payload := job.requestPayload.GetOr(map[]);
    var cfg := RefineConfig(payload);
    if !cfg.enabled {
      reply := FinishStage(b, Preview, "preview_result", task, io);
      return;
    }
    var existing := Marker(job.resultPayload, "refine_task_id");
    if existing.Some? {
      reply := Resume(b, Refine, existing.value);
      return;
    }
    reply := AdvanceStage(b, MeshyTextTo3D, cfg.payload["preview_task_id" := Str(taskId)], cfg.payload, Refine,
                          "preview_result", "refine_task_id", "refine_request", task, io, TextTo3DMissingId);
  }

  /** REFINE succeeded: finish, resume a recorded remesh task, or create one. */
  method OnRefineSucceeded(b: Backend, taskId: string, task: Value, io: MeshyIo) returns (reply: Reply)
    modifies b
    ensures Outcome(b.State(), reply) == RefineOutcome(old(b.State()), taskId, task, io)
  {
    var job := b.job;
    var payload := job.requestPayload.GetOr(map[]);
    var cfg := RemeshConfig(payload);
    if !cfg.enabled {
      reply := FinishStage(b, Refine, "refine_result", task, io);
      return;
    }
    var existing := Marker(job.resultPayload, "remesh_task_id");
    if existing.Some? {
      reply := Resume(b, Remesh, existing.value);
      return;
    }
    reply := AdvanceStage(b, MeshyRemesh, map["input_task_id" := Str(taskId)] + cfg.payload, cfg.payload, Remesh,
                          "refine_result", "remesh_task_id", "remesh_request", task, io, RemeshMissingId);
  }

  method ReconcileTask(b: Backend, taskId: string, io: MeshyIo) returns (reply: Reply)
    modifies b
    ensures Outcome(b.State(), reply) == ReconcileOutcome(old(b.State()), taskId, io)
  {
    b.CallProvider(GetTask(FetchEndpoint(b.job.stage), taskId));
    match ReadTask(io.fetched)
    case Failure(m) =>
      reply := Catch(b, m, false);
    case Success(task) =>
      var status := TaskStatus(task);
      if status == Some(Str("PENDING")) || status == Some(Str("IN_PROGRESS")) {
        reply := StayInProgress(b, task, "Meshy task in progress");
      } else if status == Some(Str("FAILED")) {
        var message := FailureMessage(task);
        reply := Terminate(b, Failed, Some(message), task, io.now, map["message" := message]);
      } else if status == Some(Str("SUCCEEDED")) {
        reply := OnSucceeded(b, taskId, task, io);
      } else {
        reply := Error(500, "Unhandled task status");
      }
  }

  /** The poll handler on a loaded job. */
  method Poll(b: Backend, io: MeshyIo) returns (reply: Reply)
    modifies b
    ensures Outcome(b.State(), reply) == PollOutcome(old(b.State()), io)
  {
    var job := b.job;
    if job.provider != Meshy {
      return Error(400, "Unsupported provider");
    }
    if IsTerminal(job.status) {
      return Progress(job.id, job.stage, job.status);
    }
    if job.providerTaskId.None? || job.providerTaskId.value == "" {
      return Error(409, "provider_task_id missing for job");
    }
    reply := ReconcileTask(b, job.providerTaskId.value, io);
  }

  /** The webhook handler on a parsed body. */
  method Webhook(b: Backend, req: WebhookRequest, storedSecret: Option<Value>, io: MeshyIo) returns (reply: Reply)
    modifies b
    ensures Outcome(b.State(), reply) == WebhookOutcome(old(b.State()), req, storedSecret, io)
  {
    var extracted := ExtractTaskId(req.body);
    if extracted.None? {
      return Error(400, "task_id missing");
    }
    var taskId := extracted.value;
    var globalOk := Auth.AssertWebhookSecret(req.globalSecret, req.secretHeader);
    if !globalOk && Auth.Unset(req.secretHeader) {
      return Error(401, "Unauthorized");
    }
    var found := b.job.providerTaskId == Some(taskId);
    if !globalOk && !Auth.Unset(req.secretHeader) {
      var ok := PerUserSecretOk(req.secretHeader, found, storedSecret);
      if !ok {
        return Error(401, "Unauthorized");
      }
    }
    if !found {
      return NoMatchingJob;
    }
    var job := b.job;
    if IsTerminal(job.status) {
      return Progress(job.id, job.stage, job.status);
    }
    reply := ReconcileTask(b, taskId, io);
  }
}
