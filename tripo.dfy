/** The Tripo job handlers: the dispatcher, which starts a PREVIEW job's first task, and the
    poll endpoint, which reconciles a job with the task it is waiting for. */
module Tripo {
  import opened Wrappers
  import opened Json
  import opened Jobs
  import opened Reconcile
  import opened TripoConfig
  import Storage

  /** What the outside world answers during one poll: the raw body of the task read (or the
      message the fetch threw), the raw body of the create-task response (or its thrown
      message), the storage transfers, `ASSET_MAX_MB`, the error of the asset-row update, and
      the current time. */
  datatype TripoIo = TripoIo(
    fetched: Result<Value, string>,
    created: Result<Value, string>,
    transfer: Storage.TransferIo,
    maxMb: Option<JsNum>,
    assetUpdateError: Option<string>,
    now: string)

  const MissingTaskId := "Tripo response missing task_id"

  /** `getTripoTask` on a response that is not `null`: its `data`, or `{}` when it is missing. */
  function TaskOf(response: Value): Value {
    Nullish(Get(Props(response), "data"), Obj(map[]))
  }

  /** `getTripoTask` after the request: the task, or the message the fetch threw. A `null`
      body makes `data.data` throw. */
  function ReadTask(fetched: Result<Value, string>): (r: Result<Value, string>)
    ensures fetched.Failure? ==> r == fetched
    ensures fetched.Success? ==> (r.Failure? <==> fetched.value.Null?)
    ensures fetched.Success? && r.Failure? ==> r.error == NullRead("data")
    ensures r.Success? ==> fetched.Success? && r.value == TaskOf(fetched.value)
  {
    match fetched
    case Failure(m) => Failure(m)
    case Success(response) => if response.Null? then Failure(NullRead("data")) else Success(TaskOf(response))
  }

  /** `createTripoTask` after the request: `data.task_id` must be a non-empty string, else
      the call throws; a `null` body makes `data.data` itself throw. */
  function CreatedTaskId(response: Result<Value, string>): (r: Result<string, string>)
    ensures response.Failure? ==> r == Failure(response.error)
    ensures response.Success? && r.Failure? ==>
              r.error == (if response.value.Null? then NullRead("data") else MissingTaskId)
    ensures r.Success? ==> r.value != "" && response.Success?
                           && Get(Props(Get(Props(response.value), "data").GetOr(Null)), "task_id") == Some(Str(r.value))
  {
    match response
    case Failure(m) => Failure(m)
    case Success(body) =>
      if body.Null? then Failure(NullRead("data"))
      else
        var taskId := Get(Props(Get(Props(body), "data").GetOr(Null)), "task_id");
        if Truthy(taskId) && taskId.value.Str? then Success(taskId.value.s) else Failure(MissingTaskId)
  }

  /** The mesh URL of a finished task: the first string among `output.pbr_model`,
      `output.model` and `output.base_model`. */
  function MeshUrl(task: Value): (url: Option<string>)
    ensures var output := Props(Nullish(Get(Props(task), "output"), Obj(map[])));
      && (GetString(output, "pbr_model").Some? ==> url == GetString(output, "pbr_model"))
      && (GetString(output, "pbr_model").None? && GetString(output, "model").Some? ==> url == GetString(output, "model"))
      && (GetString(output, "pbr_model").None? && GetString(output, "model").None? ==> url == GetString(output, "base_model"))
  {
    var output := Props(Nullish(Get(Props(task), "output"), Obj(map[])));
    match GetString(output, "pbr_model")
    case Some(u) => Some(u)
    case None =>
      match GetString(output, "model")
      case Some(u) => Some(u)
      case None => GetString(output, "base_model")
  }

  /** `updateAssetFromTask`: nothing without an asset; otherwise `source_job_id`, the mesh URL
      when there is one, and its stored copy when storing is on. A failed asset write is not
      reported. */
  function AssetUpdate(w: World, task: Value, io: TripoIo): World {
    var job := w.job;
    if job.assetId.None? || job.assetId.value == "" then w
    else
      var mesh := MeshUrl(task);
      var urls: map<Storage.Channel, string> := if mesh.Some? && mesh.value != "" then map[Storage.Mesh := mesh.value] else map[];
      var fields := AssetFields(job.id, urls);
      var (w1, f1) := if urls != map[] && ShouldStoreAssets(job.requestPayload)
        then StoreStep(w, job.assetId.value, urls, fields, io.maxMb, io.transfer)
        else (w, fields);
      if io.assetUpdateError.None? then WithAssetWrite(w1, AssetWrite(job.assetId.value, f1)) else w1
  }

  function FinishOutcome(w: World, stage: Stage, key: string, task: Value, io: TripoIo): Outcome {
    Outcome(AssetUpdate(FinishStep(w, stage, key, task, io.now), task, io), Progress(w.job.id, stage, Succeeded))
  }

  /** One create call, whose request is also what is recorded; a throw goes to the catch
      block, which refunds. */
  function AdvanceOutcome(w: World, request: Record, next: Stage, resultKey: string, markerKey: string,
                          requestKey: string, task: Value, io: TripoIo): Outcome
  {
    var w1 := WithCall(w, CreateTask(TripoTask, request));
    match CreatedTaskId(io.created)
    case Failure(m) => CatchStep(w1, m, true)
    case Success(id) => AdvanceStep(w1, next, id, AdvancePatch(resultKey, markerKey, requestKey, task, id, Obj(request)), Obj(request))
  }

  function PreviewOutcome(w: World, taskId: string, task: Value, io: TripoIo): Outcome {
    var cfg := RefineConfig(w.job.requestPayload.GetOr(map[]));
    if !cfg.enabled then FinishOutcome(w, Preview, "preview_result", task, io)
    else match Marker(w.job.resultPayload, "refine_task_id")
      case Some(id) => ResumeStep(w, Refine, id)
      case None =>
        AdvanceOutcome(w, RefineRequest(cfg.payload, taskId), Refine, "preview_result", "refine_task_id", "refine_request", task, io)
  }

  function RefineOutcome(w: World, taskId: string, task: Value, io: TripoIo): Outcome {
    var cfg := RemeshConfig(w.job.requestPayload.GetOr(map[]));
    if !cfg.enabled then FinishOutcome(w, Refine, "refine_result", task, io)
    else match Marker(w.job.resultPayload, "remesh_task_id")
      case Some(id) => ResumeStep(w, Remesh, id)
      case None =>
        AdvanceOutcome(w, RemeshRequest(cfg.payload, taskId), Remesh, "refine_result", "remesh_task_id", "remesh_request", task, io)
  }

  function SucceededOutcome(w: World, taskId: string, task: Value, io: TripoIo): Outcome {
    match w.job.stage
    case Preview => PreviewOutcome(w, taskId, task, io)
    case Refine => RefineOutcome(w, taskId, task, io)
    case Remesh => FinishOutcome(w, Remesh, "remesh_result", task, io)
  }

  /** FAILED's error message: `"Tripo task " + status` for a string status, else a fixed one. */
  function FailureMessage(status: Option<Value>): string {
    if status.Some? && status.value.Str? then "Tripo task " + status.value.s else "Tripo task failed"
  }

  /** The `try` block of the poll handler, reading task `taskId`. */
  function ReconcileOutcome(w: World, taskId: string, io: TripoIo): Outcome {
    var w1 := WithCall(w, GetTask(TripoTask, taskId));
    match ReadTask(io.fetched)
    case Failure(m) => CatchStep(w1, m, true)
    case Success(task) =>
      var status := Get(Props(task), "status");
      match MapTripoStatus(status)
      case InProgress => InProgressStep(w1, task, "Tripo task in progress")
      case Failed =>
        TerminateStep(w1, Failed, Some(Str(FailureMessage(status))), task, io.now,
                      map["message" := Nullish(status, Str("failed"))])
      case Cancelled => TerminateStep(w1, Cancelled, None, task, io.now, map["message" := Str("cancelled")])
      case Succeeded => SucceededOutcome(w1, taskId, task, io)
      case Queued => Outcome(w1, Error(500, "Unhandled task status"))
  }

  /** The poll handler from its provider check on. */
  function PollOutcome(w: World, io: TripoIo): Outcome {
    var job := w.job;
    if job.provider != Tripo then Outcome(w, Error(400, "Unsupported provider"))
    else if IsTerminal(job.status) then Outcome(w, Progress(job.id, job.stage, job.status))
    else if job.providerTaskId.None? || job.providerTaskId.value == "" then
      Outcome(w, Error(409, "provider_task_id missing for job"))
    else ReconcileOutcome(w, job.providerTaskId.value, io)
  }

  // ---------------------------------------------------------------------------------------
  // The dispatcher.

  /** What the outside world answers during one dispatch: the create-task response, the error
      of the job update, and the current time. */
  datatype DispatchIo = DispatchIo(created: Result<Value, string>, updateError: Option<string>, now: string)

  /** The dispatcher from its provider check on. */
  function DispatchOutcome(w: World, io: DispatchIo): Outcome {
    var job := w.job;
    if job.provider != Tripo then Outcome(w, Error(400, "Unsupported provider"))
    else if job.stage != Preview then Outcome(w, Error(409, "Job stage is not PREVIEW"))
    else if job.status != Queued && job.status != Failed then Outcome(w, AlreadyInProgress(job.status))
    else match BuildPreviewPayload(job.requestPayload)
      case Failure(m) => Outcome(w, Error(400, m))
      case Success(request) =>
        var w1 := WithCall(w, CreateTask(TripoTask, request));
        match CreatedTaskId(io.created)
        case Failure(m) =>
          var w2 := WithRefund(WithUpdate(w1, JobUpdate(None, Some(Failed), None, None, Some(Str(m)), None, None)));
          Outcome(WithEvent(w2, EventOf(job, Preview, Failed, job.providerTaskId, map["error" := Str(m)])), Error(500, m))
        case Success(id) =>
          if io.updateError.Some? then Outcome(w1, Error(500, "Failed to update job"))
          else
            var rp := MergeResult(job.resultPayload, map["preview_task_id" := Str(id), "preview_request" := Obj(request)]);
            var w2 := WithUpdate(w1, JobUpdate(None, Some(InProgress), Some(id), Some(rp), None, Some(io.now), None));
            Outcome(WithEvent(w2, EventOf(job, Preview, InProgress, Some(id), map["request" := Obj(request)])),
                    Dispatched(job.id, id))
  }

  // ---------------------------------------------------------------------------------------
  // The handlers as they run.

  method UpdateAssetFromTask(b: Backend, task: Value, io: TripoIo)
    modifies b
    ensures b.State() == AssetUpdate(old(b.State()), task, io)
  {
    var job := b.job;
    if job.assetId.None? || job.assetId.value == "" {
      return;
    }
    var meshUrl := MeshUrl(task);
    var urls: map<Storage.Channel, string> := map[];
    if meshUrl.Some? && meshUrl.value != "" {
      urls := map[Storage.Mesh := meshUrl.value];
    }
    var fields := BuildAssetFields(job.id, urls);
    if urls != map[] && ShouldStoreAssets(job.requestPayload) {
      fields := Store(b, job.assetId.value, urls, fields, io.maxMb, io.transfer);
    }
    if io.assetUpdateError.None? {
      b.WriteAsset(AssetWrite(job.assetId.value, fields));
    }
  }

  method FinishStage(b: Backend, stage: Stage, key: string, task: Value, io: TripoIo) returns (reply: Reply)
    modifies b
    ensures Outcome(b.State(), reply) == FinishOutcome(old(b.State()), stage, key, task, io)
  {
    reply := Progress(b.job.id, stage, Succeeded);
    Finish(b, stage, key, task, io.now);
    UpdateAssetFromTask(b, task, io);
  }

  method AdvanceStage(b: Backend, request: Record, next: Stage, resultKey: string, markerKey: string,
                      requestKey: string, task: Value, io: TripoIo) returns (reply: Reply)
    modifies b
    ensures Outcome(b.State(), reply) ==
            AdvanceOutcome(old(b.State()), request, next, resultKey, markerKey, requestKey, task, io)
  {
    b.CallProvider(CreateTask(TripoTask, request));
    match CreatedTaskId(io.created)
    case Failure(m) =>
      reply := Catch(b, m, true);
    case Success(id) =>
      reply := Advance(b, next, id, AdvancePatch(resultKey, markerKey, requestKey, task, id, Obj(request)), Obj(request));
  }

  method OnSucceeded(b: Backend, taskId: string, task: Value, io: TripoIo) returns (reply: Reply)
    modifies b
    ensures Outcome(b.State(), reply) == SucceededOutcome(old(b.State()), taskId, task, io)
  {
    match b.job.stage
    case Preview =>
      reply := OnPreviewSucceeded(b, taskId, task, io);
    case Refine =>
      reply := OnRefineSucceeded(b, taskId, task, io);
    case Remesh =>
      reply := FinishStage(b, Remesh, "remesh_result", task, io);
  }

  /** PREVIEW succeeded: finish, resume a recorded refine task, or create one. */
  method OnPreviewSucceeded(b: Backend, taskId: string, task: Value, io: TripoIo) returns (reply: Reply)
    modifies b
    ensures Outcome(b.State(), reply) == PreviewOutcome(old(b.State()), taskId, task, io)
  {
    var job := b.job;
    var payload := job.requestPayload.GetOr(map[]);
    var cfg := RefineConfig(payload);
    if !cfg.enabled {
      reply := FinishStage(b, Preview, "preview_result", task, io);
      return;
    }
    var existing := Marker(job.resultPayload, "refine_task_id");
    if existing.Some? {
      reply := Resume(b, Refine, existing.value);
      return;
    }
    reply := AdvanceStage(b, RefineRequest(cfg.payload, taskId), Refine, "preview_result", "refine_task_id",
                          "refine_request", task, io);
  }

  /** REFINE succeeded: finish, resume a recorded remesh task, or create one. */
  method OnRefineSucceeded(b: Backend, taskId: string, task: Value, io: TripoIo) returns (reply: Reply)
    modifies b
    ensures Outcome(b.State(), reply) == RefineOutcome(old(b.State()), taskId, task, io)
  {
    var job := b.job;
    var payload := job.requestPayload.GetOr(map[]);
    var cfg := RemeshConfig(payload);
    if !cfg.enabled {
      reply := FinishStage(b, Refine, "refine_result", task, io);
      return;
    }
    var existing := Marker(job.resultPayload, "remesh_task_id");
    if existing.Some? {
      reply := Resume(b, Remesh, existing.value);
      return;
    }
    reply := AdvanceStage(b, RemeshRequest(cfg.payload, taskId), Remesh, "refine_result", "remesh_task_id",
                          "remesh_request", task, io);
  }

  method ReconcileTask(b: Backend, taskId: string, io: TripoIo) returns (reply: Reply)
    modifies b
    ensures Outcome(b.State(), reply) == ReconcileOutcome(old(b.State()), taskId, io)
  {
    b.CallProvider(GetTask(TripoTask, taskId));
    match ReadTask(io.fetched)
    case Failure(m) =>
      reply := Catch(b, m, true);
    case Success(task) =>
      var status := Get(Props(task), "status");
      var mapped := MapTripoStatus(status);
      if mapped == InProgress {
        reply := StayInProgress(b, task, "Tripo task in progress");
      } else if mapped == Failed {
        reply := Terminate(b, Failed, Some(Str(FailureMessage(status))), task, io.now,
                           map["message" := Nullish(status, Str("failed"))]);
      } else if mapped == Cancelled {
        reply := Terminate(b, Cancelled, None, task, io.now, map["message" := Str("cancelled")]);
      } else if mapped == Succeeded {
        reply := OnSucceeded(b, taskId, task, io);
      } else {
        reply := Error(500, "Unhandled task status");
      }
  }

  /** The poll handler on a loaded job. */
  method Poll(b: Backend, io: TripoIo) returns (reply: Reply)
    modifies b
    ensures Outcome(b.State(), reply) == PollOutcome(old(b.State()), io)
  {
    var job := b.job;
    if job.provider != Tripo {
      return Error(400, "Unsupported provider");
    }
    if IsTerminal(job.status) {
      return Progress(job.id, job.stage, job.status);
    }
    if job.providerTaskId.None? || job.providerTaskId.value == "" {
      return Error(409, "provider_task_id missing for job");
    }
    reply := ReconcileTask(b, job.providerTaskId.value, io);
  }

  /** The dispatcher on a loaded job. */
  method Dispatch(b: Backend, io: DispatchIo) returns (reply: Reply)
    modifies b
    ensures Outcome(b.State(), reply) == DispatchOutcome(old(b.State()), io)
  {
    var job := b.job;
    if job.provider != Tripo {
      return Error(400, "Unsupported provider");
    }
    if job.stage != Preview {
      return Error(409, "Job stage is not PREVIEW");
    }
    if job.status != Queued && job.status != Failed {
      return AlreadyInProgress(job.status);
    }
    var built := BuildPreviewPayload(job.requestPayload);
    if built.Failure? {
      return Error(400, built.error);
    }
    var request := built.value;
    b.CallProvider(CreateTask(TripoTask, request));
    var created := CreatedTaskId(io.created);
    match created
    case Failure(m) =>
      b.UpdateJob(JobUpdate(None, Some(Failed), None, None, Some(Str(m)), None, None));
      b.RefundCredits();
      b.LogEvent(EventOf(job, Preview, Failed, job.providerTaskId, map["error" := Str(m)]));
      reply := Error(500, m);
    case Success(id) =>
      if io.updateError.Some? {
        return Error(500, "Failed to update job");
      }
      var rp := MergeResult(job.resultPayload, map["preview_task_id" := Str(id), "preview_request" := Obj(request)]);
      b.UpdateJob(JobUpdate(None, Some(InProgress), Some(id), Some(rp), None, Some(io.now), None));
      b.LogEvent(EventOf(job, Preview, InProgress, Some(id), map["request" := Obj(request)]));
      reply := Dispatched(job.id, id);
  }
}
