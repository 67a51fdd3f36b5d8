/** What the Tripo poll handler and dispatcher promise, stated over their pure models. */
module TripoProps {
  import opened Wrappers
  import opened Json
  import opened Jobs
  import opened Reconcile
  import opened TripoConfig
  import opened Tripo
  import Storage

  /** The asset step touches only the asset writes, the uploads and the job's error message. */
  lemma AssetUpdateKeepsProgress(w: World, task: Value, io: TripoIo)
    ensures SameProgress(w, AssetUpdate(w, task, io))
  {
    var job := w.job;
    if job.assetId.Some? && job.assetId.value != "" {
      var mesh := MeshUrl(task);
      var urls: map<Storage.Channel, string> := if mesh.Some? && mesh.value != "" then map[Storage.Mesh := mesh.value] else map[];
      var fields := AssetFields(job.id, urls);
      if urls != map[] && ShouldStoreAssets(job.requestPayload) {
        assert SameProgress(w, StoreStep(w, job.assetId.value, urls, fields, io.maxMb, io.transfer).0);
      }
    }
  }

  /** Storage is attempted only for a job with an asset, a mesh URL and storing switched on;
      otherwise no upload happens. */
  lemma StoresOnlyWithMeshUrl(w: World, task: Value, io: TripoIo)
    requires MeshUrl(task).None? || MeshUrl(task) == Some("") || !ShouldStoreAssets(w.job.requestPayload)
    ensures AssetUpdate(w, task, io).uploads == w.uploads
    ensures AssetUpdate(w, task, io).job == w.job
  {
  }

  /** With an asset and storing off, the one asset write holds `source_job_id` and, when the
      task has a mesh URL, `mesh_url`. A failed write leaves no trace. */
  lemma AssetWriteFields(w: World, task: Value, io: TripoIo)
    requires w.job.assetId.Some? && w.job.assetId.value != "" && !ShouldStoreAssets(w.job.requestPayload)
    ensures var after := AssetUpdate(w, task, io);
      var mesh := MeshUrl(task);
      && (io.assetUpdateError.Some? ==> after == w)
      && (io.assetUpdateError.None? ==>
            && |after.assetWrites| == |w.assetWrites| + 1
            && var f := after.assetWrites[|w.assetWrites|].fields;
            && "source_job_id" in f && f["source_job_id"] == w.job.id
            && ("mesh_url" in f <==> mesh.Some? && mesh.value != "")
            && ("mesh_url" in f ==> f["mesh_url"] == mesh.value))
  {
    var mesh := MeshUrl(task);
    var urls: map<Storage.Channel, string> := if mesh.Some? && mesh.value != "" then map[Storage.Mesh := mesh.value] else map[];
    AssetFieldsShape(w.job.id, urls);
    assert Storage.UrlKey(Storage.Mesh) == "mesh_url";
  }

  // ---------------------------------------------------------------------------------------
  // The gates.

  /** A finished job is answered with its stored stage and status; nothing is read or written. */
  lemma PollLeavesTerminalJob(w: World, io: TripoIo)
    requires w.job.provider == Tripo && IsTerminal(w.job.status)
    ensures PollOutcome(w, io) == Outcome(w, Progress(w.job.id, w.job.stage, w.job.status))
  {
  }

  /** A job of another provider is refused, and a live job without a task id is a conflict. */
  lemma PollGates(w: World, io: TripoIo)
    ensures w.job.provider != Tripo ==> PollOutcome(w, io) == Outcome(w, Error(400, "Unsupported provider"))
    ensures w.job.provider == Tripo && !IsTerminal(w.job.status) && (w.job.providerTaskId.None? || w.job.providerTaskId == Some(""))
            ==> PollOutcome(w, io) == Outcome(w, Error(409, "provider_task_id missing for job"))
  {
  }

  // ---------------------------------------------------------------------------------------
  // The task's own status.

  /** The status of the task read. */
  function StatusOf(io: TripoIo): Option<Value>
    requires ReadTask(io.fetched).Success?
  {
    Get(Props(ReadTask(io.fetched).value), "status")
  }

  /** A queued or running task (or one with no status) keeps the job IN_PROGRESS, logging an
      event only when it was not IN_PROGRESS before; nothing is refunded. */
  lemma PendingTaskStaysInProgress(w: World, taskId: string, io: TripoIo)
    requires ReadTask(io.fetched).Success? && MapTripoStatus(StatusOf(io)) == InProgress
    ensures var o := ReconcileOutcome(w, taskId, io);
      var task := ReadTask(io.fetched).value;
      && o.reply == Progress(w.job.id, w.job.stage, InProgress)
      && o.world.job == w.job.(status := InProgress, resultPayload := Some(MergeResult(w.job.resultPayload, map["last_task" := task])))
      && o.world.calls == w.calls + [GetTask(TripoTask, taskId)]
      && o.world.refunds == w.refunds
      && (w.job.status == InProgress ==> o.world.events == w.events)
      && (w.job.status != InProgress ==>
            |o.world.events| == |w.events| + 1 && o.world.events[|w.events|].status == InProgress)
  {
  }

  /** A failed (or banned, expired, unknown) task fails the job with "Tripo task <status>", or
      "Tripo task failed" without a status string; one refund, one FAILED event. */
  lemma FailedTaskFailsJob(w: World, taskId: string, io: TripoIo)
    requires ReadTask(io.fetched).Success? && MapTripoStatus(StatusOf(io)) == Failed
    ensures var o := ReconcileOutcome(w, taskId, io);
      var status := StatusOf(io);
      && o.reply == Progress(w.job.id, w.job.stage, Failed)
      && o.world.job.status == Failed && o.world.job.completedAt == Some(io.now)
      && (status.Some? && status.value.Str? ==> o.world.job.errorMessage == Some(Str("Tripo task " + status.value.s)))
      && (!(status.Some? && status.value.Str?) ==> o.world.job.errorMessage == Some(Str("Tripo task failed")))
      && o.world.refunds == w.refunds + [w.job.id]
      && |o.world.events| == |w.events| + 1 && o.world.events[..|w.events|] == w.events
      && o.world.events[|w.events|].status == Failed
  {
  }

  /** A cancelled task cancels the job, leaving its error message as it was; one refund and one
      CANCELLED event saying "cancelled". */
  lemma CancelledTaskCancelsJob(w: World, taskId: string, io: TripoIo)
    requires ReadTask(io.fetched).Success? && StatusOf(io) == Some(Str("cancelled"))
    ensures var o := ReconcileOutcome(w, taskId, io);
      && o.reply == Progress(w.job.id, w.job.stage, Cancelled)
      && o.world.job.status == Cancelled && o.world.job.errorMessage == w.job.errorMessage
      && o.world.job.resultPayload == Some(MergeResult(w.job.resultPayload, map["last_task" := ReadTask(io.fetched).value]))
      && o.world.refunds == w.refunds + [w.job.id]
      && o.world.events == w.events + [EventOf(w.job, w.job.stage, Cancelled, w.job.providerTaskId, map["message" := Str("cancelled")])]
  {
  }

  /** A read that throws, or a `null` body whose `data` read throws, fails the job with the
      thrown message and, unlike Meshy, refunds. */
  lemma ReadFailureRefunds(w: World, taskId: string, io: TripoIo)
    requires ReadTask(io.fetched).Failure?
    ensures var o := ReconcileOutcome(w, taskId, io);
      && o.reply == Error(500, ReadTask(io.fetched).error)
      && o.world.job == w.job.(status := Failed, errorMessage := Some(Str(ReadTask(io.fetched).error)))
      && o.world.refunds == w.refunds + [w.job.id] && o.world.events == w.events
  {
  }

  // ---------------------------------------------------------------------------------------
  // A succeeded task.

  /** Finishing a stage writes SUCCEEDED at that stage; no provider call, no refund. */
  lemma FinishOutcomeEffects(w: World, stage: Stage, key: string, task: Value, io: TripoIo)
    ensures var o := FinishOutcome(w, stage, key, task, io);
      && o.reply == Progress(w.job.id, stage, Succeeded)
      && o.world.calls == w.calls && o.world.refunds == w.refunds
      && o.world.job.stage == w.job.stage && o.world.job.status == Succeeded
      && o.world.job.providerTaskId == w.job.providerTaskId
      && o.world.job.resultPayload == Some(MergeResult(w.job.resultPayload, map[key := task, "last_task" := task]))
  {
    AssetUpdateKeepsProgress(FinishStep(w, stage, key, task, io.now), task, io);
  }

  /** PREVIEW done with refine off: SUCCEEDED at PREVIEW, no task created. */
  lemma PreviewDoneWithoutRefine(w: World, taskId: string, io: TripoIo)
    requires ReadTask(io.fetched).Success? && StatusOf(io) == Some(Str("success"))
    requires w.job.stage == Preview && !RefineConfig(w.job.requestPayload.GetOr(map[])).enabled
    ensures var o := ReconcileOutcome(w, taskId, io);
      && o.reply == Progress(w.job.id, Preview, Succeeded)
      && o.world.job.stage == Preview && o.world.job.status == Succeeded
      && o.world.calls == w.calls + [GetTask(TripoTask, taskId)]
      && o.world.refunds == w.refunds
  {
    FinishOutcomeEffects(WithCall(w, GetTask(TripoTask, taskId)), Preview, "preview_result", ReadTask(io.fetched).value, io);
  }

  /** REMESH done: SUCCEEDED at REMESH with the task as `remesh_result`. */
  lemma RemeshDone(w: World, taskId: string, io: TripoIo)
    requires ReadTask(io.fetched).Success? && StatusOf(io) == Some(Str("success")) && w.job.stage == Remesh
    ensures var o := ReconcileOutcome(w, taskId, io);
      && o.reply == Progress(w.job.id, Remesh, Succeeded)
      && o.world.job.status == Succeeded
      && o.world.job.resultPayload.Some? && "remesh_result" in o.world.job.resultPayload.value
      && o.world.job.resultPayload.value["remesh_result"] == ReadTask(io.fetched).value
      && o.world.calls == w.calls + [GetTask(TripoTask, taskId)]
  {
    FinishOutcomeEffects(WithCall(w, GetTask(TripoTask, taskId)), Remesh, "remesh_result", ReadTask(io.fetched).value, io);
  }

  /** PREVIEW done, refine on, a refine task recorded earlier: REFINE on that task, nothing
      created. */
  lemma PreviewResumesRecordedRefine(w: World, taskId: string, io: TripoIo)
    requires ReadTask(io.fetched).Success? && StatusOf(io) == Some(Str("success"))
    requires w.job.stage == Preview && RefineConfig(w.job.requestPayload.GetOr(map[])).enabled
    requires Marker(w.job.resultPayload, "refine_task_id").Some?
    ensures var o := ReconcileOutcome(w, taskId, io);
      && o.world.job.stage == Refine && o.world.job.status == InProgress
      && o.world.job.providerTaskId == Marker(w.job.resultPayload, "refine_task_id")
      && o.world.calls == w.calls + [GetTask(TripoTask, taskId)]
      && o.world.refunds == w.refunds
  {
  }

  /** A task read back as "success" hands the job, with the read recorded, to the stage logic. */
  lemma SucceededReached(w: World, taskId: string, io: TripoIo)
    requires ReadTask(io.fetched).Success? && StatusOf(io) == Some(Str("success"))
    ensures ReconcileOutcome(w, taskId, io) ==
            SucceededOutcome(WithCall(w, GetTask(TripoTask, taskId)), taskId, ReadTask(io.fetched).value, io)
  {
    assert MapTripoStatus(StatusOf(io)) == Succeeded;
  }

  /** PREVIEW done with refine on and no refine task recorded goes to the refine create. */
  lemma PreviewAdvances(w: World, taskId: string, task: Value, io: TripoIo)
    requires w.job.stage == Preview && RefineConfig(w.job.requestPayload.GetOr(map[])).enabled
    requires Marker(w.job.resultPayload, "refine_task_id").None?
    ensures SucceededOutcome(w, taskId, task, io) ==
            AdvanceOutcome(w, RefineRequest(RefineConfig(w.job.requestPayload.GetOr(map[])).payload, taskId),
                           Refine, "preview_result", "refine_task_id", "refine_request", task, io)
  {
  }

  /** REFINE done with remesh on and no remesh task recorded goes to the remesh create. */
  lemma RefineAdvances(w: World, taskId: string, task: Value, io: TripoIo)
    requires w.job.stage == Refine && RemeshConfig(w.job.requestPayload.GetOr(map[])).enabled
    requires Marker(w.job.resultPayload, "remesh_task_id").None?
    ensures SucceededOutcome(w, taskId, task, io) ==
            AdvanceOutcome(w, RemeshRequest(RemeshConfig(w.job.requestPayload.GetOr(map[])).payload, taskId),
                           Remesh, "refine_result", "remesh_task_id", "remesh_request", task, io)
  {
  }

  /** A create answered with `id`: that create is the one call, and the job moves to `next`,
      IN_PROGRESS, with `id` as provider task id and under `markerKey`; nothing refunded. */
  lemma AdvanceEffects(w: World, request: Record, next: Stage, resultKey: string, markerKey: string,
                       requestKey: string, task: Value, io: TripoIo, id: string)
    requires CreatedTaskId(io.created) == Success(id)
    requires markerKey != resultKey && markerKey != requestKey && markerKey != "last_task"
    ensures var o := AdvanceOutcome(w, request, next, resultKey, markerKey, requestKey, task, io);
      && o.world.calls == w.calls + [CreateTask(TripoTask, request)]
      && o.world.job.stage == next && o.world.job.status == InProgress
      && o.world.job.providerTaskId == Some(id)
      && Marker(o.world.job.resultPayload, markerKey) == Some(id)
      && o.world.refunds == w.refunds
  {
    var patch := AdvancePatch(resultKey, markerKey, requestKey, task, id, Obj(request));
    assert patch[markerKey] == Str(id);
    assert MergeResult(w.job.resultPayload, patch)[markerKey] == Str(id);
  }

  /** A create that throws: the create is recorded, the job FAILED with the message, one refund. */
  lemma AdvanceFailureEffects(w: World, request: Record, next: Stage, resultKey: string, markerKey: string,
                              requestKey: string, task: Value, io: TripoIo)
    requires CreatedTaskId(io.created).Failure?
    ensures var o := AdvanceOutcome(w, request, next, resultKey, markerKey, requestKey, task, io);
      var m := CreatedTaskId(io.created).error;
      && o.reply == Error(500, m)
      && o.world.calls == w.calls + [CreateTask(TripoTask, request)]
      && o.world.job == w.job.(status := Failed, errorMessage := Some(Str(m)))
      && o.world.refunds == w.refunds + [w.job.id] && o.world.events == w.events
  {
  }

  /** PREVIEW done, refine on, nothing recorded, and the create answers with `id`: one
      `refine_model` task is created whose `draft_model_task_id` is the finished preview
      task, and `id` becomes both the provider task id and the `refine_task_id` marker. */
  lemma PreviewCreatesRefine(w: World, taskId: string, io: TripoIo, id: string)
    requires ReadTask(io.fetched).Success? && StatusOf(io) == Some(Str("success"))
    requires w.job.stage == Preview && RefineConfig(w.job.requestPayload.GetOr(map[])).enabled
    requires Marker(w.job.resultPayload, "refine_task_id").None?
    requires CreatedTaskId(io.created) == Success(id)
    ensures var o := ReconcileOutcome(w, taskId, io);
      var request := RefineRequest(RefineConfig(w.job.requestPayload.GetOr(map[])).payload, taskId);
      && o.world.calls == w.calls + [GetTask(TripoTask, taskId), CreateTask(TripoTask, request)]
      && request["type"] == Str("refine_model") && request["draft_model_task_id"] == Str(taskId)
      && o.world.job.stage == Refine && o.world.job.status == InProgress
      && o.world.job.providerTaskId == Some(id)
      && Marker(o.world.job.resultPayload, "refine_task_id") == Some(id)
      && o.world.refunds == w.refunds
  {
    var w1 := WithCall(w, GetTask(TripoTask, taskId));
    var request := RefineRequest(RefineConfig(w.job.requestPayload.GetOr(map[])).payload, taskId);
    SucceededReached(w, taskId, io);
    PreviewAdvances(w1, taskId, ReadTask(io.fetched).value, io);
    AdvanceEffects(w1, request, Refine, "preview_result", "refine_task_id", "refine_request", ReadTask(io.fetched).value, io, id);
    CallsInOrder(w.calls, GetTask(TripoTask, taskId), CreateTask(TripoTask, request));
  }

  /** REFINE done, remesh on, nothing recorded, and the create answers with `id`: one
      `convert_model` task is created from the refine task with `face_limit` equal to the
      resolved polycount, and `id` becomes the provider task id and the `remesh_task_id`
      marker. */
  lemma RefineCreatesRemesh(w: World, taskId: string, io: TripoIo, id: string)
    requires ReadTask(io.fetched).Success? && StatusOf(io) == Some(Str("success"))
    requires w.job.stage == Refine && RemeshConfig(w.job.requestPayload.GetOr(map[])).enabled
    requires Marker(w.job.resultPayload, "remesh_task_id").None?
    requires CreatedTaskId(io.created) == Success(id)
    ensures var o := ReconcileOutcome(w, taskId, io);
      var payload := w.job.requestPayload.GetOr(map[]);
      var request := RemeshRequest(RemeshConfig(payload).payload, taskId);
      && o.world.calls == w.calls + [GetTask(TripoTask, taskId), CreateTask(TripoTask, request)]
      && request["original_model_task_id"] == Str(taskId)
      && request["face_limit"] == Num(TargetPolycount(payload, SettingRecord(GetTripoConfig(payload).remesh)))
      && o.world.job.stage == Remesh && o.world.job.status == InProgress
      && o.world.job.providerTaskId == Some(id)
      && Marker(o.world.job.resultPayload, "remesh_task_id") == Some(id)
  {
    var w1 := WithCall(w, GetTask(TripoTask, taskId));
    var payload := w.job.requestPayload.GetOr(map[]);
    var request := RemeshRequest(RemeshConfig(payload).payload, taskId);
    var task := ReadTask(io.fetched).value;
    SucceededReached(w, taskId, io);
    RefineAdvances(w1, taskId, task, io);
    AdvanceEffects(w1, request, Remesh, "refine_result", "remesh_task_id", "remesh_request", task, io, id);
    CallsInOrder(w.calls, GetTask(TripoTask, taskId), CreateTask(TripoTask, request));
    RemeshRequestLimits(payload, taskId);
  }

  /** A create that throws fails the job with its message and refunds once. */
  lemma CreateFailureRefunds(w: World, taskId: string, io: TripoIo)
    requires ReadTask(io.fetched).Success? && StatusOf(io) == Some(Str("success"))
    requires w.job.stage == Preview && RefineConfig(w.job.requestPayload.GetOr(map[])).enabled
    requires Marker(w.job.resultPayload, "refine_task_id").None?
    requires CreatedTaskId(io.created).Failure?
    ensures var o := ReconcileOutcome(w, taskId, io);
      var m := CreatedTaskId(io.created).error;
      var request := RefineRequest(RefineConfig(w.job.requestPayload.GetOr(map[])).payload, taskId);
      && o.reply == Error(500, m)
      && o.world.calls == w.calls + [GetTask(TripoTask, taskId), CreateTask(TripoTask, request)]
      && o.world.job == w.job.(status := Failed, errorMessage := Some(Str(m)))
      && o.world.refunds == w.refunds + [w.job.id] && o.world.events == w.events
  {
    var w1 := WithCall(w, GetTask(TripoTask, taskId));
    var request := RefineRequest(RefineConfig(w.job.requestPayload.GetOr(map[])).payload, taskId);
    SucceededReached(w, taskId, io);
    PreviewAdvances(w1, taskId, ReadTask(io.fetched).value, io);
    AdvanceFailureEffects(w1, request, Refine, "preview_result", "refine_task_id", "refine_request", ReadTask(io.fetched).value, io);
    CallsInOrder(w.calls, GetTask(TripoTask, taskId), CreateTask(TripoTask, request));
  }

  // ---------------------------------------------------------------------------------------
  // The dispatcher.

  /** A job of another provider, past PREVIEW, or already running is turned away before any
      call, and nothing changes. */
  lemma DispatchGates(w: World, io: DispatchIo)
    ensures w.job.provider != Tripo ==> DispatchOutcome(w, io) == Outcome(w, Error(400, "Unsupported provider"))
    ensures w.job.provider == Tripo && w.job.stage != Preview ==>
              DispatchOutcome(w, io) == Outcome(w, Error(409, "Job stage is not PREVIEW"))
    ensures w.job.provider == Tripo && w.job.stage == Preview && w.job.status !in {Queued, Failed} ==>
              DispatchOutcome(w, io) == Outcome(w, AlreadyInProgress(w.job.status))
  {
  }

  /** A job that passes the gates but has no prompt is refused with 400 and nothing changes. */
  lemma DispatchNeedsPrompt(w: World, io: DispatchIo)
    requires w.job.provider == Tripo && w.job.stage == Preview && w.job.status in {Queued, Failed}
    requires BuildPreviewPayload(w.job.requestPayload).Failure?
    ensures DispatchOutcome(w, io) == Outcome(w, Error(400, PromptRequired))
  {
  }

  /** A successful dispatch: one create with the built preview request; IN_PROGRESS, the new
      id as provider task id and as `preview_task_id`, earlier result keys kept, one event. */
  lemma DispatchSucceeds(w: World, io: DispatchIo, id: string)
    requires w.job.provider == Tripo && w.job.stage == Preview && w.job.status in {Queued, Failed}
    requires BuildPreviewPayload(w.job.requestPayload).Success?
    requires CreatedTaskId(io.created) == Success(id) && io.updateError.None?
    ensures var o := DispatchOutcome(w, io);
      var request := BuildPreviewPayload(w.job.requestPayload).value;
      var rp := o.world.job.resultPayload;
      && o.reply == Dispatched(w.job.id, id)
      && o.world.calls == w.calls + [CreateTask(TripoTask, request)]
      && o.world.job.status == InProgress && o.world.job.stage == Preview
      && o.world.job.providerTaskId == Some(id) && o.world.job.startedAt == Some(io.now)
      && rp.Some? && "preview_task_id" in rp.value && rp.value["preview_task_id"] == Str(id)
      && (forall k :: k in w.job.resultPayload.GetOr(map[]) && k != "preview_task_id" && k != "preview_request"
                      ==> k in rp.value && rp.value[k] == w.job.resultPayload.value[k])
      && o.world.refunds == w.refunds
      && |o.world.events| == |w.events| + 1 && o.world.events[|w.events|].status == InProgress
  {
  }

  /** A job update that reports an error ends the dispatch with 500 after the create, with no
      event and no refund. */
  lemma DispatchUpdateError(w: World, io: DispatchIo)
    requires w.job.provider == Tripo && w.job.stage == Preview && w.job.status in {Queued, Failed}
    requires BuildPreviewPayload(w.job.requestPayload).Success?
    requires CreatedTaskId(io.created).Success? && io.updateError.Some?
    ensures DispatchOutcome(w, io) ==
            Outcome(WithCall(w, CreateTask(TripoTask, BuildPreviewPayload(w.job.requestPayload).value)),
                    Error(500, "Failed to update job"))
  {
  }

  /** A create that throws: FAILED with the message, one refund, one FAILED event at PREVIEW
      carrying the error, and a 500. */
  lemma DispatchCreateFailure(w: World, io: DispatchIo)
    requires w.job.provider == Tripo && w.job.stage == Preview && w.job.status in {Queued, Failed}
    requires BuildPreviewPayload(w.job.requestPayload).Success? && CreatedTaskId(io.created).Failure?
    ensures var o := DispatchOutcome(w, io);
      var m := CreatedTaskId(io.created).error;
      && o.reply == Error(500, m)
      && o.world.calls == w.calls + [CreateTask(TripoTask, BuildPreviewPayload(w.job.requestPayload).value)]
      && o.world.job == w.job.(status := Failed, errorMessage := Some(Str(m)))
      && o.world.refunds == w.refunds + [w.job.id]
      && o.world.events == w.events + [EventOf(w.job, Preview, Failed, w.job.providerTaskId, map["error" := Str(m)])]
  {
  }

  /** The dispatcher accepts a FAILED job again: a job whose dispatch failed (and was
      refunded) is dispatched anew, and a second failure refunds it a second time. */
  lemma RedispatchRefundsAgain(w: World, io: DispatchIo)
    requires w.job.provider == Tripo && w.job.stage == Preview && w.job.status == Queued
    requires BuildPreviewPayload(w.job.requestPayload).Success? && CreatedTaskId(io.created).Failure?
    ensures var once := DispatchOutcome(w, io).world;
      var twice := DispatchOutcome(once, io).world;
      && once.job.status == Failed
      && twice.refunds == w.refunds + [w.job.id, w.job.id]
      && Creates(twice.calls) == Creates(w.calls) + 2
  {
    var request := BuildPreviewPayload(w.job.requestPayload).value;
    var once := DispatchOutcome(w, io).world;
    DispatchCreateFailure(w, io);
    assert once.job.requestPayload == w.job.requestPayload && once.job.status == Failed;
    DispatchCreateFailure(once, io);
    CreatesAppend(w.calls, CreateTask(TripoTask, request));
    CreatesAppend(once.calls, CreateTask(TripoTask, request));
  }
}
