/** What the Meshy handlers promise, stated over their pure models. The lemmas about
    `ReconcileOutcome` hold for any task id, so they cover the poll handler (which reads the
    job's own task) and the webhook (which reads the task it was sent). */
module MeshyProps {
  import opened Wrappers
  import opened Json
  import opened Jobs
  import opened Reconcile
  import opened MeshyConfig
  import opened Meshy
  import Storage
  import Auth

  /** Storing assets touches only the uploads, the asset fields and the job's error message. */
  lemma StoreStepKeepsProgress(w: World, assetId: string, urls: map<Storage.Channel, string>,
                               fields: map<string, string>, maxMb: Option<JsNum>, io: Storage.TransferIo)
    ensures SameProgress(w, StoreStep(w, assetId, urls, fields, maxMb, io).0)
    ensures StoreStep(w, assetId, urls, fields, maxMb, io).0.assetWrites == w.assetWrites
  {
  }

  /** Writing the asset row, or recording its failure as the job's error message, keeps the
      progress of a world that had kept it. */
  lemma AssetWriteKeepsProgress(w: World, w1: World, write: AssetWrite, error: Option<string>)
    requires SameProgress(w, w1)
    ensures SameProgress(w, match error
                            case None => WithAssetWrite(w1, write)
                            case Some(e) => WithUpdate(w1, SetError("Asset update failed: " + e)))
  {
  }

  /** The asset step of a finished job touches only the asset writes, the uploads and the
      job's error message. */
  lemma AssetUpdateKeepsProgress(w: World, task: Value, io: MeshyIo)
    ensures SameProgress(w, AssetUpdate(w, task, io))
  {
    var job := w.job;
    if job.assetId.Some? && job.assetId.value != "" {
      var urls := ChannelUrls(task);
      var fields := AssetFields(job.id, urls);
      var stored := if ShouldStoreAssets(job.requestPayload)
        then StoreStep(w, job.assetId.value, urls, fields, io.maxMb, io.transfer)
        else (w, fields);
      StoreStepKeepsProgress(w, job.assetId.value, urls, fields, io.maxMb, io.transfer);
      AssetWriteKeepsProgress(w, stored.0, AssetWrite(job.assetId.value, stored.1), io.assetUpdateError);
    }
  }

  /** Without an asset, the asset step does nothing. */
  lemma NoAssetNoWrite(w: World, task: Value, io: MeshyIo)
    requires w.job.assetId.None? || w.job.assetId.value == ""
    ensures AssetUpdate(w, task, io) == w
  {
  }

  /** With an asset, storing switched off and a write that succeeds, exactly one asset write
      happens: `source_job_id` is the job, and each channel's URL key is present exactly when
      the task gives that channel a non-empty URL. */
  lemma AssetWriteFields(w: World, task: Value, io: MeshyIo)
    requires w.job.assetId.Some? && w.job.assetId.value != ""
    requires !ShouldStoreAssets(w.job.requestPayload) && io.assetUpdateError.None?
    ensures var after := AssetUpdate(w, task, io);
      var urls := ChannelUrls(task);
      && after.assetWrites == w.assetWrites + [AssetWrite(w.job.assetId.value, AssetFields(w.job.id, urls))]
      && after.job == w.job && after.uploads == w.uploads
  {
  }

  /** A failed asset write is recorded on the job instead. */
  lemma AssetWriteFailure(w: World, task: Value, io: MeshyIo)
    requires w.job.assetId.Some? && w.job.assetId.value != ""
    requires !ShouldStoreAssets(w.job.requestPayload) && io.assetUpdateError.Some?
    ensures var after := AssetUpdate(w, task, io);
      && after.assetWrites == w.assetWrites
      && after.job.errorMessage == Some(Str("Asset update failed: " + io.assetUpdateError.value))
  {
  }

  /** The mesh URL is `model_urls.fbx` whenever that is present and not null, and `glb` only
      otherwise. */
  lemma MeshUrlPrefersFbx(task: Value)
    ensures var models := Props(Get(Props(task), "model_urls").GetOr(Null));
      && ("fbx" in models && models["fbx"] != Null ==> MeshUrl(task) == models["fbx"])
      && ((("fbx" !in models || models["fbx"] == Null) && "glb" in models && models["glb"] != Null)
            ==> MeshUrl(task) == models["glb"])
      && ((("fbx" !in models || models["fbx"] == Null) && ("glb" !in models || models["glb"] == Null))
            ==> MeshUrl(task) == Null)
  {
  }

  // ---------------------------------------------------------------------------------------
  // The gates.

  /** A finished job is answered with its stored stage and status; nothing is read or written. */
  lemma PollLeavesTerminalJob(w: World, io: MeshyIo)
    requires w.job.provider == Meshy && IsTerminal(w.job.status)
    ensures PollOutcome(w, io) == Outcome(w, Progress(w.job.id, w.job.stage, w.job.status))
  {
  }

  /** A job of another provider is refused, and a live job without a task id is a conflict;
      neither reads or writes anything. */
  lemma PollGates(w: World, io: MeshyIo)
    ensures w.job.provider != Meshy ==> PollOutcome(w, io) == Outcome(w, Error(400, "Unsupported provider"))
    ensures w.job.provider == Meshy && !IsTerminal(w.job.status) && (w.job.providerTaskId.None? || w.job.providerTaskId == Some(""))
            ==> PollOutcome(w, io) == Outcome(w, Error(409, "provider_task_id missing for job"))
  {
  }

  /** The one provider read of a live job is from the stage's endpoint: the remesh endpoint at
      REMESH, the text-to-3D endpoint otherwise; any further call comes after it. */
  lemma ReadsStageEndpoint(w: World, taskId: string, io: MeshyIo)
    ensures var calls := ReconcileOutcome(w, taskId, io).world.calls;
      && |calls| > |w.calls|
      && calls[..|w.calls| + 1] == w.calls + [GetTask(FetchEndpoint(w.job.stage), taskId)]
    ensures FetchEndpoint(w.job.stage) == MeshyRemesh <==> w.job.stage == Remesh
  {
    var w1 := WithCall(w, GetTask(FetchEndpoint(w.job.stage), taskId));
    var calls := ReconcileOutcome(w, taskId, io).world.calls;
    ReconcileCalls(w1, w, taskId, io);
    assert calls[..|w.calls| + 1] == w1.calls[..|w.calls| + 1];
  }

  /** After the read, the reconcile body calls a provider at most once more. */
  lemma ReconcileCalls(w1: World, w: World, taskId: string, io: MeshyIo)
    requires w1 == WithCall(w, GetTask(FetchEndpoint(w.job.stage), taskId))
    ensures var calls := ReconcileOutcome(w, taskId, io).world.calls;
      calls == w1.calls || (|calls| == |w1.calls| + 1 && calls[..|w1.calls|] == w1.calls)
  {
    var o := ReconcileOutcome(w, taskId, io);
    match ReadTask(io.fetched)
    case Failure(m) =>
      assert o == CatchStep(w1, m, false);
    case Success(task) =>
      var status := TaskStatus(task);
      if status == Some(Str("PENDING")) || status == Some(Str("IN_PROGRESS")) {
        assert o == InProgressStep(w1, task, "Meshy task in progress");
      } else if status == Some(Str("FAILED")) {
        assert o == TerminateStep(w1, Failed, Some(FailureMessage(task)), task, io.now, map["message" := FailureMessage(task)]);
      } else if status == Some(Str("SUCCEEDED")) {
        assert o == SucceededOutcome(w1, taskId, task, io);
        SucceededCalls(w1, taskId, task, io);
      } else {
        assert o == Outcome(w1, Error(500, "Unhandled task status"));
      }
  }

  /** Finishing a stage writes SUCCEEDED at that stage and the task under `key`; it calls no
      provider and issues no refund. */
  lemma FinishOutcomeEffects(w: World, stage: Stage, key: string, task: Value, io: MeshyIo)
    ensures var o := FinishOutcome(w, stage, key, task, io);
      && o.reply == Progress(w.job.id, stage, Succeeded)
      && o.world.calls == w.calls && o.world.refunds == w.refunds
      && o.world.job.stage == w.job.stage && o.world.job.status == Succeeded
      && o.world.job.providerTaskId == w.job.providerTaskId
      && o.world.job.resultPayload == Some(MergeResult(w.job.resultPayload, map[key := task, "last_task" := task]))
  {
    AssetUpdateKeepsProgress(FinishStep(w, stage, key, task, io.now), task, io);
  }

  /** An advance sends exactly one call, the create, and then leaves the call log alone. */
  lemma AdvanceOutcomeCalls(w: World, endpoint: Endpoint, request: Record, recorded: Record, next: Stage,
                            resultKey: string, markerKey: string, requestKey: string, task: Value,
                            io: MeshyIo, missing: string)
    ensures AdvanceOutcome(w, endpoint, request, recorded, next, resultKey, markerKey, requestKey, task, io, missing).world.calls
            == w.calls + [CreateTask(endpoint, request)]
  {
  }

  /** After a successful read, at most one further call is made, and it is a create. */
  lemma SucceededCalls(w: World, taskId: string, task: Value, io: MeshyIo)
    ensures var calls := SucceededOutcome(w, taskId, task, io).world.calls;
      calls == w.calls || (|calls| == |w.calls| + 1 && calls[..|w.calls|] == w.calls && calls[|w.calls|].CreateTask?)
  {
    var payload := w.job.requestPayload.GetOr(map[]);
    match w.job.stage
    case Preview =>
      var cfg := RefineConfig(payload);
      if !cfg.enabled {
        FinishOutcomeEffects(w, Preview, "preview_result", task, io);
      } else if Marker(w.job.resultPayload, "refine_task_id").None? {
        AdvanceOutcomeCalls(w, MeshyTextTo3D, cfg.payload["preview_task_id" := Str(taskId)], cfg.payload, Refine,
                            "preview_result", "refine_task_id", "refine_request", task, io, TextTo3DMissingId);
      }
    case Refine =>
      var cfg := RemeshConfig(payload);
      if !cfg.enabled {
        FinishOutcomeEffects(w, Refine, "refine_result", task, io);
      } else if Marker(w.job.resultPayload, "remesh_task_id").None? {
        AdvanceOutcomeCalls(w, MeshyRemesh, map["input_task_id" := Str(taskId)] + cfg.payload, cfg.payload, Remesh,
                            "refine_result", "remesh_task_id", "remesh_request", task, io, RemeshMissingId);
      }
    case Remesh =>
      FinishOutcomeEffects(w, Remesh, "remesh_result", task, io);
  }

  // ---------------------------------------------------------------------------------------
  // The task's own status.

  /** A pending or running task keeps the job IN_PROGRESS with the task as `last_task`, and
      logs an event only when the job was not IN_PROGRESS before. */
  lemma PendingTaskStaysInProgress(w: World, taskId: string, io: MeshyIo)
    requires io.fetched.Success?
    requires TaskStatus(io.fetched.value) == Some(Str("PENDING")) || TaskStatus(io.fetched.value) == Some(Str("IN_PROGRESS"))
    ensures var o := ReconcileOutcome(w, taskId, io);
      var task := io.fetched.value;
      && o.reply == Progress(w.job.id, w.job.stage, InProgress)
      && o.world.job == w.job.(status := InProgress, resultPayload := Some(MergeResult(w.job.resultPayload, map["last_task" := task])))
      && o.world.calls == w.calls + [GetTask(FetchEndpoint(w.job.stage), taskId)]
      && o.world.refunds == w.refunds
      && (w.job.status == InProgress ==> o.world.events == w.events)
      && (w.job.status != InProgress ==>
            |o.world.events| == |w.events| + 1 && o.world.events[|w.events|].status == InProgress)
  {
  }

  /** A failed task fails the job with the task's `message` (or "Meshy task failed" when it
      has none), issues exactly one refund and logs exactly one FAILED event. */
  lemma FailedTaskFailsJob(w: World, taskId: string, io: MeshyIo)
    requires io.fetched.Success? && TaskStatus(io.fetched.value) == Some(Str("FAILED"))
    ensures var o := ReconcileOutcome(w, taskId, io);
      var message := Get(Props(io.fetched.value), "message");
      && o.reply == Progress(w.job.id, w.job.stage, Failed)
      && o.world.job.status == Failed && o.world.job.stage == w.job.stage
      && o.world.job.completedAt == Some(io.now)
      && (message.Some? && message.value != Null ==> o.world.job.errorMessage == message)
      && (message.None? || message.value == Null ==> o.world.job.errorMessage == Some(Str("Meshy task failed")))
      && o.world.refunds == w.refunds + [w.job.id]
      && |o.world.events| == |w.events| + 1 && o.world.events[..|w.events|] == w.events
      && o.world.events[|w.events|].status == Failed
      && o.world.events[|w.events|].payload == map["message" := o.world.job.errorMessage.value]
  {
  }

  /** A task read whose status the handler does not know is a 500; the read is the only effect. */
  lemma UnknownStatusIsError(w: World, taskId: string, io: MeshyIo)
    requires ReadTask(io.fetched).Success?
    requires TaskStatus(ReadTask(io.fetched).value) !in {Some(Str("PENDING")), Some(Str("IN_PROGRESS")), Some(Str("FAILED")), Some(Str("SUCCEEDED"))}
    ensures ReconcileOutcome(w, taskId, io) ==
            Outcome(WithCall(w, GetTask(FetchEndpoint(w.job.stage), taskId)), Error(500, "Unhandled task status"))
  {
  }

  /** A read that throws, or a `null` task whose `status` read throws, fails the job with the
      thrown message, and Meshy issues no refund. */
  lemma ReadFailureNoRefund(w: World, taskId: string, io: MeshyIo)
    requires ReadTask(io.fetched).Failure?
    ensures var o := ReconcileOutcome(w, taskId, io);
      && o.reply == Error(500, ReadTask(io.fetched).error)
      && o.world.job == w.job.(status := Failed, errorMessage := Some(Str(ReadTask(io.fetched).error)))
      && o.world.refunds == w.refunds && o.world.events == w.events
  {
  }

  // ---------------------------------------------------------------------------------------
  // A succeeded task.

  /** PREVIEW done with refine switched off: the job ends SUCCEEDED at PREVIEW, after the one
      read and no task creation. */
  lemma PreviewDoneWithoutRefine(w: World, taskId: string, io: MeshyIo)
    requires io.fetched.Success? && TaskStatus(io.fetched.value) == Some(Str("SUCCEEDED"))
    requires w.job.stage == Preview && !RefineConfig(w.job.requestPayload.GetOr(map[])).enabled
    ensures var o := ReconcileOutcome(w, taskId, io);
      && o.reply == Progress(w.job.id, Preview, Succeeded)
      && o.world.job.stage == Preview && o.world.job.status == Succeeded
      && o.world.calls == w.calls + [GetTask(MeshyTextTo3D, taskId)]
      && o.world.refunds == w.refunds
  {
    FinishOutcomeEffects(WithCall(w, GetTask(MeshyTextTo3D, taskId)), Preview, "preview_result", io.fetched.value, io);
  }

  /** REFINE done with remesh switched off: the job ends SUCCEEDED at REFINE without creating
      a task. */
  lemma RefineDoneWithoutRemesh(w: World, taskId: string, io: MeshyIo)
    requires io.fetched.Success? && TaskStatus(io.fetched.value) == Some(Str("SUCCEEDED"))
    requires w.job.stage == Refine && !RemeshConfig(w.job.requestPayload.GetOr(map[])).enabled
    ensures var o := ReconcileOutcome(w, taskId, io);
      && o.reply == Progress(w.job.id, Refine, Succeeded)
      && o.world.job.stage == Refine && o.world.job.status == Succeeded
      && o.world.calls == w.calls + [GetTask(MeshyTextTo3D, taskId)]
      && o.world.refunds == w.refunds
  {
    FinishOutcomeEffects(WithCall(w, GetTask(MeshyTextTo3D, taskId)), Refine, "refine_result", io.fetched.value, io);
  }

  /** REMESH done: the job ends SUCCEEDED at REMESH, with the task as `remesh_result`. */
  lemma RemeshDone(w: World, taskId: string, io: MeshyIo)
    requires io.fetched.Success? && TaskStatus(io.fetched.value) == Some(Str("SUCCEEDED")) && w.job.stage == Remesh
    ensures var o := ReconcileOutcome(w, taskId, io);
      && o.reply == Progress(w.job.id, Remesh, Succeeded)
      && o.world.job.stage == Remesh && o.world.job.status == Succeeded
      && o.world.job.resultPayload.Some? && "remesh_result" in o.world.job.resultPayload.value
      && o.world.job.resultPayload.value["remesh_result"] == io.fetched.value
      && o.world.calls == w.calls + [GetTask(MeshyRemesh, taskId)]
  {
    FinishOutcomeEffects(WithCall(w, GetTask(MeshyRemesh, taskId)), Remesh, "remesh_result", io.fetched.value, io);
  }

  /** PREVIEW done, refine on, and a refine task recorded by an earlier run: the job moves to
      REFINE on that task and nothing is created. */
  lemma PreviewResumesRecordedRefine(w: World, taskId: string, io: MeshyIo)
    requires io.fetched.Success? && TaskStatus(io.fetched.value) == Some(Str("SUCCEEDED"))
    requires w.job.stage == Preview && RefineConfig(w.job.requestPayload.GetOr(map[])).enabled
    requires Marker(w.job.resultPayload, "refine_task_id").Some?
    ensures var o := ReconcileOutcome(w, taskId, io);
      var id := w.job.resultPayload.value["refine_task_id"];
      && o.world.job.stage == Refine && o.world.job.status == InProgress
      && id.Str? && o.world.job.providerTaskId == Some(id.s)
      && o.world.calls == w.calls + [GetTask(MeshyTextTo3D, taskId)]
      && o.world.refunds == w.refunds
      && o.reply == Progress(w.job.id, Refine, InProgress)
  {
  }

  /** REFINE done, remesh on, and a remesh task recorded earlier: the job moves to REMESH on
      that task and nothing is created. */
  lemma RefineResumesRecordedRemesh(w: World, taskId: string, io: MeshyIo)
    requires io.fetched.Success? && TaskStatus(io.fetched.value) == Some(Str("SUCCEEDED"))
    requires w.job.stage == Refine && RemeshConfig(w.job.requestPayload.GetOr(map[])).enabled
    requires Marker(w.job.resultPayload, "remesh_task_id").Some?
    ensures var o := ReconcileOutcome(w, taskId, io);
      var id := w.job.resultPayload.value["remesh_task_id"];
      && o.world.job.stage == Remesh && o.world.job.status == InProgress
      && id.Str? && o.world.job.providerTaskId == Some(id.s)
      && o.world.calls == w.calls + [GetTask(MeshyTextTo3D, taskId)]
      && o.world.refunds == w.refunds
  {
  }

  /** A task read back as SUCCEEDED hands the job, with the read recorded, to the stage logic. */
  lemma SucceededReached(w: World, taskId: string, io: MeshyIo)
    requires io.fetched.Success? && TaskStatus(io.fetched.value) == Some(Str("SUCCEEDED"))
    ensures ReconcileOutcome(w, taskId, io) ==
            SucceededOutcome(WithCall(w, GetTask(FetchEndpoint(w.job.stage), taskId)), taskId, io.fetched.value, io)
  {
  }

  /** PREVIEW done with refine on and no refine task recorded goes to the refine create. */
  lemma PreviewAdvances(w: World, taskId: string, task: Value, io: MeshyIo)
    requires w.job.stage == Preview && RefineConfig(w.job.requestPayload.GetOr(map[])).enabled
    requires Marker(w.job.resultPayload, "refine_task_id").None?
    ensures var cfg := RefineConfig(w.job.requestPayload.GetOr(map[]));
      SucceededOutcome(w, taskId, task, io) ==
      AdvanceOutcome(w, MeshyTextTo3D, cfg.payload["preview_task_id" := Str(taskId)], cfg.payload, Refine,
                     "preview_result", "refine_task_id", "refine_request", task, io, TextTo3DMissingId)
  {
  }

  /** REFINE done with remesh on and no remesh task recorded goes to the remesh create. */
  lemma RefineAdvances(w: World, taskId: string, task: Value, io: MeshyIo)
    requires w.job.stage == Refine && RemeshConfig(w.job.requestPayload.GetOr(map[])).enabled
    requires Marker(w.job.resultPayload, "remesh_task_id").None?
    ensures var cfg := RemeshConfig(w.job.requestPayload.GetOr(map[]));
      SucceededOutcome(w, taskId, task, io) ==
      AdvanceOutcome(w, MeshyRemesh, map["input_task_id" := Str(taskId)] + cfg.payload, cfg.payload, Remesh,
                     "refine_result", "remesh_task_id", "remesh_request", task, io, RemeshMissingId)
  {
  }

  /** A create answered with `id`: that create is the one call, and the job moves to `next`,
      IN_PROGRESS, with `id` as provider task id and under `markerKey`, keeping the result keys
      outside the patch; nothing refunded. */
  lemma AdvanceEffects(w: World, endpoint: Endpoint, request: Record, recorded: Record, next: Stage,
                       resultKey: string, markerKey: string, requestKey: string, task: Value,
                       io: MeshyIo, missing: string, id: string)
    requires CreatedTaskId(io.created, missing) == Success(id)
    requires markerKey != resultKey && markerKey != requestKey && markerKey != "last_task"
    ensures var o := AdvanceOutcome(w, endpoint, request, recorded, next, resultKey, markerKey, requestKey, task, io, missing);
      var rp := o.world.job.resultPayload;
      && o.world.calls == w.calls + [CreateTask(endpoint, request)]
      && o.world.job.stage == next && o.world.job.status == InProgress
      && o.world.job.providerTaskId == Some(id)
      && Marker(rp, markerKey) == Some(id)
      && (forall k :: k in w.job.resultPayload.GetOr(map[]) && k !in {resultKey, markerKey, requestKey, "last_task"}
                      ==> k in rp.value && rp.value[k] == w.job.resultPayload.value[k])
      && o.world.refunds == w.refunds
      && o.reply == Progress(w.job.id, next, InProgress)
  {
    var patch := AdvancePatch(resultKey, markerKey, requestKey, task, id, Obj(recorded));
    assert patch[markerKey] == Str(id);
    assert patch.Keys == {resultKey, markerKey, requestKey, "last_task"};
    assert MergeResult(w.job.resultPayload, patch)[markerKey] == Str(id);
  }

  /** PREVIEW done, refine on, nothing recorded, and the create call answers with `id`: exactly
      one task is created, from the refine settings and the finished preview task, and `id`
      becomes both the job's provider task id and its `refine_task_id` marker; earlier
      result keys outside the patch survive. */
  lemma PreviewCreatesRefine(w: World, taskId: string, io: MeshyIo, id: string)
    requires io.fetched.Success? && TaskStatus(io.fetched.value) == Some(Str("SUCCEEDED"))
    requires w.job.stage == Preview && RefineConfig(w.job.requestPayload.GetOr(map[])).enabled
    requires Marker(w.job.resultPayload, "refine_task_id").None?
    requires CreatedTaskId(io.created, TextTo3DMissingId) == Success(id)
    ensures var o := ReconcileOutcome(w, taskId, io);
      var cfg := RefineConfig(w.job.requestPayload.GetOr(map[]));
      var request := cfg.payload["preview_task_id" := Str(taskId)];
      var rp := o.world.job.resultPayload;
      && o.world.calls == w.calls + [GetTask(MeshyTextTo3D, taskId), CreateTask(MeshyTextTo3D, request)]
      && request["preview_task_id"] == Str(taskId) && request["mode"] == Str("refine")
      && o.world.job.stage == Refine && o.world.job.status == InProgress
      && o.world.job.providerTaskId == Some(id)
      && Marker(rp, "refine_task_id") == Some(id)
      && (forall k :: k in w.job.resultPayload.GetOr(map[])
                      && k !in {"preview_result", "refine_task_id", "refine_request", "last_task"}
                      ==> k in rp.value && rp.value[k] == w.job.resultPayload.value[k])
      && o.world.refunds == w.refunds
      && o.reply == Progress(w.job.id, Refine, InProgress)
  {
    var w1 := WithCall(w, GetTask(MeshyTextTo3D, taskId));
    var cfg := RefineConfig(w.job.requestPayload.GetOr(map[]));
    var request := cfg.payload["preview_task_id" := Str(taskId)];
    SucceededReached(w, taskId, io);
    PreviewAdvances(w1, taskId, io.fetched.value, io);
    AdvanceEffects(w1, MeshyTextTo3D, request, cfg.payload, Refine, "preview_result", "refine_task_id", "refine_request",
                   io.fetched.value, io, TextTo3DMissingId, id);
    CallsInOrder(w.calls, GetTask(MeshyTextTo3D, taskId), CreateTask(MeshyTextTo3D, request));
  }

  /** REFINE done, remesh on, nothing recorded, and the create call answers with `id`: exactly
      one remesh task is created from the refine task `taskId`, and `id` becomes both the
      provider task id and the `remesh_task_id` marker. */
  lemma RefineCreatesRemesh(w: World, taskId: string, io: MeshyIo, id: string)
    requires io.fetched.Success? && TaskStatus(io.fetched.value) == Some(Str("SUCCEEDED"))
    requires w.job.stage == Refine && RemeshConfig(w.job.requestPayload.GetOr(map[])).enabled
    requires Marker(w.job.resultPayload, "remesh_task_id").None?
    requires CreatedTaskId(io.created, RemeshMissingId) == Success(id)
    ensures var o := ReconcileOutcome(w, taskId, io);
      var cfg := RemeshConfig(w.job.requestPayload.GetOr(map[]));
      var request := map["input_task_id" := Str(taskId)] + cfg.payload;
      && o.world.calls == w.calls + [GetTask(MeshyTextTo3D, taskId), CreateTask(MeshyRemesh, request)]
      && request["input_task_id"] == Str(taskId)
      && o.world.job.stage == Remesh && o.world.job.status == InProgress
      && o.world.job.providerTaskId == Some(id)
      && Marker(o.world.job.resultPayload, "remesh_task_id") == Some(id)
      && o.world.refunds == w.refunds
  {
    var w1 := WithCall(w, GetTask(MeshyTextTo3D, taskId));
    var cfg := RemeshConfig(w.job.requestPayload.GetOr(map[]));
    var request := map["input_task_id" := Str(taskId)] + cfg.payload;
    SucceededReached(w, taskId, io);
    RefineAdvances(w1, taskId, io.fetched.value, io);
    AdvanceEffects(w1, MeshyRemesh, request, cfg.payload, Remesh, "refine_result", "remesh_task_id", "remesh_request",
                   io.fetched.value, io, RemeshMissingId, id);
    CallsInOrder(w.calls, GetTask(MeshyTextTo3D, taskId), CreateTask(MeshyRemesh, request));
    RemeshRequestCarriesInput(w.job.requestPayload.GetOr(map[]), taskId);
  }

  /** The remesh settings never hold `input_task_id`, so the request keeps the one put first. */
  lemma RemeshRequestCarriesInput(payload: Record, taskId: string)
    ensures var request := map["input_task_id" := Str(taskId)] + RemeshConfig(payload).payload;
      "input_task_id" in request && request["input_task_id"] == Str(taskId)
  {
    RemeshConfigKeys(payload);
  }

  /** A create call that throws (or answers without an id) fails the job with its message
      after the create was sent; Meshy issues no refund. */
  lemma CreateFailureNoRefund(w: World, taskId: string, io: MeshyIo)
    requires io.fetched.Success? && TaskStatus(io.fetched.value) == Some(Str("SUCCEEDED"))
    requires w.job.stage == Preview && RefineConfig(w.job.requestPayload.GetOr(map[])).enabled
    requires Marker(w.job.resultPayload, "refine_task_id").None?
    requires CreatedTaskId(io.created, TextTo3DMissingId).Failure?
    ensures var o := ReconcileOutcome(w, taskId, io);
      var m := CreatedTaskId(io.created, TextTo3DMissingId).error;
      && o.reply == Error(500, m)
      && o.world.job == w.job.(status := Failed, errorMessage := Some(Str(m)))
      && |o.world.calls| == |w.calls| + 2 && o.world.calls[|w.calls| + 1].CreateTask?
      && o.world.refunds == w.refunds && o.world.events == w.events
  {
  }

  // ---------------------------------------------------------------------------------------
  // The webhook.

  /** A body without a task id is refused before the job is looked at. */
  lemma WebhookNeedsTaskId(w: World, req: WebhookRequest, storedSecret: Option<Value>, io: MeshyIo)
    requires forall i :: 0 <= i < |Candidates(req.body)| ==> !IsTaskId(Candidates(req.body)[i])
    ensures WebhookOutcome(w, req, storedSecret, io) == Outcome(w, Error(400, "task_id missing"))
  {
  }

  /** The secret gate: with the global secret failing, a request without a header is refused,
      and one with a header passes only when the job exists and its owner's stored secret is
      exactly that header. A refused request changes nothing. */
  lemma WebhookSecretGate(w: World, req: WebhookRequest, storedSecret: Option<Value>, io: MeshyIo, taskId: string)
    requires FirstTaskId(Candidates(req.body)) == Some(taskId)
    requires !Auth.AssertWebhookSecret(req.globalSecret, req.secretHeader)
    ensures Auth.Unset(req.secretHeader) ==> WebhookOutcome(w, req, storedSecret, io) == Outcome(w, Error(401, "Unauthorized"))
    ensures !Auth.Unset(req.secretHeader) ==>
              (WebhookOutcome(w, req, storedSecret, io).reply != Error(401, "Unauthorized")
               <==> w.job.providerTaskId == Some(taskId) && storedSecret == Some(Str(req.secretHeader.value)))
  {
    var o := WebhookOutcome(w, req, storedSecret, io);
    if w.job.providerTaskId == Some(taskId) && !IsTerminal(w.job.status) && Authorised(req, true, storedSecret) {
      ReconcileNeverUnauthorized(w, taskId, io);
    }
  }

  /** The reconcile body never answers 401. */
  lemma ReconcileNeverUnauthorized(w: World, taskId: string, io: MeshyIo)
    ensures ReconcileOutcome(w, taskId, io).reply != Error(401, "Unauthorized")
  {
    if io.fetched.Success? && TaskStatus(io.fetched.value) == Some(Str("SUCCEEDED")) {
      var w1 := WithCall(w, GetTask(FetchEndpoint(w.job.stage), taskId));
      match w1.job.stage
      case Preview => {
        if RefineConfig(w1.job.requestPayload.GetOr(map[])).enabled && Marker(w1.job.resultPayload, "refine_task_id").None? {
          var m := CreatedTaskId(io.created, TextTo3DMissingId);
        }
      }
      case Refine => {}
      case Remesh => {}
    }
  }

  /** An authorised call for a task no job waits on is acknowledged and changes nothing. */
  lemma WebhookNoMatchingJob(w: World, req: WebhookRequest, storedSecret: Option<Value>, io: MeshyIo, taskId: string)
    requires FirstTaskId(Candidates(req.body)) == Some(taskId) && w.job.providerTaskId != Some(taskId)
    requires Auth.AssertWebhookSecret(req.globalSecret, req.secretHeader)
    ensures WebhookOutcome(w, req, storedSecret, io) == Outcome(w, NoMatchingJob)
  {
  }

  /** A call for a finished job is answered with its stored stage and status, with no read. */
  lemma WebhookLeavesTerminalJob(w: World, req: WebhookRequest, storedSecret: Option<Value>, io: MeshyIo, taskId: string)
    requires FirstTaskId(Candidates(req.body)) == Some(taskId) && w.job.providerTaskId == Some(taskId)
    requires Authorised(req, true, storedSecret) && IsTerminal(w.job.status)
    ensures WebhookOutcome(w, req, storedSecret, io) == Outcome(w, Progress(w.job.id, w.job.stage, w.job.status))
  {
  }

  /** The webhook runs the reconcile body whatever the job's provider: a TRIPO job whose task
      id is sent is read from Meshy like any other. */
  lemma WebhookIgnoresProvider(w: World, req: WebhookRequest, storedSecret: Option<Value>, io: MeshyIo, taskId: string)
    requires FirstTaskId(Candidates(req.body)) == Some(taskId) && w.job.providerTaskId == Some(taskId)
    requires Authorised(req, true, storedSecret) && !IsTerminal(w.job.status)
    ensures WebhookOutcome(w, req, storedSecret, io) == ReconcileOutcome(w, taskId, io)
  {
  }

  /** In particular a TRIPO job's task id sent to the Meshy webhook is read from Meshy's
      endpoint for the job's stage. */
  lemma WebhookReadsTripoJobFromMeshy(w: World, req: WebhookRequest, storedSecret: Option<Value>, io: MeshyIo, taskId: string)
    requires FirstTaskId(Candidates(req.body)) == Some(taskId) && w.job.providerTaskId == Some(taskId)
    requires Authorised(req, true, storedSecret) && !IsTerminal(w.job.status) && w.job.provider == Tripo
    ensures var calls := WebhookOutcome(w, req, storedSecret, io).world.calls;
      |calls| > |w.calls| && calls[|w.calls|] == GetTask(FetchEndpoint(w.job.stage), taskId)
  {
    WebhookIgnoresProvider(w, req, storedSecret, io, taskId);
    ReadsStageEndpoint(w, taskId, io);
    var calls := ReconcileOutcome(w, taskId, io).world.calls;
    assert calls[..|w.calls| + 1][|w.calls|] == calls[|w.calls|];
  }

  /** For a Meshy job, an authorised webhook call carrying the job's own task id does exactly
      what a poll of that job does. */
  lemma WebhookAgreesWithPoll(w: World, req: WebhookRequest, storedSecret: Option<Value>, io: MeshyIo)
    requires w.job.provider == Meshy && w.job.providerTaskId.Some?
    requires FirstTaskId(Candidates(req.body)) == w.job.providerTaskId
    requires Authorised(req, true, storedSecret)
    ensures WebhookOutcome(w, req, storedSecret, io) == PollOutcome(w, io)
  {
  }
}
