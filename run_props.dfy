/** Properties of whole sequences of handler runs on one job: a finished job stays as it is,
    the stage only moves forward, no more tasks are created than there are stages left, at
    most one refund is issued, and the job at REFINE or REMESH always waits on the task its
    marker records. */
module RunProps {
  import opened Wrappers
  import opened Json
  import opened Jobs
  import opened Reconcile
  import M = Meshy
  import MC = MeshyConfig
  import MP = MeshyProps
  import T = Tripo
  import TC = TripoConfig
  import TP = TripoProps

  /** The task creations a job may still cause: one per stage after the current one, plus the
      preview task itself while the job is QUEUED; none once it is finished. */
  function Potential(j: Job): nat {
    if IsTerminal(j.status) then 0 else (2 - StageRank(j.stage)) + (if j.status == Queued then 1 else 0)
  }

  /** The refunds a job may still cause: one until it is finished. */
  function Refundable(j: Job): nat {
    if IsTerminal(j.status) then 0 else 1
  }

  /** From `a` to `b` the stage did not go back, and every creation and refund was paid for by
      the job's remaining potential. */
  predicate Budgeted(a: World, b: World) {
    && Creates(b.calls) + Potential(b.job) <= Creates(a.calls) + Potential(a.job)
    && |b.refunds| + Refundable(b.job) <= |a.refunds| + Refundable(a.job)
    && StageRank(a.job.stage) <= StageRank(b.job.stage)
  }

  /** At REFINE the provider task is the recorded `refine_task_id`; at REMESH it is the
      recorded `remesh_task_id`. */
  predicate MarkersAgree(j: Job) {
    && (j.stage == Refine ==> Marker(j.resultPayload, "refine_task_id") == j.providerTaskId)
    && (j.stage == Remesh ==> Marker(j.resultPayload, "remesh_task_id") == j.providerTaskId)
  }

  /** A step that keeps the job's stage, task id and markers keeps `MarkersAgree`. */
  lemma MarkersKept(a: Job, b: Job)
    requires MarkersAgree(a) && b.stage == a.stage && b.providerTaskId == a.providerTaskId
    requires Marker(b.resultPayload, "refine_task_id") == Marker(a.resultPayload, "refine_task_id")
    requires Marker(b.resultPayload, "remesh_task_id") == Marker(a.resultPayload, "remesh_task_id")
    ensures MarkersAgree(b)
  {
  }

  /** Merging a patch without marker keys keeps both markers. */
  lemma MergeKeepsMarkers(rp: Option<Record>, patch: Record)
    requires "refine_task_id" !in patch && "remesh_task_id" !in patch
    ensures Marker(Some(MergeResult(rp, patch)), "refine_task_id") == Marker(rp, "refine_task_id")
    ensures Marker(Some(MergeResult(rp, patch)), "remesh_task_id") == Marker(rp, "remesh_task_id")
  {
  }

  lemma BudgetedTransitive(a: World, b: World, c: World)
    requires Budgeted(a, b) && Budgeted(b, c)
    ensures Budgeted(a, c)
  {
  }

  // ---------------------------------------------------------------------------------------
  // The shared steps, on a job that is not finished.

  /** Both invariants hold across a shared step with no provider call. */
  predicate Kept(a: World, b: World) {
    Budgeted(a, b) && (MarkersAgree(a.job) ==> MarkersAgree(b.job))
  }

  lemma InProgressStepKept(w: World, task: Value, message: string)
    requires !IsTerminal(w.job.status)
    ensures Kept(w, InProgressStep(w, task, message).world)
  {
    MergeKeepsMarkers(w.job.resultPayload, map["last_task" := task]);
  }

  lemma TerminateStepKept(w: World, status: Status, errorMessage: Option<Value>, task: Value, now: string, payload: Record)
    requires !IsTerminal(w.job.status) && IsTerminal(status)
    ensures Kept(w, TerminateStep(w, status, errorMessage, task, now, payload).world)
  {
    MergeKeepsMarkers(w.job.resultPayload, map["last_task" := task]);
  }

  lemma CatchStepKept(w: World, message: string, refund: bool)
    requires !IsTerminal(w.job.status)
    ensures Kept(w, CatchStep(w, message, refund).world)
  {
  }

  lemma FinishStepKept(w: World, stage: Stage, key: string, task: Value, now: string)
    requires !IsTerminal(w.job.status) && key != "refine_task_id" && key != "remesh_task_id"
    ensures Kept(w, FinishStep(w, stage, key, task, now))
  {
    MergeKeepsMarkers(w.job.resultPayload, map[key := task, "last_task" := task]);
  }

  lemma ResumeStepKept(w: World, next: Stage, marker: string)
    requires !IsTerminal(w.job.status) && StageRank(next) == StageRank(w.job.stage) + 1
    requires next == Refine ==> Marker(w.job.resultPayload, "refine_task_id") == Some(marker)
    requires next == Remesh ==> Marker(w.job.resultPayload, "remesh_task_id") == Some(marker)
    ensures Kept(w, ResumeStep(w, next, marker).world)
  {
  }

  /** A creation followed by the catch block is paid for by the stage the job gives up. */
  lemma CreateThenCatchKept(w: World, endpoint: Endpoint, request: Record, message: string, refund: bool)
    requires !IsTerminal(w.job.status) && w.job.stage != Remesh
    ensures Kept(w, CatchStep(WithCall(w, CreateTask(endpoint, request)), message, refund).world)
  {
    CreatesAppend(w.calls, CreateTask(endpoint, request));
  }

  /** An advance pays for its one creation with one stage, and records the new task as the
      marker of the stage it moves to. */
  lemma CreateThenAdvanceKept(w: World, endpoint: Endpoint, request: Record, next: Stage, resultKey: string,
                              markerKey: string, requestKey: string, task: Value, id: string, recorded: Value)
    requires !IsTerminal(w.job.status) && StageRank(next) == StageRank(w.job.stage) + 1 && id != ""
    requires next == Refine ==> markerKey == "refine_task_id"
    requires next == Remesh ==> markerKey == "remesh_task_id"
    requires resultKey != markerKey && requestKey != markerKey && markerKey != "last_task"
    ensures var w1 := WithCall(w, CreateTask(endpoint, request));
      Kept(w, AdvanceStep(w1, next, id, AdvancePatch(resultKey, markerKey, requestKey, task, id, recorded), recorded).world)
  {
    CreatesAppend(w.calls, CreateTask(endpoint, request));
    var patch := AdvancePatch(resultKey, markerKey, requestKey, task, id, recorded);
    assert patch[markerKey] == Str(id);
    assert Marker(Some(MergeResult(w.job.resultPayload, patch)), markerKey) == Some(id);
  }

  /** A provider read adds no creation. */
  lemma ReadKept(w: World, c: ProviderCall)
    requires c.GetTask?
    ensures Kept(w, WithCall(w, c)) && Creates(WithCall(w, c).calls) == Creates(w.calls)
  {
    CreatesAppend(w.calls, c);
  }

  lemma KeptTransitive(a: World, b: World, c: World)
    requires Kept(a, b) && Kept(b, c)
    ensures Kept(a, c)
  {
  }

  lemma SameProgressKept(a: World, b: World)
    requires SameProgress(a, b)
    ensures Kept(a, b)
  {
  }

  // ---------------------------------------------------------------------------------------
  // The Meshy handlers.

  lemma MeshyFinishKept(w: World, stage: Stage, key: string, task: Value, io: M.MeshyIo)
    requires !IsTerminal(w.job.status) && key != "refine_task_id" && key != "remesh_task_id"
    ensures Kept(w, M.FinishOutcome(w, stage, key, task, io).world)
  {
    var w1 := FinishStep(w, stage, key, task, io.now);
    FinishStepKept(w, stage, key, task, io.now);
    MP.AssetUpdateKeepsProgress(w1, task, io);
    SameProgressKept(w1, M.AssetUpdate(w1, task, io));
    KeptTransitive(w, w1, M.AssetUpdate(w1, task, io));
  }

  lemma MeshyAdvanceKept(w: World, endpoint: Endpoint, request: Record, recorded: Record, next: Stage,
                         resultKey: string, markerKey: string, requestKey: string, task: Value,
                         io: M.MeshyIo, missing: string)
    requires !IsTerminal(w.job.status) && StageRank(next) == StageRank(w.job.stage) + 1
    requires next == Refine ==> markerKey == "refine_task_id"
    requires next == Remesh ==> markerKey == "remesh_task_id"
    requires resultKey != markerKey && requestKey != markerKey && markerKey != "last_task"
    ensures Kept(w, M.AdvanceOutcome(w, endpoint, request, recorded, next, resultKey, markerKey, requestKey, task, io, missing).world)
  {
    match M.CreatedTaskId(io.created, missing)
    case Failure(m) => CreateThenCatchKept(w, endpoint, request, m, false);
    case Success(id) =>
      CreateThenAdvanceKept(w, endpoint, request, next, resultKey, markerKey, requestKey, task, id, Obj(recorded));
  }

  lemma MeshySucceededKept(w: World, taskId: string, task: Value, io: M.MeshyIo)
    requires !IsTerminal(w.job.status)
    ensures Kept(w, M.SucceededOutcome(w, taskId, task, io).world)
  {
    match w.job.stage
    case Preview => MeshyPreviewKept(w, taskId, task, io);
    case Refine => MeshyRefineKept(w, taskId, task, io);
    case Remesh => MeshyFinishKept(w, Remesh, "remesh_result", task, io);
  }

  lemma MeshyPreviewKept(w: World, taskId: string, task: Value, io: M.MeshyIo)
    requires !IsTerminal(w.job.status) && w.job.stage == Preview
    ensures Kept(w, M.PreviewOutcome(w, taskId, task, io).world)
  {
    var cfg := MC.RefineConfig(w.job.requestPayload.GetOr(map[]));
    var o := M.PreviewOutcome(w, taskId, task, io);
    if !cfg.enabled {
      assert o == M.FinishOutcome(w, Preview, "preview_result", task, io);
      MeshyFinishKept(w, Preview, "preview_result", task, io);
    } else if Marker(w.job.resultPayload, "refine_task_id").Some? {
      var id := Marker(w.job.resultPayload, "refine_task_id").value;
      assert o == ResumeStep(w, Refine, id);
      ResumeStepKept(w, Refine, id);
    } else {
      var request := cfg.payload["preview_task_id" := Str(taskId)];
      assert o == M.AdvanceOutcome(w, MeshyTextTo3D, request, cfg.payload, Refine,
                                   "preview_result", "refine_task_id", "refine_request", task, io, M.TextTo3DMissingId);
      MeshyAdvanceKept(w, MeshyTextTo3D, request, cfg.payload, Refine,
                       "preview_result", "refine_task_id", "refine_request", task, io, M.TextTo3DMissingId);
    }
  }

  lemma MeshyRefineKept(w: World, taskId: string, task: Value, io: M.MeshyIo)
    requires !IsTerminal(w.job.status) && w.job.stage == Refine
    ensures Kept(w, M.RefineOutcome(w, taskId, task, io).world)
  {
    var cfg := MC.RemeshConfig(w.job.requestPayload.GetOr(map[]));
    var o := M.RefineOutcome(w, taskId, task, io);
    if !cfg.enabled {
      assert o == M.FinishOutcome(w, Refine, "refine_result", task, io);
      MeshyFinishKept(w, Refine, "refine_result", task, io);
    } else if Marker(w.job.resultPayload, "remesh_task_id").Some? {
      var id := Marker(w.job.resultPayload, "remesh_task_id").value;
      assert o == ResumeStep(w, Remesh, id);
      ResumeStepKept(w, Remesh, id);
    } else {
      var request := map["input_task_id" := Str(taskId)] + cfg.payload;
      assert o == M.AdvanceOutcome(w, MeshyRemesh, request, cfg.payload, Remesh,
                                   "refine_result", "remesh_task_id", "remesh_request", task, io, M.RemeshMissingId);
      MeshyAdvanceKept(w, MeshyRemesh, request, cfg.payload, Remesh,
                       "refine_result", "remesh_task_id", "remesh_request", task, io, M.RemeshMissingId);
    }
  }

  lemma MeshyReconcileKept(w: World, taskId: string, io: M.MeshyIo)
    requires !IsTerminal(w.job.status)
    ensures Kept(w, M.ReconcileOutcome(w, taskId, io).world)
  {
    var w1 := WithCall(w, GetTask(M.FetchEndpoint(w.job.stage), taskId));
    ReadKept(w, GetTask(M.FetchEndpoint(w.job.stage), taskId));
    var after := M.ReconcileOutcome(w, taskId, io).world;
    match M.ReadTask(io.fetched)
    case Failure(m) =>
      CatchStepKept(w1, m, false);
      KeptTransitive(w, w1, after);
    case Success(task) =>
      var status := M.TaskStatus(task);
      if status == Some(Str("PENDING")) || status == Some(Str("IN_PROGRESS")) {
        InProgressStepKept(w1, task, "Meshy task in progress");
      } else if status == Some(Str("FAILED")) {
        TerminateStepKept(w1, Failed, Some(M.FailureMessage(task)), task, io.now, map["message" := M.FailureMessage(task)]);
      } else if status == Some(Str("SUCCEEDED")) {
        MeshySucceededKept(w1, taskId, task, io);
      }
      KeptTransitive(w, w1, after);
  }

  lemma MeshyPollKept(w: World, io: M.MeshyIo)
    ensures Kept(w, M.PollOutcome(w, io).world)
  {
    if w.job.provider == Meshy && !IsTerminal(w.job.status) && w.job.providerTaskId.Some? && w.job.providerTaskId.value != "" {
      MeshyReconcileKept(w, w.job.providerTaskId.value, io);
    }
  }

  lemma MeshyWebhookKept(w: World, req: M.WebhookRequest, storedSecret: Option<Value>, io: M.MeshyIo)
    ensures Kept(w, M.WebhookOutcome(w, req, storedSecret, io).world)
  {
    var id := M.FirstTaskId(M.Candidates(req.body));
    if id.Some? && !IsTerminal(w.job.status) {
      MeshyReconcileKept(w, id.value, io);
    }
  }

  // ---------------------------------------------------------------------------------------
  // The Tripo poll handler.

  lemma TripoFinishKept(w: World, stage: Stage, key: string, task: Value, io: T.TripoIo)
    requires !IsTerminal(w.job.status) && key != "refine_task_id" && key != "remesh_task_id"
    ensures Kept(w, T.FinishOutcome(w, stage, key, task, io).world)
  {
    var w1 := FinishStep(w, stage, key, task, io.now);
    FinishStepKept(w, stage, key, task, io.now);
    TP.AssetUpdateKeepsProgress(w1, task, io);
    SameProgressKept(w1, T.AssetUpdate(w1, task, io));
    KeptTransitive(w, w1, T.AssetUpdate(w1, task, io));
  }

  lemma TripoAdvanceKept(w: World, request: Record, next: Stage, resultKey: string, markerKey: string,
                         requestKey: string, task: Value, io: T.TripoIo)
    requires !IsTerminal(w.job.status) && StageRank(next) == StageRank(w.job.stage) + 1
    requires next == Refine ==> markerKey == "refine_task_id"
    requires next == Remesh ==> markerKey == "remesh_task_id"
    requires resultKey != markerKey && requestKey != markerKey && markerKey != "last_task"
    ensures Kept(w, T.AdvanceOutcome(w, request, next, resultKey, markerKey, requestKey, task, io).world)
  {
    match T.CreatedTaskId(io.created)
    case Failure(m) => CreateThenCatchKept(w, TripoTask, request, m, true);
    case Success(id) =>
      CreateThenAdvanceKept(w, TripoTask, request, next, resultKey, markerKey, requestKey, task, id, Obj(request));
  }

  lemma TripoSucceededKept(w: World, taskId: string, task: Value, io: T.TripoIo)
    requires !IsTerminal(w.job.status)
    ensures Kept(w, T.SucceededOutcome(w, taskId, task, io).world)
  {
    match w.job.stage
    case Preview => TripoPreviewKept(w, taskId, task, io);
    case Refine => TripoRefineKept(w, taskId, task, io);
    case Remesh => TripoFinishKept(w, Remesh, "remesh_result", task, io);
  }

  lemma TripoPreviewKept(w: World, taskId: string, task: Value, io: T.TripoIo)
    requires !IsTerminal(w.job.status) && w.job.stage == Preview
    ensures Kept(w, T.PreviewOutcome(w, taskId, task, io).world)
  {
    var cfg := TC.RefineConfig(w.job.requestPayload.GetOr(map[]));
    var o := T.PreviewOutcome(w, taskId, task, io);
    if !cfg.enabled {
      assert o == T.FinishOutcome(w, Preview, "preview_result", task, io);
      TripoFinishKept(w, Preview, "preview_result", task, io);
    } else if Marker(w.job.resultPayload, "refine_task_id").Some? {
      var id := Marker(w.job.resultPayload, "refine_task_id").value;
      assert o == ResumeStep(w, Refine, id);
      ResumeStepKept(w, Refine, id);
    } else {
      var request := TC.RefineRequest(cfg.payload, taskId);
      assert o == T.AdvanceOutcome(w, request, Refine, "preview_result", "refine_task_id", "refine_request", task, io);
      TripoAdvanceKept(w, request, Refine, "preview_result", "refine_task_id", "refine_request", task, io);
    }
  }

  lemma TripoRefineKept(w: World, taskId: string, task: Value, io: T.TripoIo)
    requires !IsTerminal(w.job.status) && w.job.stage == Refine
    ensures Kept(w, T.RefineOutcome(w, taskId, task, io).world)
  {
    var cfg := TC.RemeshConfig(w.job.requestPayload.GetOr(map[]));
    var o := T.RefineOutcome(w, taskId, task, io);
    if !cfg.enabled {
      assert o == T.FinishOutcome(w, Refine, "refine_result", task, io);
      TripoFinishKept(w, Refine, "refine_result", task, io);
    } else if Marker(w.job.resultPayload, "remesh_task_id").Some? {
      var id := Marker(w.job.resultPayload, "remesh_task_id").value;
      assert o == ResumeStep(w, Remesh, id);
      ResumeStepKept(w, Remesh, id);
    } else {
      var request := TC.RemeshRequest(cfg.payload, taskId);
      assert o == T.AdvanceOutcome(w, request, Remesh, "refine_result", "remesh_task_id", "remesh_request", task, io);
      TripoAdvanceKept(w, request, Remesh, "refine_result", "remesh_task_id", "remesh_request", task, io);
    }
  }

  lemma TripoReconcileKept(w: World, taskId: string, io: T.TripoIo)
    requires !IsTerminal(w.job.status)
    ensures Kept(w, T.ReconcileOutcome(w, taskId, io).world)
  {
    var w1 := WithCall(w, GetTask(TripoTask, taskId));
    ReadKept(w, GetTask(TripoTask, taskId));
    var after := T.ReconcileOutcome(w, taskId, io).world;
    match T.ReadTask(io.fetched)
    case Failure(m) =>
      CatchStepKept(w1, m, true);
      KeptTransitive(w, w1, after);
    case Success(task) =>
      var status := Get(Props(task), "status");
      match TC.MapTripoStatus(status)
      case InProgress =>
        InProgressStepKept(w1, task, "Tripo task in progress");
        KeptTransitive(w, w1, after);
      case Failed =>
        TerminateStepKept(w1, Failed, Some(Str(T.FailureMessage(status))), task, io.now,
                          map["message" := Nullish(status, Str("failed"))]);
        KeptTransitive(w, w1, after);
      case Cancelled =>
        TerminateStepKept(w1, Cancelled, None, task, io.now, map["message" := Str("cancelled")]);
        KeptTransitive(w, w1, after);
      case Succeeded =>
        TripoSucceededKept(w1, taskId, task, io);
        KeptTransitive(w, w1, after);
  }

  lemma TripoPollKept(w: World, io: T.TripoIo)
    ensures Kept(w, T.PollOutcome(w, io).world)
  {
    if w.job.provider == Tripo && !IsTerminal(w.job.status) && w.job.providerTaskId.Some? && w.job.providerTaskId.value != "" {
      TripoReconcileKept(w, w.job.providerTaskId.value, io);
    }
  }

  // ---------------------------------------------------------------------------------------
  // The dispatcher.

  /** What a dispatch of a QUEUED preview job with an accepted update does to the budget's
      terms: one create, then FAILED with one refund or IN_PROGRESS with none, still at
      PREVIEW. */
  lemma DispatchEffects(w: World, io: T.DispatchIo)
    requires w.job.provider == Tripo && w.job.stage == Preview && w.job.status == Queued
    requires TC.BuildPreviewPayload(w.job.requestPayload).Success? && io.updateError.None?
    ensures var after := T.DispatchOutcome(w, io).world;
      && after.calls == w.calls + [CreateTask(TripoTask, TC.BuildPreviewPayload(w.job.requestPayload).value)]
      && after.job.stage == Preview
      && (T.CreatedTaskId(io.created).Failure? ==> after.job.status == Failed && |after.refunds| == |w.refunds| + 1)
      && (T.CreatedTaskId(io.created).Success? ==> after.job.status == InProgress && after.refunds == w.refunds)
  {
  }

  /** A world reached from a QUEUED preview job by one create, ending FAILED with one refund or
      IN_PROGRESS with none at the same stage, is within the budget. */
  lemma QueuedDispatchKept(a: World, b: World)
    requires a.job.stage == Preview && a.job.status == Queued && b.job.stage == Preview
    requires Creates(b.calls) == Creates(a.calls) + 1
    requires (b.job.status == Failed && |b.refunds| == |a.refunds| + 1) || (b.job.status == InProgress && b.refunds == a.refunds)
    ensures Kept(a, b)
  {
  }

  /** Dispatching a job that is not FAILED, whose update goes through, stays within the budget:
      its one creation is the preview task a QUEUED job was waiting for. */
  lemma DispatchKept(w: World, io: T.DispatchIo)
    requires w.job.status != Failed && io.updateError.None?
    ensures Kept(w, T.DispatchOutcome(w, io).world)
  {
    var job := w.job;
    if job.provider == Tripo && job.stage == Preview && job.status == Queued {
      var built := TC.BuildPreviewPayload(job.requestPayload);
      if built.Success? {
        var after := T.DispatchOutcome(w, io).world;
        DispatchEffects(w, io);
        CreatesAppend(w.calls, CreateTask(TripoTask, built.value));
        QueuedDispatchKept(w, after);
      }
    }
  }

  /** The two ways the dispatcher leaves the budget: a FAILED job is accepted again, so a
      second failure refunds a second time; and a job update that reports an error leaves the
      job QUEUED after its task was created, so the next dispatch creates another. */
  lemma DispatchOutsideBudget(w: World, io: T.DispatchIo)
    requires w.job.provider == Tripo && w.job.stage == Preview
    requires TC.BuildPreviewPayload(w.job.requestPayload).Success?
    ensures w.job.status == Failed && T.CreatedTaskId(io.created).Failure? ==>
              |T.DispatchOutcome(w, io).world.refunds| + Refundable(T.DispatchOutcome(w, io).world.job)
              == |w.refunds| + Refundable(w.job) + 1
    ensures w.job.status == Queued && T.CreatedTaskId(io.created).Success? && io.updateError.Some? ==>
              && T.DispatchOutcome(w, io).world.job == w.job
              && Creates(T.DispatchOutcome(w, io).world.calls) == Creates(w.calls) + 1
  {
    CreatesAppend(w.calls, CreateTask(TripoTask, TC.BuildPreviewPayload(w.job.requestPayload).value));
  }

  // ---------------------------------------------------------------------------------------
  // Runs.

  /** One run of a reconciling handler on the job, with what the outside world answers. */
  datatype Run =
    | MeshyPoll(mio: M.MeshyIo)
    | MeshyWebhook(req: M.WebhookRequest, storedSecret: Option<Value>, mio: M.MeshyIo)
    | TripoPoll(tio: T.TripoIo)

  function RunOnce(w: World, r: Run): World {
    match r
    case MeshyPoll(io) => M.PollOutcome(w, io).world
    case MeshyWebhook(req, secret, io) => M.WebhookOutcome(w, req, secret, io).world
    case TripoPoll(io) => T.PollOutcome(w, io).world
  }

  /** The world after the runs, in order. */
  function RunAll(w: World, runs: seq<Run>): World
    decreases |runs|
  {
    if runs == [] then w else RunAll(RunOnce(w, runs[0]), runs[1..])
  }

  lemma RunOnceKept(w: World, r: Run)
    ensures Kept(w, RunOnce(w, r))
  {
    match r
    case MeshyPoll(io) => MeshyPollKept(w, io);
    case MeshyWebhook(req, secret, io) => MeshyWebhookKept(w, req, secret, io);
    case TripoPoll(io) => TripoPollKept(w, io);
  }

  /** Any sequence of runs stays within the budget and keeps the markers in agreement. */
  lemma {:induction false} RunAllKept(w: World, runs: seq<Run>)
    ensures Kept(w, RunAll(w, runs))
    decreases |runs|
  {
    if runs != [] {
      var w1 := RunOnce(w, runs[0]);
      RunOnceKept(w, runs[0]);
      RunAllKept(w1, runs[1..]);
      KeptTransitive(w, w1, RunAll(w1, runs[1..]));
    }
  }

  /** However the provider answers and however often the handlers run, a job causes at most
      one task creation per stage still ahead of it (plus its preview task while QUEUED), at
      most one refund, and never moves back a stage. */
  lemma RunBounds(w: World, runs: seq<Run>)
    ensures var after := RunAll(w, runs);
      && Creates(after.calls) <= Creates(w.calls) + Potential(w.job)
      && Potential(w.job) <= 3
      && |after.refunds| <= |w.refunds| + Refundable(w.job)
      && StageRank(w.job.stage) <= StageRank(after.job.stage)
  {
    RunAllKept(w, runs);
  }

  /** A job whose markers agree keeps them in agreement through any runs. */
  lemma RunKeepsMarkers(w: World, runs: seq<Run>)
    requires MarkersAgree(w.job)
    ensures MarkersAgree(RunAll(w, runs).job)
  {
    RunAllKept(w, runs);
  }

  /** A finished job is final: no run reads, writes or refunds anything for it. */
  lemma {:induction false} TerminalJobIsFinal(w: World, runs: seq<Run>)
    requires IsTerminal(w.job.status)
    ensures RunAll(w, runs) == w
    decreases |runs|
  {
    if runs != [] {
      assert RunOnce(w, runs[0]) == w;
      TerminalJobIsFinal(w, runs[1..]);
    }
  }
}
