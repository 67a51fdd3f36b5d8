/** The steps the Meshy and Tripo job handlers share: each is a pure function from the world
    before the step to the world after it and the reply, and a method on the `Backend` that
    performs the same writes one at a time. */
module Reconcile {
  import opened Wrappers
  import opened Json
  import opened Jobs
  import Storage

  /** `{ status, result_payload }` and the optional columns. */
  function StatusUpdate(status: Status, resultPayload: Record): JobUpdate {
    JobUpdate(None, Some(status), None, Some(resultPayload), None, None, None)
  }

  /** The id stored under `key` in `result_payload` by an earlier advance, if it is a non-empty
      string: `typeof rp?.[key] === "string" ? String(rp[key]) : null`, then tested for
      truthiness. */
  function Marker(resultPayload: Option<Record>, key: string): (m: Option<string>)
    ensures m.Some? <==> resultPayload.Some? && key in resultPayload.value
                         && resultPayload.value[key].Str? && resultPayload.value[key].s != ""
    ensures m.Some? ==> resultPayload.value[key] == Str(m.value)
  {
    if resultPayload.Some? then
      match GetString(resultPayload.value, key)
      case Some(s) => if s != "" then Some(s) else None
      case None => None
    else None
  }

  /** The provider still works on the task: status IN_PROGRESS, the task saved as `last_task`,
      and an event only when the job was not already IN_PROGRESS. */
  function InProgressStep(w: World, task: Value, message: string): Outcome {
    var job := w.job;
    var w1 := WithUpdate(w, StatusUpdate(InProgress, MergeResult(job.resultPayload, map["last_task" := task])));
    var w2 := if job.status != InProgress
      then WithEvent(w1, EventOf(job, job.stage, InProgress, job.providerTaskId, map["message" := Str(message)]))
      else w1;
    Outcome(w2, Progress(job.id, job.stage, InProgress))
  }

  method StayInProgress(b: Backend, task: Value, message: string) returns (reply: Reply)
    modifies b
    ensures Outcome(b.State(), reply) == InProgressStep(old(b.State()), task, message)
  {
    var job := b.job;
    b.UpdateJob(StatusUpdate(InProgress, MergeResult(job.resultPayload, map["last_task" := task])));
    if job.status != InProgress {
      b.LogEvent(EventOf(job, job.stage, InProgress, job.providerTaskId, map["message" := Str(message)]));
    }
    reply := Progress(job.id, job.stage, InProgress);
  }

  /** The task ended without a result: the terminal `status`, the error message when one is
      given, `last_task` and `completed_at`; then one refund and one event. */
  function TerminateStep(w: World, status: Status, errorMessage: Option<Value>, task: Value,
                         now: string, eventPayload: Record): Outcome
  {
    var job := w.job;
    var u := JobUpdate(None, Some(status), None, Some(MergeResult(job.resultPayload, map["last_task" := task])),
                       errorMessage, None, Some(now));
    var w1 := WithRefund(WithUpdate(w, u));
    Outcome(WithEvent(w1, EventOf(job, job.stage, status, job.providerTaskId, eventPayload)),
            Progress(job.id, job.stage, status))
  }

  method Terminate(b: Backend, status: Status, errorMessage: Option<Value>, task: Value,
                   now: string, eventPayload: Record) returns (reply: Reply)
    modifies b
    ensures Outcome(b.State(), reply) == TerminateStep(old(b.State()), status, errorMessage, task, now, eventPayload)
  {
    var job := b.job;
    b.UpdateJob(JobUpdate(None, Some(status), None, Some(MergeResult(job.resultPayload, map["last_task" := task])),
                          errorMessage, None, Some(now)));
    b.RefundCredits();
    b.LogEvent(EventOf(job, job.stage, status, job.providerTaskId, eventPayload));
    reply := Progress(job.id, job.stage, status);
  }

  /** The stage's task succeeded and no further stage follows: SUCCEEDED, the task saved under
      `key` and as `last_task`, `completed_at`, and one SUCCEEDED event carrying the task. The
      asset row is written afterwards by the provider's own asset step. */
  function FinishStep(w: World, stage: Stage, key: string, task: Value, now: string): World {
    var job := w.job;
    var u := JobUpdate(None, Some(Succeeded), None,
                       Some(MergeResult(job.resultPayload, map[key := task, "last_task" := task])), None, None, Some(now));
    WithEvent(WithUpdate(w, u), EventOf(job, stage, Succeeded, job.providerTaskId, map[key := task]))
  }

  method Finish(b: Backend, stage: Stage, key: string, task: Value, now: string)
    modifies b
    ensures b.State() == FinishStep(old(b.State()), stage, key, task, now)
  {
    var job := b.job;
    b.UpdateJob(JobUpdate(None, Some(Succeeded), None,
                          Some(MergeResult(job.resultPayload, map[key := task, "last_task" := task])), None, None, Some(now)));
    b.LogEvent(EventOf(job, stage, Succeeded, job.providerTaskId, map[key := task]));
  }

  /** A task for the next stage was created earlier: move to it, IN_PROGRESS, with the stored
      id as the provider task id; nothing is created. */
  function ResumeStep(w: World, next: Stage, marker: string): Outcome {
    var job := w.job;
    var w1 := WithUpdate(w, JobUpdate(Some(next), Some(InProgress), Some(marker), None, None, None, None));
    Outcome(WithEvent(w1, EventOf(job, next, InProgress, Some(marker), map["resumed" := Bool(true)])),
            Progress(job.id, next, InProgress))
  }

  method Resume(b: Backend, next: Stage, marker: string) returns (reply: Reply)
    modifies b
    ensures Outcome(b.State(), reply) == ResumeStep(old(b.State()), next, marker)
  {
    var job := b.job;
    b.UpdateJob(JobUpdate(Some(next), Some(InProgress), Some(marker), None, None, None, None));
    b.LogEvent(EventOf(job, next, InProgress, Some(marker), map["resumed" := Bool(true)]));
    reply := Progress(job.id, next, InProgress);
  }

  /** The `result_payload` patch of an advance: the finished stage's task, the new task's id
      as the marker, the recorded request and `last_task`. */
  function AdvancePatch(resultKey: string, markerKey: string, requestKey: string, task: Value,
                        id: string, recorded: Value): Record
  {
    map[resultKey := task, markerKey := Str(id), requestKey := recorded, "last_task" := task]
  }

  /** The next stage's task `id` was just created: move to `next`, IN_PROGRESS, with `id` as the
      provider task id; one event carrying the request. */
  function AdvanceStep(w: World, next: Stage, id: string, patch: Record, recorded: Value): Outcome {
    var job := w.job;
    var w1 := WithUpdate(w, JobUpdate(Some(next), Some(InProgress), Some(id),
                                      Some(MergeResult(job.resultPayload, patch)), None, None, None));
    Outcome(WithEvent(w1, EventOf(job, next, InProgress, Some(id), map["request" := recorded])),
            Progress(job.id, next, InProgress))
  }

  method Advance(b: Backend, next: Stage, id: string, patch: Record, recorded: Value) returns (reply: Reply)
    modifies b
    ensures Outcome(b.State(), reply) == AdvanceStep(old(b.State()), next, id, patch, recorded)
  {
    var job := b.job;
    b.UpdateJob(JobUpdate(Some(next), Some(InProgress), Some(id),
                          Some(MergeResult(job.resultPayload, patch)), None, None, None));
    b.LogEvent(EventOf(job, next, InProgress, Some(id), map["request" := recorded]));
    reply := Progress(job.id, next, InProgress);
  }

  /** The `catch` block: FAILED with the exception's message, a refund when the provider's
      handler issues one, and a 500 carrying the message. */
  function CatchStep(w: World, message: string, refund: bool): Outcome {
    var w1 := WithUpdate(w, JobUpdate(None, Some(Failed), None, None, Some(Str(message)), None, None));
    Outcome(if refund then WithRefund(w1) else w1, Error(500, message))
  }

  method Catch(b: Backend, message: string, refund: bool) returns (reply: Reply)
    modifies b
    ensures Outcome(b.State(), reply) == CatchStep(old(b.State()), message, refund)
  {
    b.UpdateJob(JobUpdate(None, Some(Failed), None, None, Some(Str(message)), None, None));
    if refund {
      b.RefundCredits();
    }
    reply := Error(500, message);
  }

  /** The part of a world the reconcile steps are judged by agrees: everything but the asset
      writes, the uploads and the job's error message. */
  predicate SameProgress(a: World, b: World) {
    && a.job == b.job.(errorMessage := a.job.errorMessage)
    && a.events == b.events && a.refunds == b.refunds && a.calls == b.calls
  }

  // ---------------------------------------------------------------------------------------
  // The asset row written when a job succeeds (`updateAssetFromTask`).

  /** Sets `key` to `url` when the URL is present and non-empty (`if (url) payload[key] = url`). */
  function WithUrl(fields: map<string, string>, key: string, urls: map<Storage.Channel, string>,
                   c: Storage.Channel): map<string, string>
  {
    if c in urls && urls[c] != "" then fields[key := urls[c]] else fields
  }

  /** The asset fields a provider's result gives: `source_job_id` and one `*_url` key per
      channel with a URL, filled in channel order. */
  function AssetFields(jobId: string, urls: map<Storage.Channel, string>): map<string, string> {
    var f0 := map["source_job_id" := jobId];
    var f1 := WithUrl(f0, Storage.UrlKey(Storage.Mesh), urls, Storage.Mesh);
    var f2 := WithUrl(f1, Storage.UrlKey(Storage.Albedo), urls, Storage.Albedo);
    var f3 := WithUrl(f2, Storage.UrlKey(Storage.Metalness), urls, Storage.Metalness);
    var f4 := WithUrl(f3, Storage.UrlKey(Storage.Roughness), urls, Storage.Roughness);
    WithUrl(f4, Storage.UrlKey(Storage.Normal), urls, Storage.Normal)
  }

  /** `updatePayload` holds `source_job_id` = the job id, and a channel's URL key exactly when
      that channel has a non-empty URL, with that URL as its value. */
  lemma AssetFieldsShape(jobId: string, urls: map<Storage.Channel, string>)
    ensures var f := AssetFields(jobId, urls);
      && "source_job_id" in f && f["source_job_id"] == jobId
      && (forall c :: (Storage.UrlKey(c) in f <==> c in urls && urls[c] != "")
                      && (Storage.UrlKey(c) in f ==> f[Storage.UrlKey(c)] == urls[c]))
      && (forall k :: k in f ==> k == "source_job_id" || exists c :: k == Storage.UrlKey(c))
  {
    var f := AssetFields(jobId, urls);
    forall c ensures (Storage.UrlKey(c) in f <==> c in urls && urls[c] != "")
                     && (Storage.UrlKey(c) in f ==> f[Storage.UrlKey(c)] == urls[c])
    {
      match c
      case Mesh => {}
      case Albedo => {}
      case Metalness => {}
      case Roughness => {}
      case Normal => {}
    }
  }

  /** `updatePayload`, filled field by field. */
  method BuildAssetFields(jobId: string, urls: map<Storage.Channel, string>) returns (fields: map<string, string>)
    ensures fields == AssetFields(jobId, urls)
  {
    fields := map["source_job_id" := jobId];
    if Storage.Mesh in urls && urls[Storage.Mesh] != "" { fields := fields["mesh_url" := urls[Storage.Mesh]]; }
    if Storage.Albedo in urls && urls[Storage.Albedo] != "" { fields := fields["texture_url" := urls[Storage.Albedo]]; }
    if Storage.Metalness in urls && urls[Storage.Metalness] != "" {
      fields := fields["pbr_metalness_url" := urls[Storage.Metalness]];
    }
    if Storage.Roughness in urls && urls[Storage.Roughness] != "" {
      fields := fields["pbr_roughness_url" := urls[Storage.Roughness]];
    }
    if Storage.Normal in urls && urls[Storage.Normal] != "" { fields := fields["pbr_normal_url" := urls[Storage.Normal]]; }
  }

  /** Adds each stored path under its `*_storage_path` key. */
  function WithStoredPaths(fields: map<string, string>, paths: map<Storage.Channel, string>): map<string, string> {
    fields + map c | c in paths :: Storage.StorageKey(c) := paths[c]
  }

  /** `shouldStoreAssets`: storing is skipped only when the request says `store_assets: false`. */
  function ShouldStoreAssets(payload: Option<Record>): (store: bool)
    ensures !store <==> payload.Some? && "store_assets" in payload.value && payload.value["store_assets"] == Bool(false)
  {
    !(payload.Some? && Get(payload.value, "store_assets") == Some(Bool(false)))
  }

  /** The `try { persistRemoteAssets(...) } catch` block: the uploads happen; on success the
      paths join the asset fields, on failure the job's error message records it and the
      fields stay as they were. */
  function StoreStep(w: World, assetId: string, urls: map<Storage.Channel, string>, fields: map<string, string>,
                     maxMb: Option<JsNum>, io: Storage.TransferIo): (World, map<string, string>)
  {
    var p := Storage.Persist(w.job.userId, assetId, urls, maxMb, io);
    var w1 := WithUploads(w, p.uploads);
    match p.result
    case Success(paths) => (w1, WithStoredPaths(fields, paths))
    case Failure(m) => (WithUpdate(w1, SetError("Storage import failed: " + m)), fields)
  }

  method Store(b: Backend, assetId: string, urls: map<Storage.Channel, string>, fields: map<string, string>,
               maxMb: Option<JsNum>, io: Storage.TransferIo) returns (fields': map<string, string>)
    modifies b
    ensures (b.State(), fields') == StoreStep(old(b.State()), assetId, urls, fields, maxMb, io)
  {
    var result, uploads := Storage.PersistRemoteAssets(b.job.userId, assetId, urls, maxMb, io);
    b.RecordUploads(uploads);
    match result
    case Success(paths) =>
      fields' := WithStoredPaths(fields, paths);
    case Failure(m) =>
      b.UpdateJob(SetError("Storage import failed: " + m));
      fields' := fields;
  }
}
