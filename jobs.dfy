/** The `ai_jobs` row, the side effects a job handler can have, and the backend those effects
    go to: the job row, the `ai_job_events` log, refund calls, provider calls, asset writes and
    storage uploads. */
module Jobs {
  import opened Wrappers
  import opened Json
  import Storage

  datatype Stage = Preview | Refine | Remesh
  datatype Status = Queued | InProgress | Succeeded | Failed | Cancelled
  datatype Provider = Meshy | Tripo

  /** SUCCEEDED, FAILED and CANCELLED end a job; every handler leaves such a job alone. */
  predicate IsTerminal(s: Status) {
    s == Succeeded || s == Failed || s == Cancelled
  }

  /** A stage's position in PREVIEW -> REFINE -> REMESH. */
  function StageRank(s: Stage): nat {
    match s
    case Preview => 0
    case Refine => 1
    case Remesh => 2
  }

  /** A row of `ai_jobs`. `errorMessage` holds whatever was written there, which for a Meshy
      failure is the provider's `message` field as sent. */
  datatype Job = Job(
    id: string,
    userId: string,
    assetId: Option<string>,
    stage: Stage,
    status: Status,
    provider: Provider,
    providerTaskId: Option<string>,
    requestPayload: Option<Record>,
    resultPayload: Option<Record>,
    errorMessage: Option<Value>,
    startedAt: Option<string>,
    completedAt: Option<string>)

  /** The columns one `.update({...})` call sets; None leaves a column as it was. */
  datatype JobUpdate = JobUpdate(
    stage: Option<Stage>,
    status: Option<Status>,
    providerTaskId: Option<string>,
    resultPayload: Option<Record>,
    errorMessage: Option<Value>,
    startedAt: Option<string>,
    completedAt: Option<string>)

  function Apply(job: Job, u: JobUpdate): Job {
    job.(stage := u.stage.GetOr(job.stage),
         status := u.status.GetOr(job.status),
         providerTaskId := if u.providerTaskId.Some? then u.providerTaskId else job.providerTaskId,
         resultPayload := if u.resultPayload.Some? then u.resultPayload else job.resultPayload,
         errorMessage := if u.errorMessage.Some? then u.errorMessage else job.errorMessage,
         startedAt := if u.startedAt.Some? then u.startedAt else job.startedAt,
         completedAt := if u.completedAt.Some? then u.completedAt else job.completedAt)
  }

  /** `{ error_message: message }` alone. */
  function SetError(message: string): JobUpdate {
    JobUpdate(None, None, None, None, Some(Str(message)), None, None)
  }

  /** `mergeResult`: `{ ...(result_payload ?? {}), ...patch }`. */
  function MergeResult(resultPayload: Option<Record>, patch: Record): (r: Record)
    ensures r.Keys == resultPayload.GetOr(map[]).Keys + patch.Keys
    ensures forall k :: k in patch ==> r[k] == patch[k]
    ensures forall k :: k in resultPayload.GetOr(map[]) && k !in patch ==> r[k] == resultPayload.GetOr(map[])[k]
  {
    resultPayload.GetOr(map[]) + patch
  }

  /** Whether a later stage runs, and the settings sent to the provider when it does. Keys
      whose value the source leaves `undefined` are absent, as after `JSON.stringify`. */
  datatype StageConfig = StageConfig(enabled: bool, payload: Record)

  /** The remesh polycount: the stage section's number, else the payload's top-level number, else 3500. */
  function TargetPolycount(payload: Record, sec: Record): (n: int)
    ensures GetNumber(sec, "target_polycount").Some? ==> n == sec["target_polycount"].n
    ensures GetNumber(sec, "target_polycount").None? && GetNumber(payload, "target_polycount").Some?
            ==> n == payload["target_polycount"].n
    ensures GetNumber(sec, "target_polycount").None? && GetNumber(payload, "target_polycount").None? ==> n == 3500
  {
    match GetNumber(sec, "target_polycount")
    case Some(n) => n
    case None => GetNumber(payload, "target_polycount").GetOr(3500)
  }

  /** A row of `ai_job_events`, as `logJobEvent` inserts it. */
  datatype JobEvent = JobEvent(
    jobId: string,
    userId: string,
    stage: Stage,
    status: Status,
    providerTaskId: Option<string>,
    payload: Record)

  /** The provider endpoints the handlers call. */
  datatype Endpoint = MeshyTextTo3D | MeshyRemesh | TripoTask

  /** A request sent to a provider: reading a task, or creating one. */
  datatype ProviderCall = GetTask(endpoint: Endpoint, taskId: string) | CreateTask(endpoint: Endpoint, request: Record)

  /** An update of an `assets` row that took effect. */
  datatype AssetWrite = AssetWrite(assetId: string, fields: map<string, string>)

  /** Everything a job handler can observe or change: the one job it works on and the logs of
      its effects, oldest first. `refunds` holds the job id of each `refund_job_credits` call. */
  datatype World = World(
    job: Job,
    events: seq<JobEvent>,
    refunds: seq<string>,
    calls: seq<ProviderCall>,
    assetWrites: seq<AssetWrite>,
    uploads: seq<Storage.Upload>)

  function WithUpdate(w: World, u: JobUpdate): World {
    w.(job := Apply(w.job, u))
  }

  function WithEvent(w: World, e: JobEvent): World {
    w.(events := w.events + [e])
  }

  function WithRefund(w: World): World {
    w.(refunds := w.refunds + [w.job.id])
  }

  function WithCall(w: World, c: ProviderCall): World {
    w.(calls := w.calls + [c])
  }

  function WithAssetWrite(w: World, a: AssetWrite): World {
    w.(assetWrites := w.assetWrites + [a])
  }

  function WithUploads(w: World, ups: seq<Storage.Upload>): World {
    w.(uploads := w.uploads + ups)
  }

  /** The event for `job` at `stage`/`status`. */
  function EventOf(job: Job, stage: Stage, status: Status, providerTaskId: Option<string>, payload: Record): JobEvent {
    JobEvent(job.id, job.userId, stage, status, providerTaskId, payload)
  }

  /** The HTTP answer of a handler. */
  datatype Reply =
    | Progress(jobId: string, stage: Stage, status: Status)   // 200 { job_id, stage, status }
    | Dispatched(jobId: string, taskId: string)               // 200 { job_id, task_id, status: IN_PROGRESS, stage: PREVIEW }
    | AlreadyInProgress(status: Status)                       // 200 { status, message: "Job already in progress" }
    | NoMatchingJob                                           // 202 { received: true, message: "No matching job" }
    | Error(code: int, message: string)

  datatype Outcome = Outcome(world: World, reply: Reply)

  /** The number of task creations in a call log. */
  function Creates(calls: seq<ProviderCall>): nat {
    if calls == [] then 0
    else (if calls[|calls| - 1].CreateTask? then 1 else 0) + Creates(calls[..|calls| - 1])
  }

  /** Two calls made one after the other. */
  lemma CallsInOrder(calls: seq<ProviderCall>, first: ProviderCall, second: ProviderCall)
    ensures calls + [first] + [second] == calls + [first, second]
  {
  }

  lemma CreatesAppend(calls: seq<ProviderCall>, c: ProviderCall)
    ensures Creates(calls + [c]) == Creates(calls) + (if c.CreateTask? then 1 else 0)
  {
    assert (calls + [c])[..|calls|] == calls;
  }

  /** The effects the handlers write to. Job-row updates, event inserts and the refund RPC do
      not throw in the source; they are modelled as taking effect, and a handler that reads an
      update's error (the Tripo dispatcher) is given that error as an input. */
  class Backend {
    var job: Job
    var events: seq<JobEvent>
    var refunds: seq<string>
    var calls: seq<ProviderCall>
    var assetWrites: seq<AssetWrite>
    var uploads: seq<Storage.Upload>

    function State(): World
      reads this
    {
      World(job, events, refunds, calls, assetWrites, uploads)
    }

    constructor(w: World)
      ensures State() == w
    {
      job := w.job;
      events := w.events;
      refunds := w.refunds;
      calls := w.calls;
      assetWrites := w.assetWrites;
      uploads := w.uploads;
    }

    /** `admin.from("ai_jobs").update(u).eq("id", job.id)`. */
    method UpdateJob(u: JobUpdate)
      modifies this
      ensures State() == WithUpdate(old(State()), u)
    {
      job := Apply(job, u);
    }

    /** `logJobEvent(...)`. */
    method LogEvent(e: JobEvent)
      modifies this
      ensures State() == WithEvent(old(State()), e)
    {
      events := events + [e];
    }

    /** `refundJobCredits(admin, job.id)`. */
    method RefundCredits()
      modifies this
      ensures State() == WithRefund(old(State()))
    {
      refunds := refunds + [job.id];
    }

    /** A request to the provider; its answer is supplied by the caller. */
    method CallProvider(c: ProviderCall)
      modifies this
      ensures State() == WithCall(old(State()), c)
    {
      calls := calls + [c];
    }

    /** `admin.from("assets").update(fields).eq("id", assetId)` when it succeeds. */
    method WriteAsset(a: AssetWrite)
      modifies this
      ensures State() == WithAssetWrite(old(State()), a)
    {
      assetWrites := assetWrites + [a];
    }

    /** The storage uploads one `persistRemoteAssets` call made. */
    method RecordUploads(ups: seq<Storage.Upload>)
      modifies this
      ensures State() == WithUploads(old(State()), ups)
    {
      uploads := uploads + ups;
    }
  }
}
