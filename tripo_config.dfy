/** The pure helpers of the Tripo handlers: where each stage's settings come from, the refine
    and remesh settings, the preview request the dispatcher builds, and the map from Tripo's
    task statuses to job statuses. */
module TripoConfig {
  import opened Wrappers
  import opened Json
  import opened Jobs

  /** `getTripoConfig`: each stage's settings, before their defaults. */
  datatype TripoSections = TripoSections(preview: Record, refine: Option<Value>, remesh: Option<Value>)

  /** `tripo.<stage>` when it is an object, else `payload.<stage>` as it is. */
  function StageSetting(payload: Record, stage: string): (v: Option<Value>)
    ensures GetObject(Section(payload, "tripo"), stage).Some? ==> v == Some(Section(payload, "tripo")[stage])
    ensures GetObject(Section(payload, "tripo"), stage).None? ==> v == Get(payload, stage)
  {
    var tripo := Section(payload, "tripo");
    if GetObject(tripo, stage).Some? then Some(tripo[stage]) else Get(payload, stage)
  }

  /** `getTripoConfig`: the `tripo` section's stage objects win; the preview falls back to the
      whole payload, refine and remesh to the payload's own `refine` / `remesh`. */
  function GetTripoConfig(payload: Record): (t: TripoSections)
    ensures var tripo := Section(payload, "tripo");
      && (GetObject(tripo, "preview").Some? ==> t.preview == Props(tripo["preview"]))
      && (GetObject(tripo, "preview").None? ==> t.preview == payload)
      && (GetObject(tripo, "refine").Some? ==> t.refine == Some(tripo["refine"]))
      && (GetObject(tripo, "refine").None? ==> t.refine == Get(payload, "refine"))
      && (GetObject(tripo, "remesh").Some? ==> t.remesh == Some(tripo["remesh"]))
      && (GetObject(tripo, "remesh").None? ==> t.remesh == Get(payload, "remesh"))
  {
    var tripo := Section(payload, "tripo");
    TripoSections(GetObject(tripo, "preview").GetOr(payload), StageSetting(payload, "refine"), StageSetting(payload, "remesh"))
  }

  /** `config ?? {}` read as a record. */
  function SettingRecord(v: Option<Value>): Record {
    Props(Nullish(v, Obj(map[])))
  }

  /** `getRefineConfig`: the refine settings as given, enabled unless they say `enabled: false`. */
  function RefineConfig(payload: Record): (c: StageConfig)
    ensures var config := SettingRecord(GetTripoConfig(payload).refine);
      && c.payload == config
      && (!c.enabled <==> "enabled" in config && config["enabled"] == Bool(false))
  {
    var config := SettingRecord(GetTripoConfig(payload).refine);
    StageConfig(GetBool(config, "enabled").GetOr(true), config)
  }

  /** `getRemeshConfig`: the remesh settings with `target_polycount` (the settings' number,
      else the payload's, else 3500) and `format` (a string setting, else "FBX") resolved;
      every other key is kept. */
  function RemeshConfig(payload: Record): (c: StageConfig)
    ensures var config := SettingRecord(GetTripoConfig(payload).remesh);
      && (!c.enabled <==> "enabled" in config && config["enabled"] == Bool(false))
      && c.payload.Keys == config.Keys + {"target_polycount", "format"}
      && "target_polycount" in c.payload && c.payload["target_polycount"] == Num(TargetPolycount(payload, config))
      && "format" in c.payload && c.payload["format"] == Str(GetString(config, "format").GetOr("FBX"))
      && (forall k :: k in config && k != "target_polycount" && k != "format" ==> c.payload[k] == config[k])
  {
    var config := SettingRecord(GetTripoConfig(payload).remesh);
    StageConfig(GetBool(config, "enabled").GetOr(true),
                config + map["target_polycount" := Num(TargetPolycount(payload, config)),
                             "format" := Str(GetString(config, "format").GetOr("FBX"))])
  }

  /** The refine request: the settings, `type: "refine_model"`, and the preview task as
      `draft_model_task_id`. */
  function RefineRequest(settings: Record, previewTaskId: string): (r: Record)
    ensures r.Keys == settings.Keys + {"type", "draft_model_task_id"}
    ensures r["type"] == Str("refine_model") && r["draft_model_task_id"] == Str(previewTaskId)
    ensures forall k :: k in settings && k != "type" && k != "draft_model_task_id" ==> r[k] == settings[k]
  {
    settings + map["type" := Str("refine_model"), "draft_model_task_id" := Str(previewTaskId)]
  }

  /** The remesh request: the settings, `type: "convert_model"`, `format` (with a last "FBX"
      default), `face_limit` equal to `target_polycount`, and the refine task as
      `original_model_task_id`. */
  function RemeshRequest(settings: Record, refineTaskId: string): (r: Record)
    ensures r.Keys == settings.Keys + {"type", "format", "face_limit", "original_model_task_id"}
    ensures r["type"] == Str("convert_model") && r["original_model_task_id"] == Str(refineTaskId)
    ensures r["face_limit"] == Get(settings, "target_polycount").GetOr(Null)
    ensures r["format"] == Nullish(Get(settings, "format"), Str("FBX"))
    ensures forall k :: k in settings && k !in {"type", "format", "face_limit", "original_model_task_id"} ==> r[k] == settings[k]
  {
    settings + map["type" := Str("convert_model"),
                   "format" := Nullish(Get(settings, "format"), Str("FBX")),
                   "face_limit" := Get(settings, "target_polycount").GetOr(Null),
                   "original_model_task_id" := Str(refineTaskId)]
  }

  /** The remesh request built from resolved settings sends `face_limit` equal to the
      resolved polycount and the resolved format. */
  lemma RemeshRequestLimits(payload: Record, refineTaskId: string)
    ensures var cfg := RemeshConfig(payload);
      var config := SettingRecord(GetTripoConfig(payload).remesh);
      var r := RemeshRequest(cfg.payload, refineTaskId);
      && r["face_limit"] == r["target_polycount"] == Num(TargetPolycount(payload, config))
      && r["format"] == Str(GetString(config, "format").GetOr("FBX"))
  {
  }

  /** `mapTripoStatus`: every status, known or not, maps to a job status, and never to QUEUED. */
  function MapTripoStatus(status: Option<Value>): (s: Status)
    ensures s != Queued
    ensures !Truthy(status) ==> s == InProgress
    ensures status == Some(Str("queued")) || status == Some(Str("running")) ==> s == InProgress
    ensures status == Some(Str("success")) ==> s == Succeeded
    ensures status == Some(Str("cancelled")) ==> s == Cancelled
    ensures Truthy(status) && status !in {Some(Str("queued")), Some(Str("running")), Some(Str("success")), Some(Str("cancelled"))}
            ==> s == Failed
  {
    if !Truthy(status) then InProgress
    else if status == Some(Str("queued")) || status == Some(Str("running")) then InProgress
    else if status == Some(Str("success")) then Succeeded
    else if status == Some(Str("cancelled")) then Cancelled
    else Failed
  }

  const PromptRequired := "prompt is required in request_payload"

  /** The preview settings of the dispatcher: `tripo.preview`, else `payload.preview`, else the
      whole payload, whichever is first an object. */
  function PreviewSource(payload: Record): (p: Record)
    ensures GetObject(Section(payload, "tripo"), "preview").Some? ==> p == Props(Section(payload, "tripo")["preview"])
    ensures GetObject(Section(payload, "tripo"), "preview").None? && GetObject(payload, "preview").Some?
            ==> p == Props(payload["preview"])
    ensures GetObject(Section(payload, "tripo"), "preview").None? && GetObject(payload, "preview").None? ==> p == payload
  {
    match GetObject(Section(payload, "tripo"), "preview")
    case Some(r) => r
    case None => GetObject(payload, "preview").GetOr(payload)
  }

  /** `preview.prompt` when it is a string, else `payload.prompt` when it is one, else "". */
  function Prompt(payload: Record, preview: Record): (prompt: string)
    ensures GetString(preview, "prompt").Some? ==> prompt == preview["prompt"].s
    ensures GetString(preview, "prompt").None? ==> prompt == GetString(payload, "prompt").GetOr("")
  {
    match GetString(preview, "prompt")
    case Some(s) => s
    case None => GetString(payload, "prompt").GetOr("")
  }

  /** `buildPreviewPayload`: the preview settings with `type` (default "text_to_model") and the
      resolved prompt; an empty prompt is an error. */
  function BuildPreviewPayload(requestPayload: Option<Record>): (r: Result<Record, string>)
    ensures var payload := requestPayload.GetOr(map[]);
      var preview := PreviewSource(payload);
      && (r.Failure? <==> Prompt(payload, preview) == "")
      && (r.Failure? ==> r.error == PromptRequired)
      && (r.Success? ==>
            && r.value.Keys == preview.Keys + {"type", "prompt"}
            && r.value["prompt"] == Str(Prompt(payload, preview))
            && r.value["type"] == Str(GetString(preview, "type").GetOr("text_to_model"))
            && (forall k :: k in preview && k != "type" && k != "prompt" ==> r.value[k] == preview[k]))
  {
    var payload := requestPayload.GetOr(map[]);
    var preview := PreviewSource(payload);
    var prompt := Prompt(payload, preview);
    if prompt == "" then Failure(PromptRequired)
    else Success(preview + map["type" := Str(GetString(preview, "type").GetOr("text_to_model")), "prompt" := Str(prompt)])
  }
}
