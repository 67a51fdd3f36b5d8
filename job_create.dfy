/** The job-creation endpoint after authentication and rate limiting: which part of the body
    is the request payload, which provider gets the job, whether the prompt is acceptable,
    what the credit-charging RPC is asked for, and how its answer becomes the reply. */
module JobCreate {
  import opened Wrappers
  import opened Json
  import opened Text
  import Jobs

  /** `extractPayload`: `body.request_payload` when it is an object, else the body itself. */
  function ExtractPayload(body: Record): (p: Record)
    ensures "request_payload" in body && IsObject(body["request_payload"]) ==> p == Props(body["request_payload"])
    ensures !("request_payload" in body && IsObject(body["request_payload"])) ==> p == body
  {
    GetObject(body, "request_payload").GetOr(body)
  }

  /** The provider named by `payload.provider` in any letter case, if it names one. */
  function ExplicitProvider(payload: Record): (p: Option<Jobs.Provider>)
    ensures p == Some(Jobs.Tripo) <==> GetString(payload, "provider").Some? && Upper(payload["provider"].s) == "TRIPO"
    ensures p == Some(Jobs.Meshy) <==> GetString(payload, "provider").Some? && Upper(payload["provider"].s) == "MESHY"
  {
    var name := Upper(GetString(payload, "provider").GetOr(""));
    if name == "TRIPO" then Some(Jobs.Tripo)
    else if name == "MESHY" then Some(Jobs.Meshy)
    else None
  }

  /** Rigging is asked for, or the category is an avatar or a character. */
  predicate WantsRig(payload: Record) {
    || Get(payload, "requires_rig") == Some(Bool(true))
    || Get(payload, "auto_rig") == Some(Bool(true))
    || Lower(GetString(payload, "category").GetOr("")) in {"avatar", "character"}
  }

  /** `selectProvider`: an explicit TRIPO or MESHY wins; otherwise a rigged or avatar-like
      request goes to TRIPO and everything else to MESHY. */
  function SelectProvider(payload: Record): (p: Jobs.Provider)
    ensures ExplicitProvider(payload).Some? ==> p == ExplicitProvider(payload).value
    ensures ExplicitProvider(payload).None? ==> (p == Jobs.Tripo <==> WantsRig(payload))
  {
    match ExplicitProvider(payload)
    case Some(p) => p
    case None => if WantsRig(payload) then Jobs.Tripo else Jobs.Meshy
  }

  /** The provider name is read case-insensitively: two spellings that agree once upper-cased
      select the same provider, and so do a name and its lower-case form. */
  lemma ProviderNameIgnoresCase(payload: Record, a: string, b: string)
    requires Upper(a) == Upper(b)
    ensures SelectProvider(payload["provider" := Str(a)]) == SelectProvider(payload["provider" := Str(b)])
    ensures SelectProvider(payload["provider" := Str(Lower(a))]) == SelectProvider(payload["provider" := Str(a)])
  {
    UpperOfLower(a);
    NamedProvider(payload, a);
    NamedProvider(payload, b);
    NamedProvider(payload, Lower(a));
  }

  /** Naming a provider leaves the rig hints alone, and the name counts only upper-cased. */
  lemma NamedProvider(payload: Record, name: string)
    ensures var named := payload["provider" := Str(name)];
      && WantsRig(named) == WantsRig(payload)
      && ExplicitProvider(named) == (if Upper(name) == "TRIPO" then Some(Jobs.Tripo)
                                     else if Upper(name) == "MESHY" then Some(Jobs.Meshy) else None)
  {
    var named := payload["provider" := Str(name)];
    assert Get(named, "requires_rig") == Get(payload, "requires_rig");
    assert Get(named, "auto_rig") == Get(payload, "auto_rig");
    assert GetString(named, "category") == GetString(payload, "category");
    assert GetString(named, "provider") == Some(name);
  }

  /** The prompt `validatePrompt` checks: `preview.prompt` whenever `preview` is an object and
      that is a string (even an empty one), else `payload.prompt` when it is a string, else "". */
  function PromptOf(payload: Record): (prompt: string)
    ensures GetObject(payload, "preview").Some? && GetString(Section(payload, "preview"), "prompt").Some?
            ==> prompt == Section(payload, "preview")["prompt"].s
    ensures !(GetObject(payload, "preview").Some? && GetString(Section(payload, "preview"), "prompt").Some?)
            ==> prompt == GetString(payload, "prompt").GetOr("")
  {
    match GetObject(payload, "preview")
    case Some(preview) =>
      if GetString(preview, "prompt").Some? then preview["prompt"].s else GetString(payload, "prompt").GetOr("")
    case None => GetString(payload, "prompt").GetOr("")
  }

  const PromptRequired := "prompt is required"

  /** `validatePrompt`: an empty prompt is refused. */
  function ValidatePrompt(payload: Record): (r: Result<string, string>)
    ensures r.Success? <==> PromptOf(payload) != ""
    ensures r.Success? ==> r.value == PromptOf(payload)
    ensures r.Failure? ==> r.error == PromptRequired
  {
    if PromptOf(payload) == "" then Failure(PromptRequired) else Success(PromptOf(payload))
  }

  /** An empty `preview.prompt` is not rescued by a top-level prompt: no fallback happens once
      the preview gives a string. */
  lemma EmptyPreviewPromptRefused(payload: Record, prompt: string)
    requires "preview" in payload && payload["preview"].Obj?
    requires "prompt" in payload["preview"].fields && payload["preview"].fields["prompt"] == Str("")
    ensures ValidatePrompt(payload[ "prompt" := Str(prompt)]) == Failure(PromptRequired)
  {
    var p := payload["prompt" := Str(prompt)];
    assert GetObject(p, "preview") == Some(payload["preview"].fields);
  }

  /** The arguments of `create_ai_job_with_credits`. */
  datatype CreateArgs = CreateArgs(
    requestPayload: Record,
    createAsset: bool,
    assetTitle: Option<string>,
    assetDescription: Option<string>,
    assetId: Option<string>,
    provider: Jobs.Provider)

  /** The RPC arguments for a body, or the 400 message when its prompt is refused. */
  function CreateRequest(body: Record): (r: Result<CreateArgs, string>)
    ensures var payload := ExtractPayload(body);
      && (r.Failure? <==> PromptOf(payload) == "")
      && (r.Failure? ==> r.error == PromptRequired)
      && (r.Success? ==>
            && r.value.requestPayload == payload
            && r.value.provider == SelectProvider(payload)
            && (r.value.createAsset <==> !("create_asset" in body && body["create_asset"] == Bool(false)))
            && r.value.assetId == GetString(body, "asset_id")
            && r.value.assetTitle == GetString(body, "asset_title")
            && r.value.assetDescription == GetString(body, "asset_description"))
  {
    var payload := ExtractPayload(body);
    match ValidatePrompt(payload)
    case Failure(m) => Failure(m)
    case Success(_) =>
      Success(CreateArgs(payload, GetBool(body, "create_asset").GetOr(true), GetString(body, "asset_title"),
                         GetString(body, "asset_description"), GetString(body, "asset_id"), SelectProvider(payload)))
  }

  /** The handler's answer once the RPC has replied. */
  datatype CreateReply = Created | Refused(code: int, message: string)

  /** The RPC's answer as the handler reads it: whether it returned an error, that error's
      message, and how many rows it returned. */
  function RpcReply(errorMessage: Option<string>, hasError: bool, rows: nat): (r: CreateReply)
    ensures r.Created? <==> !hasError && rows > 0
    ensures r.Refused? && hasError && errorMessage.Some? && Contains(errorMessage.value, "insufficient credits")
            ==> r == Refused(402, "Insufficient credits")
    ensures r.Refused? && !(hasError && errorMessage.Some? && Contains(errorMessage.value, "insufficient credits"))
            ==> r.code == 500
                && r.message == (if hasError && errorMessage.Some? then errorMessage.value else "Failed to create job")
  {
    if !hasError && rows > 0 then Created
    else if hasError && errorMessage.Some? && Contains(errorMessage.value, "insufficient credits") then
      Refused(402, "Insufficient credits")
    else Refused(500, if hasError && errorMessage.Some? then errorMessage.value else "Failed to create job")
  }

  /** The RPC's own "insufficient credits" error, wherever it appears in the message, is a 402. */
  lemma CreditErrorIs402(prefix: string, suffix: string, rows: nat)
    ensures RpcReply(Some(prefix + "insufficient credits" + suffix), true, rows) == Refused(402, "Insufficient credits")
  {
    var m := prefix + "insufficient credits" + suffix;
    assert m[|prefix|..|prefix| + |"insufficient credits"|] == "insufficient credits";
    ContainsAt(m, "insufficient credits", |prefix|);
  }
}
