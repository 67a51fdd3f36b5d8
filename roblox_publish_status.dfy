/** Polling a Roblox publish operation: which operation id is asked about, and what the
    publish job records once Roblox answers (FAILED, PUBLISHED, or still pending). */
module RobloxPublishStatus {
  import opened Wrappers
  import opened Json
  import opened Text
  import RobloxPublish
  import RobloxOAuth

  /** A non-empty string. */
  predicate Filled(s: Option<string>) {
    s.Some? && s.value != ""
  }

  /** The last `/`-separated segment, as `split("/").pop()` gives it. */
  function LastSegment(path: string): string {
    var parts := Split(path, '/');
    parts[|parts| - 1]
  }

  /** The stored operation id (None stands for null), else the last segment of the stored
      operation path; 409 when neither is set, or when what `??` picks is empty. */
  function OperationId(operationId: Option<string>, operationPath: Option<string>): (r: Result<string, (int, string)>)
    ensures !Filled(operationId) && !Filled(operationPath) ==> r == Failure((409, "Operation id missing"))
    ensures Filled(operationId) ==> r == Success(operationId.value)
    ensures operationId.None? && Filled(operationPath) ==>
              r == (if LastSegment(operationPath.value) == "" then Failure((409, "Operation id missing"))
                    else Success(LastSegment(operationPath.value)))
    ensures r.Success? ==> r.value != ""
  {
    if !Filled(operationId) && !Filled(operationPath) then Failure((409, "Operation id missing"))
    else
      var id := if operationId.Some? then operationId.value
                else if operationPath.Some? then LastSegment(operationPath.value) else "";
      if id == "" then Failure((409, "Operation id missing")) else Success(id)
  }

  /** The id of an operation path `assets/v1/operations/<id>` is `<id>`. */
  lemma PathGivesId(prefix: string, id: string)
    requires id != "" && Free(id, '/')
    ensures OperationId(None, Some(prefix + "/" + id)) == Success(id)
  {
    var path := prefix + "/" + id;
    assert LastSegment(path) == id by {
      LastSegmentAfterSlash(prefix, id);
    }
  }

  lemma {:induction false} LastSegmentAfterSlash(prefix: string, id: string)
    requires Free(id, '/')
    ensures LastSegment(prefix + "/" + id) == id
    decreases |prefix|
  {
    if prefix == [] {
      assert prefix + "/" + id == ['/'] + id;
      assert (['/'] + id)[1..] == id;
      SplitFree(id, '/');
    } else {
      var s := prefix + "/" + id;
      assert s[1..] == prefix[1..] + "/" + id;
      LastSegmentAfterSlash(prefix[1..], id);
      var rest := Split(s[1..], '/');
      if prefix[0] == '/' {
        assert Split(s, '/') == [""] + rest;
      } else {
        assert Split(s, '/') == [[s[0]] + rest[0]] + rest[1..];
        if |rest| == 1 {
          // The last segment would have absorbed the first character: impossible, since
          // the segment after the separator is `id` and the separator sits in between.
          SegmentsOfSlash(prefix[1..], id);
        }
      }
    }
  }

  /** A string with a separator in it splits into at least two segments. */
  lemma {:induction false} SegmentsOfSlash(prefix: string, id: string)
    ensures |Split(prefix + "/" + id, '/')| >= 2
    decreases |prefix|
  {
    var s := prefix + "/" + id;
    if prefix == [] {
      assert s[0] == '/';
    } else {
      assert s[1..] == prefix[1..] + "/" + id;
      SegmentsOfSlash(prefix[1..], id);
    }
  }

  /** An empty stored operation id is not null, so `??` keeps it and the path is never
      consulted: such a job is refused even with a usable path. */
  lemma EmptyIdShadowsPath(path: string)
    requires path != ""
    ensures OperationId(Some(""), Some(path)) == Failure((409, "Operation id missing"))
  {
  }

  /** An id that publishing recorded is the one polled. */
  lemma PublishedIdIsPolled(response: Record, path: Option<string>)
    requires GetString(response, "operationId").Some? && GetString(response, "operationId").value != ""
    ensures var u := RobloxPublish.RecordAnswer(true, 200, response).1;
      OperationId(u.operationId, path) == Success(response["operationId"].s)
  {
  }

  const OperationsUrl := "https://apis.roblox.com/assets/v1/operations/"

  /** The operation read the handler sends: its URL and its `Authorization` header. */
  datatype OperationRequest = OperationRequest(url: string, authorization: string)

  /** From the operation-id check to the read: 409 without an operation id, then 401 without a
      token, else a GET of the operation with the chosen token. `oauth` is what
      `getValidRobloxAccessToken` returned and `envToken` is `ROBLOX_OAUTH_TOKEN`. */
  function PollRequest(operationId: Option<string>, operationPath: Option<string>,
                       oauth: Option<RobloxOAuth.AccessToken>, envToken: string): (r: Result<OperationRequest, (int, string)>)
    ensures OperationId(operationId, operationPath).Failure? ==> r == Failure((409, "Operation id missing"))
    ensures OperationId(operationId, operationPath).Success? ==>
              (r.Failure? <==> RobloxPublish.PublishToken(oauth, envToken).Failure?)
    ensures r.Failure? ==> r.error.0 in {401, 409}
    ensures r.Success? ==>
              && r.value.url == OperationsUrl + OperationId(operationId, operationPath).value
              && r.value.authorization == RobloxPublish.Authorization(RobloxPublish.PublishToken(oauth, envToken).value)
  {
    match OperationId(operationId, operationPath)
    case Failure(e) => Failure(e)
    case Success(id) =>
      match RobloxPublish.PublishToken(oauth, envToken)
      case Failure(e) => Failure(e)
      case Success(token) => Success(OperationRequest(OperationsUrl + id, RobloxPublish.Authorization(token)))
  }

  /** A job that recorded only its operation path polls the URL whose last segment is that
      path's last segment: the operation publishing started. */
  lemma PollsRecordedOperation(prefix: string, id: string, oauth: Option<RobloxOAuth.AccessToken>, envToken: string)
    requires id != "" && Free(id, '/')
    requires RobloxPublish.PublishToken(oauth, envToken).Success?
    ensures var r := PollRequest(None, Some(prefix + "/" + id), oauth, envToken);
      r.Success? && LastSegment(r.value.url) == id
  {
    PathGivesId(prefix, id);
    var base := "https://apis.roblox.com/assets/v1/operations";
    assert OperationsUrl + id == base + "/" + id;
    LastSegmentAfterSlash(base, id);
  }

  /** `responseText ? JSON.parse(responseText) : {}`, falling back to
      `{ error: { message: responseText } }`. `parsed` is None when parsing throws. */
  function OperationJson(text: string, parsed: Option<Value>): (r: Record)
    ensures text == "" ==> r == map[]
    ensures text != "" && parsed.None? ==> r == map["error" := Obj(map["message" := Str(text)])]
  {
    if text == "" then map[]
    else match parsed
      case None => map["error" := Obj(map["message" := Str(text)])]
      case Some(v) => Props(v)
  }

  /** `responseJson.error?.message ?? fallback`, made a string. */
  function ErrorMessage(response: Record, fallback: string): string {
    ToJsString(Nullish(Get(Props(Nullish(Get(response, "error"), Null)), "message"), Str(fallback)))
  }

  /** `responseJson.response?.assetId`, kept when a number and put through `Number` when a
      string (which may give NaN); None stands for null. */
  function RobloxAssetId(response: Record, number: string -> JsNum): (id: Option<JsNum>)
    ensures var a := Get(Props(Nullish(Get(response, "response"), Null)), "assetId");
      && (a.Some? && a.value.Num? ==> id == Some(Int(a.value.n)))
      && (a.Some? && a.value.Str? ==> id == Some(number(a.value.s)))
      && (!(a.Some? && (a.value.Num? || a.value.Str?)) ==> id.None?)
  {
    match Get(Props(Nullish(Get(response, "response"), Null)), "assetId")
    case Some(Num(n)) => Some(Int(n))
    case Some(Str(s)) => Some(number(s))
    case _ => None
  }

  /** The update written to the publish job; None leaves a column unset. */
  datatype StatusUpdate = StatusUpdate(status: string, errorMessage: Option<string>, robloxAssetId: Option<JsNum>,
                                       resultPayload: Record)

  /** The reply: an error with its code, the PUBLISHED status, or the stored status echoed. */
  datatype StatusReply =
    | Failed(code: int, message: string)
    | Published(robloxAssetId: Option<JsNum>)
    | Pending(status: string)

  datatype StatusOutcome = StatusOutcome(reply: StatusReply, update: Option<StatusUpdate>)

  /** What the handler does once `GET operations/<id>` answered with `ok`, `httpStatus` and
      the body `response`, for a job whose stored status is `stored`. */
  function AnswerOutcome(ok: bool, httpStatus: int, response: Record, stored: string, number: string -> JsNum): (o: StatusOutcome)
    ensures !ok ==> o == StatusOutcome(Failed(httpStatus, "Roblox operation failed"),
                                       Some(StatusUpdate("FAILED", Some(ErrorMessage(response, "Roblox operation failed")), None, response)))
    ensures ok && Truthy(Get(response, "done")) && Truthy(Get(response, "error")) ==>
              o == StatusOutcome(Failed(500, "Roblox publish failed"),
                                 Some(StatusUpdate("FAILED", Some(ErrorMessage(response, "Roblox publish failed")), None, response)))
    ensures ok && Truthy(Get(response, "done")) && !Truthy(Get(response, "error")) ==>
              o == StatusOutcome(Published(RobloxAssetId(response, number)),
                                 Some(StatusUpdate("PUBLISHED", None, RobloxAssetId(response, number), response)))
    ensures ok && !Truthy(Get(response, "done")) ==> o == StatusOutcome(Pending(stored), None)
  {
    if !ok then
      StatusOutcome(Failed(httpStatus, "Roblox operation failed"),
                    Some(StatusUpdate("FAILED", Some(ErrorMessage(response, "Roblox operation failed")), None, response)))
    else if Truthy(Get(response, "done")) then
      if Truthy(Get(response, "error")) then
        StatusOutcome(Failed(500, "Roblox publish failed"),
                      Some(StatusUpdate("FAILED", Some(ErrorMessage(response, "Roblox publish failed")), None, response)))
      else
        var id := RobloxAssetId(response, number);
        StatusOutcome(Published(id), Some(StatusUpdate("PUBLISHED", None, id, response)))
    else StatusOutcome(Pending(stored), None)
  }

  /** The job is written exactly when the operation is over or failed, only ever to FAILED or
      PUBLISHED, a FAILED write always carrying a message; PUBLISHED needs a finished operation
      with no error; and the reply says what was written. */
  lemma WritesOnlyFinalStates(ok: bool, httpStatus: int, response: Record, stored: string, number: string -> JsNum)
    ensures var o := AnswerOutcome(ok, httpStatus, response, stored, number);
      && (o.update.None? <==> o.reply.Pending?)
      && (o.update.Some? ==> o.update.value.status in {"FAILED", "PUBLISHED"})
      && (o.update.Some? && o.update.value.status == "FAILED" ==> o.update.value.errorMessage.Some? && o.reply.Failed?)
      && (o.reply.Published? <==> ok && Truthy(Get(response, "done")) && !Truthy(Get(response, "error")))
      && (o.reply.Pending? ==> o.reply.status == stored)
  {
  }

  /** A body that is not JSON fails the job with the body's text as the message. */
  lemma UnreadableBodyIsTheMessage(text: string, httpStatus: int, stored: string, number: string -> JsNum)
    requires text != ""
    ensures AnswerOutcome(false, httpStatus, OperationJson(text, None), stored, number).update.value.errorMessage == Some(text)
  {
  }
}
