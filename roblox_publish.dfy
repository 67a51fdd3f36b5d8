/** Publishing an asset to Roblox: the multipart/form-data body (RFC 7578) the upload is
    sent as, the file name and content type chosen from the mesh URL's path, the creator ids
    and defaults of the publish payload, and what the publish job records once Roblox has
    answered. */
module RobloxPublish {
  import opened Wrappers
  import opened Json
  import opened Text
  import Storage
  import RobloxOAuth

  // ---------------------------------------------------------------------------------------
  // buildMultipart

  const CRLF: string := "\r\n"

  /** One pushed chunk: encoded text, or a file's bytes as they are. */
  datatype Chunk = TextChunk(text: string) | DataChunk(data: seq<byte>)

  datatype FilePart = FilePart(filename: string, contentType: string, data: seq<byte>)

  /** `----robloxitem-${crypto.randomUUID()}`, the UUID given. */
  function Boundary(uuid: string): string {
    "----robloxitem-" + uuid
  }

  /** The line that opens each part. */
  function Delimiter(boundary: string): string {
    "--" + boundary + CRLF
  }

  /** The line that ends the body (section 5.1.1 of RFC 2046). */
  function CloseDelimiter(boundary: string): string {
    "--" + boundary + "--" + CRLF
  }

  const DispositionPrefix: string := "Content-Disposition: form-data; name=\""

  /** A text field's headers, up to and including the blank line. */
  function FieldHeader(key: string): string {
    DispositionPrefix + key + "\"" + CRLF + CRLF
  }

  /** A file's headers, up to and including the blank line. */
  function FileHeader(key: string, file: FilePart): string {
    DispositionPrefix + key + "\"; filename=\"" + file.filename + "\"" + CRLF
    + "Content-Type: " + file.contentType + CRLF + CRLF
  }

  /** The three chunks of one text field. */
  function FieldPart(boundary: string, field: (string, string)): seq<Chunk> {
    [TextChunk(Delimiter(boundary)), TextChunk(FieldHeader(field.0)), TextChunk(field.1 + CRLF)]
  }

  /** The four chunks of one file. */
  function FilePartChunks(boundary: string, file: (string, FilePart)): seq<Chunk> {
    [TextChunk(Delimiter(boundary)), TextChunk(FileHeader(file.0, file.1)), DataChunk(file.1.data), TextChunk(CRLF)]
  }

  /** The parts of the fields, in entry order. */
  function FieldChunks(boundary: string, fields: seq<(string, string)>): seq<Chunk>
    decreases |fields|
  {
    if fields == [] then []
    else FieldChunks(boundary, fields[..|fields| - 1]) + FieldPart(boundary, fields[|fields| - 1])
  }

  /** The parts of the files, in entry order. */
  function FileChunks(boundary: string, files: seq<(string, FilePart)>): seq<Chunk>
    decreases |files|
  {
    if files == [] then []
    else FileChunks(boundary, files[..|files| - 1]) + FilePartChunks(boundary, files[|files| - 1])
  }

  /** The whole body: the fields, then the files, then the close delimiter. */
  function Multipart(boundary: string, fields: seq<(string, string)>, files: seq<(string, FilePart)>): seq<Chunk> {
    FieldChunks(boundary, fields) + FileChunks(boundary, files) + [TextChunk(CloseDelimiter(boundary))]
  }

  /** `buildMultipart`, with the entries of `fields` and `files` in their object order and the
      UUID the boundary is made from. The body is the chunks in order. */
  method BuildMultipart(uuid: string, fields: seq<(string, string)>, files: seq<(string, FilePart)>)
    returns (boundary: string, chunks: seq<Chunk>)
    ensures boundary == Boundary(uuid)
    ensures chunks == Multipart(boundary, fields, files)
  {
    boundary := Boundary(uuid);
    chunks := [];
    var i := 0;
    while i < |fields|
      invariant 0 <= i <= |fields|
      invariant chunks == FieldChunks(boundary, fields[..i])
    {
      var (key, value) := fields[i];
      ghost var before := chunks;
      chunks := chunks + [TextChunk(Delimiter(boundary))];
      chunks := chunks + [TextChunk(FieldHeader(key))];
      chunks := chunks + [TextChunk(value + CRLF)];
      PushedInOrder(before, FieldPart(boundary, fields[i]));
      FieldChunksStep(boundary, fields, i);
      i := i + 1;
    }
    assert fields[..i] == fields;
    var j := 0;
    ghost var fieldPart := chunks;
    while j < |files|
      invariant 0 <= j <= |files|
      invariant chunks == fieldPart + FileChunks(boundary, files[..j])
    {
      var (key, file) := files[j];
      ghost var before := chunks;
      chunks := chunks + [TextChunk(Delimiter(boundary))];
      chunks := chunks + [TextChunk(FileHeader(key, file))];
      chunks := chunks + [DataChunk(file.data)];
      chunks := chunks + [TextChunk(CRLF)];
      PushedInOrder(before, FilePartChunks(boundary, files[j]));
      FileChunksStep(boundary, files, j);
      j := j + 1;
    }
    assert files[..j] == files;
    chunks := chunks + [TextChunk(CloseDelimiter(boundary))];
  }

  /** Pushing the chunks of `part` one by one appends `part`. */
  lemma PushedInOrder(before: seq<Chunk>, part: seq<Chunk>)
    ensures |part| == 3 ==> before + [part[0]] + [part[1]] + [part[2]] == before + part
    ensures |part| == 4 ==> before + [part[0]] + [part[1]] + [part[2]] + [part[3]] == before + part
  {
    if |part| == 3 {
      assert part == [part[0], part[1], part[2]];
    }
    if |part| == 4 {
      assert part == [part[0], part[1], part[2], part[3]];
    }
  }

  lemma FieldChunksStep(boundary: string, fields: seq<(string, string)>, i: nat)
    requires i < |fields|
    ensures FieldChunks(boundary, fields[..i + 1]) == FieldChunks(boundary, fields[..i]) + FieldPart(boundary, fields[i])
  {
    assert fields[..i + 1][..i] == fields[..i];
  }

  lemma FileChunksStep(boundary: string, files: seq<(string, FilePart)>, j: nat)
    requires j < |files|
    ensures FileChunks(boundary, files[..j + 1]) == FileChunks(boundary, files[..j]) + FilePartChunks(boundary, files[j])
  {
    assert files[..j + 1][..j] == files[..j];
  }

  /** Field `i` occupies chunks 3i to 3i+2. */
  lemma {:induction false} FieldChunksAt(boundary: string, fields: seq<(string, string)>)
    ensures |FieldChunks(boundary, fields)| == 3 * |fields|
    ensures forall i :: 0 <= i < |fields| ==>
              FieldChunks(boundary, fields)[3 * i..3 * i + 3] == FieldPart(boundary, fields[i])
    decreases |fields|
  {
    if fields != [] {
      var init := fields[..|fields| - 1];
      FieldChunksAt(boundary, init);
      var c := FieldChunks(boundary, fields);
      assert c == FieldChunks(boundary, init) + FieldPart(boundary, fields[|fields| - 1]);
      forall i | 0 <= i < |fields|
        ensures c[3 * i..3 * i + 3] == FieldPart(boundary, fields[i])
      {
        if i < |init| {
          assert c[3 * i..3 * i + 3] == FieldChunks(boundary, init)[3 * i..3 * i + 3];
        }
      }
    }
  }

  /** File `j` occupies chunks 4j to 4j+3 of the file section. */
  lemma {:induction false} FileChunksAt(boundary: string, files: seq<(string, FilePart)>)
    ensures |FileChunks(boundary, files)| == 4 * |files|
    ensures forall j :: 0 <= j < |files| ==>
              FileChunks(boundary, files)[4 * j..4 * j + 4] == FilePartChunks(boundary, files[j])
    decreases |files|
  {
    if files != [] {
      var init := files[..|files| - 1];
      FileChunksAt(boundary, init);
      var c := FileChunks(boundary, files);
      assert c == FileChunks(boundary, init) + FilePartChunks(boundary, files[|files| - 1]);
      forall j | 0 <= j < |files|
        ensures c[4 * j..4 * j + 4] == FilePartChunks(boundary, files[j])
      {
        if j < |init| {
          assert c[4 * j..4 * j + 4] == FileChunks(boundary, init)[4 * j..4 * j + 4];
        }
      }
    }
  }

  /** The body is every field once, in order, then every file once, in order, each opened by
      the delimiter line and ending in CRLF, then the close delimiter and nothing after it. */
  lemma MultipartLayout(boundary: string, fields: seq<(string, string)>, files: seq<(string, FilePart)>)
    ensures var body := Multipart(boundary, fields, files);
      && |body| == 3 * |fields| + 4 * |files| + 1
      && (forall i :: 0 <= i < |fields| ==> body[3 * i..3 * i + 3] == FieldPart(boundary, fields[i]))
      && (forall j :: 0 <= j < |files| ==>
            body[3 * |fields| + 4 * j..3 * |fields| + 4 * j + 4] == FilePartChunks(boundary, files[j]))
      && body[|body| - 1] == TextChunk(CloseDelimiter(boundary))
  {
    FieldChunksAt(boundary, fields);
    FileChunksAt(boundary, files);
    var body := Multipart(boundary, fields, files);
    var f := FieldChunks(boundary, fields);
    var g := FileChunks(boundary, files);
    forall i | 0 <= i < |fields|
      ensures body[3 * i..3 * i + 3] == FieldPart(boundary, fields[i])
    {
      assert body[3 * i..3 * i + 3] == f[3 * i..3 * i + 3];
    }
    forall j | 0 <= j < |files|
      ensures body[3 * |fields| + 4 * j..3 * |fields| + 4 * j + 4] == FilePartChunks(boundary, files[j])
    {
      assert body[3 * |fields| + 4 * j..3 * |fields| + 4 * j + 4] == g[4 * j..4 * j + 4];
    }
  }

  /** Reading a text field back from its header and value chunks: the name between the fixed
      prefix and the closing quote, the value before the final CRLF. */
  function ReadField(header: Chunk, value: Chunk): Option<(string, string)> {
    if header.TextChunk? && value.TextChunk?
       && |header.text| >= |DispositionPrefix| + 5 && StartsWith(header.text, DispositionPrefix)
       && EndsWith(header.text, "\"" + CRLF + CRLF) && EndsWith(value.text, CRLF)
    then Some((header.text[|DispositionPrefix|..|header.text| - 5], value.text[..|value.text| - 2]))
    else None
  }

  /** Every field, whatever its name and value, can be read back from its part of the body. */
  lemma FieldsReadBack(boundary: string, fields: seq<(string, string)>, files: seq<(string, FilePart)>)
    ensures var body := Multipart(boundary, fields, files);
      |body| == 3 * |fields| + 4 * |files| + 1 &&
      forall i :: 0 <= i < |fields| ==> ReadField(body[3 * i + 1], body[3 * i + 2]) == Some(fields[i])
  {
    MultipartLayout(boundary, fields, files);
    var body := Multipart(boundary, fields, files);
    forall i | 0 <= i < |fields|
      ensures ReadField(body[3 * i + 1], body[3 * i + 2]) == Some(fields[i])
    {
      assert body[3 * i + 1] == FieldPart(boundary, fields[i])[1];
      assert body[3 * i + 2] == FieldPart(boundary, fields[i])[2];
      var h := FieldHeader(fields[i].0);
      assert h[..|DispositionPrefix|] == DispositionPrefix;
      assert h[|h| - 5..] == "\"" + CRLF + CRLF;
      assert h[|DispositionPrefix|..|h| - 5] == fields[i].0;
      var v := fields[i].1 + CRLF;
      assert v[|v| - 2..] == CRLF;
      assert v[..|v| - 2] == fields[i].1;
    }
  }

  /** The characters section 5.1.1 of RFC 2046 allows in a boundary other than space. */
  predicate BoundaryChar(c: char) {
    ('0' <= c <= '9') || ('a' <= c <= 'z') || ('A' <= c <= 'Z') || c in "'()+_,-./:=?"
  }

  /** A UUID in its textual form: 36 characters of hexadecimal digits and hyphens. */
  predicate IsUuidText(uuid: string) {
    |uuid| == 36 && forall i :: 0 <= i < |uuid| ==> ('0' <= uuid[i] <= '9') || ('a' <= uuid[i] <= 'f') || uuid[i] == '-'
  }

  /** The boundary is a valid one: 1 to 70 characters, none a space, so it ends in a
      non-space character as section 5.1.1 of RFC 2046 demands. */
  lemma BoundaryIsValid(uuid: string)
    requires IsUuidText(uuid)
    ensures var b := Boundary(uuid);
      && 1 <= |b| <= 70
      && forall i :: 0 <= i < |b| ==> BoundaryChar(b[i])
  {
    var b := Boundary(uuid);
    forall i | 0 <= i < |b|
      ensures BoundaryChar(b[i])
    {
      if i >= 15 {
        assert b[i] == uuid[i - 15];
      }
    }
  }

  // ---------------------------------------------------------------------------------------
  // File name and content type

  datatype MeshFile = MeshFile(fileName: string, contentType: string)

  /** The uploaded file's name and content type, from the lower-cased path of the mesh URL. */
  function MeshFileFor(pathname: string): (f: MeshFile)
    ensures EndsWith(Lower(pathname), ".glb") ==> f == MeshFile("asset.glb", "model/gltf-binary")
    ensures !EndsWith(Lower(pathname), ".glb") && EndsWith(Lower(pathname), ".gltf") ==> f == MeshFile("asset.gltf", "model/gltf+json")
    ensures !EndsWith(Lower(pathname), ".glb") && !EndsWith(Lower(pathname), ".gltf") ==> f == MeshFile("asset.fbx", "model/fbx")
  {
    var path := Lower(pathname);
    if EndsWith(path, ".glb") then MeshFile("asset.glb", "model/gltf-binary")
    else if EndsWith(path, ".gltf") then MeshFile("asset.gltf", "model/gltf+json")
    else MeshFile("asset.fbx", "model/fbx")
  }

  /** The upload's content type is the one the storage helper infers for the same path with
      `model/fbx` as the fallback, for every path that does not name an image or OBJ file. */
  lemma MeshFileAgreesWithStorage(pathname: string)
    requires var p := Lower(pathname);
      !EndsWith(p, ".png") && !EndsWith(p, ".jpg") && !EndsWith(p, ".jpeg") && !EndsWith(p, ".webp") && !EndsWith(p, ".obj")
    ensures MeshFileFor(pathname).contentType == Storage.InferContentType(pathname, "model/fbx")
  {
    var p := Lower(pathname);
    if EndsWith(p, ".glb") {
      assert MeshFileFor(pathname).contentType == "model/gltf-binary";
    } else if EndsWith(p, ".gltf") {
      assert MeshFileFor(pathname).contentType == "model/gltf+json";
    } else {
      assert MeshFileFor(pathname).contentType == "model/fbx";
    }
  }

  /** The file name's extension is one the storage helper knows, with the content type sent. */
  lemma MeshFileNameMatchesType(pathname: string)
    ensures var f := MeshFileFor(pathname);
      exists ext :: f.fileName == "asset." + ext && Storage.KnownContentType(ext) == Some(f.contentType)
  {
    var f := MeshFileFor(pathname);
    var p := Lower(pathname);
    if EndsWith(p, ".glb") {
      assert f.fileName == "asset." + "glb" && Storage.KnownContentType("glb") == Some(f.contentType);
    } else if EndsWith(p, ".gltf") {
      assert f.fileName == "asset." + "gltf" && Storage.KnownContentType("gltf") == Some(f.contentType);
    } else {
      assert f.fileName == "asset." + "fbx" && Storage.KnownContentType("fbx") == Some(f.contentType);
    }
  }

  // ---------------------------------------------------------------------------------------
  // The publish payload

  /** `typeof v === "number" ? v : typeof v === "string" ? Number(v) : null`, then kept only
      when finite. `number` is JavaScript's `Number` on strings. */
  function CreatorId(v: Option<Value>, number: string -> JsNum): (id: Option<int>)
    ensures v.Some? && v.value.Num? ==> id == Some(v.value.n)
    ensures v.Some? && v.value.Str? ==> (id.Some? <==> number(v.value.s).Int?)
    ensures v.Some? && v.value.Str? && id.Some? ==> id.value == number(v.value.s).i
    ensures !(v.Some? && (v.value.Num? || v.value.Str?)) ==> id.None?
  {
    match v
    case Some(Num(n)) => Some(n)
    case Some(Str(s)) => if number(s).Int? then Some(number(s).i) else None
    case _ => None
  }

  datatype PublishPayload = PublishPayload(
    displayName: string,
    description: string,
    assetType: string,
    creatorUserId: Option<int>,
    creatorGroupId: Option<int>)

  /** `publishPayload`: the string fields of the body, else their defaults, and the ids. */
  function PayloadOf(body: Record, number: string -> JsNum): (p: PublishPayload)
    ensures p.displayName == GetString(body, "name").GetOr("RobloxItem")
    ensures p.description == GetString(body, "description").GetOr("")
    ensures p.assetType == GetString(body, "asset_type").GetOr("Model")
    ensures p.creatorUserId == CreatorId(Get(body, "creator_user_id"), number)
    ensures p.creatorGroupId == CreatorId(Get(body, "creator_group_id"), number)
  {
    PublishPayload(GetString(body, "name").GetOr("RobloxItem"), GetString(body, "description").GetOr(""),
                   GetString(body, "asset_type").GetOr("Model"),
                   CreatorId(Get(body, "creator_user_id"), number), CreatorId(Get(body, "creator_group_id"), number))
  }

  /** A truthy id: present and not 0. */
  predicate TruthyId(id: Option<int>) {
    id.Some? && id.value != 0
  }

  /** `creationContext.creator`. */
  datatype Creator = UserCreator(userId: int) | GroupCreator(groupId: Option<int>)

  /** The creator named in the request: the user when the user id is truthy, else the group;
      a payload with neither is refused with 400. */
  function CreatorOf(p: PublishPayload): (r: Result<Creator, (int, string)>)
    ensures r.Failure? <==> !TruthyId(p.creatorUserId) && !TruthyId(p.creatorGroupId)
    ensures r.Failure? ==> r.error == (400, "creator_user_id or creator_group_id is required")
    ensures r.Success? && TruthyId(p.creatorUserId) ==> r.value == UserCreator(p.creatorUserId.value)
    ensures r.Success? && !TruthyId(p.creatorUserId) ==> r.value == GroupCreator(p.creatorGroupId) && TruthyId(r.value.groupId)
  {
    if !TruthyId(p.creatorUserId) && !TruthyId(p.creatorGroupId) then
      Failure((400, "creator_user_id or creator_group_id is required"))
    else if TruthyId(p.creatorUserId) then Success(UserCreator(p.creatorUserId.value))
    else Success(GroupCreator(p.creatorGroupId))
  }

  /** A creator id that is not a number (a non-numeric string, a boolean) is dropped, and a
      request left without a creator is refused. */
  lemma NonNumericCreatorRefused(body: Record, number: string -> JsNum)
    requires "creator_user_id" in body && body["creator_user_id"].Str? && number(body["creator_user_id"].s) == NaN
    requires "creator_group_id" !in body
    ensures CreatorOf(PayloadOf(body, number)).Failure?
  {
  }

  /** A stored asset as the handler selects it. */
  datatype AssetRow = AssetRow(id: string, ownerId: Option<string>, meshUrl: Option<string>, meshStoragePath: Option<string>)

  /** The mesh URL to download: a signed URL for the stored mesh when one was obtained, else the
      stored `mesh_url`; 409 when that leaves none. `signed` is `createSignedUrl`'s result,
      asked for only when the asset has a storage path. */
  function MeshUrlOf(asset: AssetRow, signed: Option<string>): (r: Result<string, (int, string)>)
    ensures var hasPath := asset.meshStoragePath.Some? && asset.meshStoragePath.value != "";
      var useSigned := hasPath && signed.Some? && signed.value != "";
      && (useSigned ==> r == Success(signed.value))
      && (!useSigned && asset.meshUrl.Some? && asset.meshUrl.value != "" ==> r == Success(asset.meshUrl.value))
      && (!useSigned && !(asset.meshUrl.Some? && asset.meshUrl.value != "") ==> r == Failure((409, "Asset missing mesh")))
  {
    var url := if asset.meshStoragePath.Some? && asset.meshStoragePath.value != "" && signed.Some? && signed.value != ""
               then signed else asset.meshUrl;
    if url.Some? && url.value != "" then Success(url.value) else Failure((409, "Asset missing mesh"))
  }

  /** What the handler has settled before it inserts the publish job. */
  datatype PublishPlan = PublishPlan(assetId: string, meshUrl: string, payload: PublishPayload, creator: Creator)

  /** The checks between reading the body and inserting the job, in the source's order: the
      asset id, the asset's existence and owner, the mesh URL, the creator. */
  function PlanPublish(userId: string, body: Record, asset: Option<AssetRow>, signed: Option<string>,
                       number: string -> JsNum): (r: Result<PublishPlan, (int, string)>)
    ensures GetString(body, "asset_id").GetOr("") == "" ==> r == Failure((400, "asset_id is required"))
    ensures GetString(body, "asset_id").GetOr("") != "" && asset.None? ==> r == Failure((404, "Asset not found"))
    ensures r.Success? ==> asset.Some? && asset.value.ownerId == Some(userId)
    ensures r.Success? ==> MeshUrlOf(asset.value, signed) == Success(r.value.meshUrl)
    ensures r.Success? ==> r.value.payload == PayloadOf(body, number) && CreatorOf(r.value.payload) == Success(r.value.creator)
  {
    var assetId := GetString(body, "asset_id").GetOr("");
    if assetId == "" then Failure((400, "asset_id is required"))
    else if asset.None? then Failure((404, "Asset not found"))
    else if asset.value.ownerId != Some(userId) then Failure((403, "Forbidden"))
    else match MeshUrlOf(asset.value, signed)
      case Failure(e) => Failure(e)
      case Success(url) =>
        var payload := PayloadOf(body, number);
        match CreatorOf(payload)
        case Failure(e) => Failure(e)
        case Success(creator) => Success(PublishPlan(asset.value.id, url, payload, creator))
  }

  /** Nobody publishes another user's asset, and the owner check comes before the mesh and the
      creator are looked at. */
  lemma OnlyOwnerPublishes(userId: string, body: Record, asset: AssetRow, signed: Option<string>, number: string -> JsNum)
    requires GetString(body, "asset_id").GetOr("") != ""
    requires asset.ownerId != Some(userId)
    ensures PlanPublish(userId, body, Some(asset), signed, number) == Failure((403, "Forbidden"))
  {
  }

  // ---------------------------------------------------------------------------------------
  // Recording Roblox's answer

  /** The columns the publish job's update sets; None leaves a column unset. */
  datatype PublishJobUpdate = PublishJobUpdate(
    status: string,
    errorMessage: Option<string>,
    resultPayload: Record,
    operationId: Option<string>,
    operationPath: Option<string>)

  /** The reply's status code and the update, for a response with HTTP status `status` whose
      body parsed to `response`. */
  function RecordAnswer(ok: bool, status: int, response: Record): (r: (int, PublishJobUpdate))
    ensures !ok ==> r.0 == status && r.1.status == "FAILED"
                    && r.1.errorMessage == Some(ToJsString(Nullish(Get(response, "message"), Str("Roblox publish failed"))))
                    && r.1.operationId.None? && r.1.operationPath.None?
    ensures ok ==> r.0 == 200 && r.1.status == "QUEUED" && r.1.errorMessage.None?
                   && r.1.operationId == GetString(response, "operationId")
                   && r.1.operationPath == GetString(response, "path")
    ensures r.1.resultPayload == response
  {
    if !ok then
      (status, PublishJobUpdate("FAILED", Some(ToJsString(Nullish(Get(response, "message"), Str("Roblox publish failed")))),
                                response, None, None))
    else (200, PublishJobUpdate("QUEUED", None, response, GetString(response, "operationId"), GetString(response, "path")))
  }

  /** `responseText ? JSON.parse(responseText) : {}`, falling back to `{ raw: responseText }`.
      `parsed` is `JSON.parse`'s result, None when it throws. */
  function ResponseJson(text: string, parsed: Option<Value>): (r: Record)
    ensures text == "" ==> r == map[]
    ensures text != "" && parsed.None? ==> r == map["raw" := Str(text)]
  {
    if text == "" then map[]
    else match parsed
      case None => map["raw" := Str(text)]
      case Some(v) => Props(v)
  }

  // ---------------------------------------------------------------------------------------
  // The Roblox token

  const MissingToken := "Missing Roblox OAuth token"

  /** The token both Roblox handlers send: the user's OAuth token when
      `getValidRobloxAccessToken` gave one, else `ROBLOX_OAUTH_TOKEN` ("" when unset) as a
      Bearer token; 401 when the chosen token is empty. */
  function PublishToken(oauth: Option<RobloxOAuth.AccessToken>, envToken: string): (r: Result<RobloxOAuth.AccessToken, (int, string)>)
    ensures r.Failure? ==> r.error == (401, MissingToken)
    ensures r.Success? ==> r.value.accessToken != ""
    ensures oauth.Some? ==> (r.Success? <==> oauth.value.accessToken != "") && (r.Success? ==> r.value == oauth.value)
    ensures oauth.None? ==> (r.Success? <==> envToken != "") && (r.Success? ==> r.value == RobloxOAuth.AccessToken(envToken, "Bearer"))
  {
    var token := if oauth.Some? then oauth.value.accessToken else envToken;
    if token == "" then Failure((401, MissingToken))
    else Success(RobloxOAuth.AccessToken(token, if oauth.Some? then oauth.value.tokenType else "Bearer"))
  }

  /** The `Authorization` header: the token type, a space, the token. */
  function Authorization(t: RobloxOAuth.AccessToken): string {
    t.tokenType + " " + t.accessToken
  }

  /** A stored token that is still fresh is sent as stored, whatever `ROBLOX_OAUTH_TOKEN`
      holds; an empty stored token is refused rather than replaced by the environment one. */
  lemma FreshStoredTokenIsSent(row: RobloxOAuth.TokenRow, now: int, refreshed: RobloxOAuth.Refreshed, envToken: string)
    requires !RobloxOAuth.HasExpiry(row) || row.expiresAt.value.i - now > 60000
    ensures var sent := PublishToken(RobloxOAuth.ValidToken(RobloxOAuth.DecideToken(Some(row), now), refreshed), envToken);
      sent == if row.accessToken != "" then Success(RobloxOAuth.AccessToken(row.accessToken, row.tokenType.GetOr("Bearer")))
              else Failure((401, MissingToken))
  {
  }

  /** Without a token row, or with an expired one that cannot be renewed, the environment token
      is sent as a Bearer token, and without one the request is refused. */
  lemma TokenFallsBackToEnv(row: Option<RobloxOAuth.TokenRow>, now: int, refreshed: RobloxOAuth.Refreshed, envToken: string)
    requires var d := RobloxOAuth.DecideToken(row, now); d.NoToken? || (d.Refresh? && refreshed.NotRefreshed?)
    ensures PublishToken(RobloxOAuth.ValidToken(RobloxOAuth.DecideToken(row, now), refreshed), envToken)
            == if envToken != "" then Success(RobloxOAuth.AccessToken(envToken, "Bearer")) else Failure((401, MissingToken))
  {
  }
}
