/** The asset materializer's storage side (supabase/functions/_shared/storage.ts): content
    type and file extension inference from a URL, the size-limited download, and
    `persistRemoteAssets`, which copies each channel's remote file into the `assets` bucket. */
module Storage {
  import opened Wrappers
  import opened Json
  import opened Text

  /** The output channels of an asset, in the order `persistRemoteAssets` handles them. */
  datatype Channel = Mesh | Albedo | Metalness | Roughness | Normal

  const ChannelOrder: seq<Channel> := [Mesh, Albedo, Metalness, Roughness, Normal]

  /** The file name stem under `<userId>/<assetId>/`. */
  function FileStem(c: Channel): string {
    match c
    case Mesh => "mesh"
    case Albedo => "albedo"
    case Metalness => "metalness"
    case Roughness => "roughness"
    case Normal => "normal"
  }

  function DefaultExtension(c: Channel): string {
    if c == Mesh then "glb" else "png"
  }

  function ContentTypeFallback(c: Channel): string {
    if c == Mesh then "application/octet-stream" else "image/png"
  }

  /** The key of the channel's remote URL in an `assets` row. */
  function UrlKey(c: Channel): string {
    match c
    case Mesh => "mesh_url"
    case Albedo => "texture_url"
    case Metalness => "pbr_metalness_url"
    case Roughness => "pbr_roughness_url"
    case Normal => "pbr_normal_url"
  }

  /** The key of the channel's storage path in an `assets` row. */
  function StorageKey(c: Channel): string {
    match c
    case Mesh => "mesh_storage_path"
    case Albedo => "texture_storage_path"
    case Metalness => "pbr_metalness_storage_path"
    case Roughness => "pbr_roughness_storage_path"
    case Normal => "pbr_normal_storage_path"
  }

  // ---------------------------------------------------------------------------------------
  // Content type and extension

  /** `inferContentType`: a case-insensitive suffix test on the whole URL, query included. */
  function InferContentType(url: string, fallback: string): string {
    var lower := Lower(url);
    if EndsWith(lower, ".png") then "image/png"
    else if EndsWith(lower, ".jpg") || EndsWith(lower, ".jpeg") then "image/jpeg"
    else if EndsWith(lower, ".webp") then "image/webp"
    else if EndsWith(lower, ".glb") then "model/gltf-binary"
    else if EndsWith(lower, ".gltf") then "model/gltf+json"
    else if EndsWith(lower, ".fbx") then "model/fbx"
    else if EndsWith(lower, ".obj") then "text/plain"
    else fallback
  }

  /** The content type the table above gives a lower-case extension, if any. */
  function KnownContentType(ext: string): Option<string> {
    if ext == "png" then Some("image/png")
    else if ext == "jpg" || ext == "jpeg" then Some("image/jpeg")
    else if ext == "webp" then Some("image/webp")
    else if ext == "glb" then Some("model/gltf-binary")
    else if ext == "gltf" then Some("model/gltf+json")
    else if ext == "fbx" then Some("model/fbx")
    else if ext == "obj" then Some("text/plain")
    else None
  }

  predicate IsAlnum(c: char) {
    ('a' <= c <= 'z') || ('A' <= c <= 'Z') || ('0' <= c <= '9')
  }

  predicate AllAlnum(s: string) {
    forall i :: 0 <= i < |s| ==> IsAlnum(s[i])
  }

  /** The length of the alphanumeric run that ends just before position `n`. */
  function RunBefore(s: string, n: nat): (k: nat)
    requires n <= |s|
    ensures k <= n
    ensures forall i :: n - k <= i < n ==> IsAlnum(s[i])
    ensures k < n ==> !IsAlnum(s[n - k - 1])
  {
    if n == 0 || !IsAlnum(s[n - 1]) then 0 else RunBefore(s, n - 1) + 1
  }

  /** The length of the longest all-alphanumeric suffix. */
  function AlnumSuffixLength(s: string): (k: nat)
    ensures k <= |s|
    ensures AllAlnum(s[|s| - k..])
    ensures k < |s| ==> !IsAlnum(s[|s| - k - 1])
  {
    var k := RunBefore(s, |s|);
    AlnumSlice(s, |s| - k);
    k
  }

  lemma AlnumSlice(s: string, lo: nat)
    requires lo <= |s| && forall i :: lo <= i < |s| ==> IsAlnum(s[i])
    ensures AllAlnum(s[lo..])
  {
    forall i | 0 <= i < |s| - lo
      ensures IsAlnum(s[lo..][i])
    {
      assert s[lo..][i] == s[lo + i];
    }
  }

  /** The match of `/\.([a-zA-Z0-9]+)$/`, lower-cased. */
  function Extension(s: string): Option<string> {
    var k := AlnumSuffixLength(s);
    if 0 < k < |s| && s[|s| - k - 1] == '.' then Some(Lower(s[|s| - k..])) else None
  }

  /** `fileExtension`: the extension of the part of the URL before the first `?`. */
  function FileExtension(url: string, fallback: string): string {
    Extension(Split(url, '?')[0]).GetOr(fallback)
  }

  /** What the regular expression accepts: a dot followed by a non-empty alphanumeric run
      that reaches the end of the string. */
  predicate RegexMatches(s: string, group: string) {
    exists p :: 0 <= p < |s| && s[p] == '.' && s[p + 1..] == group && group != [] && AllAlnum(group)
  }

  /** A run of `m` alphanumerics before `n`, not preceded by another, is the whole run. */
  lemma {:induction false} RunBeforeIs(s: string, n: nat, m: nat)
    requires m <= n <= |s|
    requires forall i :: n - m <= i < n ==> IsAlnum(s[i])
    requires m < n ==> !IsAlnum(s[n - m - 1])
    ensures RunBefore(s, n) == m
    decreases m
  {
    if m > 0 {
      RunBeforeIs(s, n - 1, m - 1);
    }
  }

  lemma RunIsMaximal(s: string, m: nat)
    requires m <= |s| && AllAlnum(s[|s| - m..])
    requires m < |s| ==> !IsAlnum(s[|s| - m - 1])
    ensures AlnumSuffixLength(s) == m
  {
    forall i | |s| - m <= i < |s|
      ensures IsAlnum(s[i])
    {
      assert s[|s| - m..][i - (|s| - m)] == s[i];
    }
    RunBeforeIs(s, |s|, m);
  }

  /** `Extension` is exactly the regular expression's capture group, lower-cased. */
  lemma ExtensionIsRegexGroup(s: string, group: string)
    ensures RegexMatches(s, group) ==> Extension(s) == Some(Lower(group))
    ensures Extension(s).Some? ==> RegexMatches(s, s[|s| - |Extension(s).value|..])
  {
    if RegexMatches(s, group) {
      var p :| 0 <= p < |s| && s[p] == '.' && s[p + 1..] == group && group != [] && AllAlnum(group);
      var m := |group|;
      assert p == |s| - m - 1;
      assert s[|s| - m..] == group;
      RunIsMaximal(s, m);
    }
    if Extension(s).Some? {
      var k := AlnumSuffixLength(s);
      var p := |s| - k - 1;
      assert s[p + 1..] == s[|s| - k..];
      assert s[p] == '.' && s[|s| - k..] != [];
    }
  }

  predicate LowerAlnum(x: string) {
    forall i :: 0 <= i < |x| ==> ('a' <= x[i] <= 'z') || ('0' <= x[i] <= '9')
  }

  /** A suffix test against `d`, read character by character. */
  lemma EndsWithAt(s: string, d: string)
    ensures EndsWith(Lower(s), d) <==>
              |d| <= |s| && forall i :: 0 <= i < |d| ==> LowerChar(s[|s| - |d| + i]) == d[i]
  {
    if |d| <= |s| {
      var low := Lower(s);
      var t := low[|s| - |d|..];
      forall i | 0 <= i < |d|
        ensures t[i] == LowerChar(s[|s| - |d| + i])
      {
        assert t[i] == low[|s| - |d| + i];
      }
      if forall i :: 0 <= i < |d| ==> LowerChar(s[|s| - |d| + i]) == d[i] {
        assert t == d;
      }
    }
  }

  /** A URL ending in `.x` has the extension `x`. */
  lemma SuffixGivesExtension(s: string, d: string)
    requires |d| > 1 && d[0] == '.' && LowerAlnum(d[1..])
    requires |d| <= |s| && forall i :: 0 <= i < |d| ==> LowerChar(s[|s| - |d| + i]) == d[i]
    ensures Extension(s) == Some(d[1..])
  {
    var x := d[1..];
    var m := |x|;
    var j := |s| - m - 1;
    forall i | j + 1 <= i < |s|
      ensures IsAlnum(s[i])
    {
      assert LowerChar(s[|s| - |d| + (i - j)]) == d[i - j];
      assert d[i - j] == x[i - j - 1];
    }
    assert LowerChar(s[|s| - |d| + 0]) == d[0];
    RunBeforeIs(s, |s|, m);
    var u := s[|s| - m..];
    var e := Lower(u);
    forall i | 0 <= i < m
      ensures e[i] == x[i]
    {
      assert u[i] == s[|s| - |d| + (i + 1)];
      assert LowerChar(s[|s| - |d| + (i + 1)]) == d[i + 1];
    }
    assert e == x;
  }

  /** A URL with the extension `x` ends in `.x`. */
  lemma ExtensionGivesSuffix(s: string, d: string)
    requires |d| > 1 && d[0] == '.'
    requires Extension(s) == Some(d[1..])
    ensures |d| <= |s| && forall i :: 0 <= i < |d| ==> LowerChar(s[|s| - |d| + i]) == d[i]
  {
    var x := d[1..];
    var m := |x|;
    var u := s[|s| - m..];
    var e := Lower(u);
    assert e == x;
    forall i | 0 <= i < |d|
      ensures LowerChar(s[|s| - |d| + i]) == d[i]
    {
      if i > 0 {
        assert u[i - 1] == s[|s| - |d| + i];
        assert e[i - 1] == x[i - 1];
      }
    }
  }

  /** For a dotted lower-case extension `d`, the suffix test of `inferContentType` and
      `Extension` agree. */
  lemma SuffixTestIsExtension(s: string, d: string)
    requires |d| > 1 && d[0] == '.' && LowerAlnum(d[1..])
    ensures EndsWith(Lower(s), d) <==> Extension(s) == Some(d[1..])
  {
    EndsWithAt(s, d);
    if EndsWith(Lower(s), d) {
      SuffixGivesExtension(s, d);
    }
    if Extension(s) == Some(d[1..]) {
      ExtensionGivesSuffix(s, d);
    }
  }

  /** The same with the extension spelled out: `d` is `"." + x`. */
  lemma DottedSuffix(s: string, d: string, x: string)
    requires |d| == |x| + 1 && d[0] == '.' && forall i :: 0 <= i < |x| ==> d[i + 1] == x[i]
    requires x != [] && LowerAlnum(x)
    ensures EndsWith(Lower(s), d) <==> Extension(s) == Some(x)
  {
    assert d[1..] == x;
    SuffixTestIsExtension(s, d);
  }

  /** Each suffix `inferContentType` tests, read as an extension. */
  lemma SuffixPng(url: string) ensures EndsWith(Lower(url), ".png") <==> Extension(url) == Some("png") { DottedSuffix(url, ".png", "png"); }
  lemma SuffixJpg(url: string) ensures EndsWith(Lower(url), ".jpg") <==> Extension(url) == Some("jpg") { DottedSuffix(url, ".jpg", "jpg"); }
  lemma SuffixJpeg(url: string) ensures EndsWith(Lower(url), ".jpeg") <==> Extension(url) == Some("jpeg") { DottedSuffix(url, ".jpeg", "jpeg"); }
  lemma SuffixWebp(url: string) ensures EndsWith(Lower(url), ".webp") <==> Extension(url) == Some("webp") { DottedSuffix(url, ".webp", "webp"); }
  lemma SuffixGlb(url: string) ensures EndsWith(Lower(url), ".glb") <==> Extension(url) == Some("glb") { DottedSuffix(url, ".glb", "glb"); }
  lemma SuffixGltf(url: string) ensures EndsWith(Lower(url), ".gltf") <==> Extension(url) == Some("gltf") { DottedSuffix(url, ".gltf", "gltf"); }
  lemma SuffixFbx(url: string) ensures EndsWith(Lower(url), ".fbx") <==> Extension(url) == Some("fbx") { DottedSuffix(url, ".fbx", "fbx"); }
  lemma SuffixObj(url: string) ensures EndsWith(Lower(url), ".obj") <==> Extension(url) == Some("obj") { DottedSuffix(url, ".obj", "obj"); }

  lemma InferWithoutExtension(url: string, fallback: string)
    requires Extension(url).None?
    ensures InferContentType(url, fallback) == fallback
  {
    SuffixPng(url);
    SuffixJpg(url);
    SuffixJpeg(url);
    SuffixWebp(url);
    SuffixGlb(url);
    SuffixGltf(url);
    SuffixFbx(url);
    SuffixObj(url);
  }

  lemma InferWithUnknownExtension(url: string, fallback: string, v: string)
    requires Extension(url) == Some(v)
    requires v != "png" && v != "jpg" && v != "jpeg" && v != "webp" && v != "glb" && v != "gltf" && v != "fbx" && v != "obj"
    ensures InferContentType(url, fallback) == fallback
  {
    SuffixPng(url);
    SuffixJpg(url);
    SuffixJpeg(url);
    SuffixWebp(url);
    SuffixGlb(url);
    SuffixGltf(url);
    SuffixFbx(url);
    SuffixObj(url);
  }

  lemma InferWithKnownExtension(url: string, fallback: string, v: string)
    requires Extension(url) == Some(v) && KnownContentType(v).Some?
    ensures InferContentType(url, fallback) == KnownContentType(v).value
  {
    SuffixPng(url);
    if v == "png" { return; }
    SuffixJpg(url);
    SuffixJpeg(url);
    if v == "jpg" || v == "jpeg" { return; }
    SuffixWebp(url);
    if v == "webp" { return; }
    SuffixGlb(url);
    if v == "glb" { return; }
    SuffixGltf(url);
    if v == "gltf" { return; }
    SuffixFbx(url);
    if v == "fbx" { return; }
    SuffixObj(url);
  }

  /** `inferContentType` is the table looked up at the URL's extension: an independent
      definition of the suffix chain. The URL is taken whole, query string included. */
  lemma InferContentTypeByExtension(url: string, fallback: string)
    ensures InferContentType(url, fallback) ==
      (if Extension(url).Some? && KnownContentType(Extension(url).value).Some?
       then KnownContentType(Extension(url).value).value else fallback)
  {
    match Extension(url)
    case None => InferWithoutExtension(url, fallback);
    case Some(v) =>
      if KnownContentType(v).Some? {
        InferWithKnownExtension(url, fallback, v);
      } else {
        InferWithUnknownExtension(url, fallback, v);
      }
  }

  /** `inferContentType` does not strip a query string: a PNG with a query gets the fallback. */
  lemma QueryStringDefeatsContentType(fallback: string)
    ensures InferContentType("a.png?x=1", fallback) == fallback
  {
    RunIsMaximal("a.png?x=1", 1);
    InferContentTypeByExtension("a.png?x=1", fallback);
  }

  /** `fileExtension` strips the query string and lower-cases. */
  lemma FileExtensionStripsQuery()
    ensures FileExtension("a.PNG?x=1", "bin") == "png"
  {
    assert Split("a.PNG?x=1", '?')[0] == "a.PNG";
    RunIsMaximal("a.PNG", 3);
    assert "a.PNG"[2..] == "PNG";
    assert Lower("PNG") == "png";
  }

  /** Without an extension `fileExtension` answers the fallback. */
  lemma FileExtensionFallback(stem: string, fallback: string)
    requires AllAlnum(stem)
    ensures FileExtension(stem, fallback) == fallback
  {
    assert Free(stem, '?') by {
      forall i | 0 <= i < |stem| ensures stem[i] != '?' { assert IsAlnum(stem[i]); }
    }
    SplitFree(stem, '?');
    RunIsMaximal(stem, |stem|);
  }

  // ---------------------------------------------------------------------------------------
  // Size-limited download

  /** What `fetch` returned: whether it was ok, its status, the `content-length` header as
      `Number(...)` reads it (None when the header is absent or empty) and the body. */
  datatype HttpResponse = HttpResponse(ok: bool, status: int, contentLength: Option<JsNum>, body: seq<byte>)

  /** JavaScript's `a > b` on numbers: false whenever either side is NaN. */
  predicate Exceeds(a: JsNum, b: JsNum) {
    a.Int? && b.Int? && a.i > b.i
  }

  /** `downloadUrl(url, maxBytes)` once the response is in. */
  function DownloadUrl(resp: HttpResponse, maxBytes: JsNum): (r: Result<seq<byte>, string>)
    ensures r.Success? <==> resp.ok && !(resp.contentLength.Some? && Exceeds(resp.contentLength.value, maxBytes))
                            && !Exceeds(Int(|resp.body|), maxBytes)
    ensures r.Success? ==> r.value == resp.body
    ensures r.Success? && maxBytes.Int? ==> |r.value| <= maxBytes.i
  {
    if !resp.ok then Failure("Failed to download asset: " + IntToDecimal(resp.status))
    else if resp.contentLength.Some? && Exceeds(resp.contentLength.value, maxBytes) then
      Failure("Remote asset exceeds max size")
    else if Exceeds(Int(|resp.body|), maxBytes) then Failure("Remote asset exceeds max size")
    else Success(resp.body)
  }

  const MiB: nat := 1024 * 1024

  /** `Math.max(1, maxMb) * 1024 * 1024` with `maxMb = Number(ASSET_MAX_MB || "50")`, as
      written: a setting that is not a number makes the bound NaN. */
  function MaxBytesAsWritten(setting: Option<JsNum>): JsNum {
    match setting.GetOr(Int(50))
    case NaN => NaN
    case Int(mb) => Int((if mb < 1 then 1 else mb) * MiB)
  }

  /** The bound as evidently intended: a setting that is not a number falls back to 50 MiB. */
  function MaxBytes(setting: Option<JsNum>): (n: nat)
    ensures n >= MiB
    ensures setting.None? || setting == Some(NaN) ==> n == 50 * MiB
    ensures forall mb :: setting == Some(Int(mb)) ==> n == (if mb < 1 then 1 else mb) * MiB
  {
    match setting.GetOr(Int(50))
    case NaN => 50 * MiB
    case Int(mb) => (if mb < 1 then 1 else mb) * MiB
  }

  /** As written, ASSET_MAX_MB="50MB" disables the size limit altogether: a 200 MiB body whose
      server sends no content-length is accepted. */
  lemma NonNumericLimitAcceptsAnySize(body: seq<byte>)
    requires |body| == 200 * MiB
    ensures MaxBytesAsWritten(Some(NaN)) == NaN
    ensures DownloadUrl(HttpResponse(true, 200, None, body), MaxBytesAsWritten(Some(NaN))) == Success(body)
  {
  }

  /** With the corrected bound every accepted download fits, whatever the setting. */
  lemma CorrectedLimitHolds(resp: HttpResponse, setting: Option<JsNum>)
    ensures var r := DownloadUrl(resp, Int(MaxBytes(setting)));
            r.Success? ==> |r.value| <= MaxBytes(setting) && |r.value| <= (if setting.Some? && setting.value.Int? && setting.value.i > 50 then setting.value.i else 50) * MiB
  {
  }

  // ---------------------------------------------------------------------------------------
  // persistRemoteAssets

  /** What the network and the bucket answer: the response for each URL, and the upload
      error (if any) for each storage path. */
  datatype TransferIo = TransferIo(fetch: string -> HttpResponse, uploadError: string -> Option<string>)

  datatype Upload = Upload(path: string, contentType: string, data: seq<byte>)

  /** `"<userId>/<assetId>/<stem>.<ext>"`. */
  function StoragePath(userId: string, assetId: string, c: Channel, url: string): string {
    userId + "/" + assetId + "/" + FileStem(c) + "." + FileExtension(url, DefaultExtension(c))
  }

  datatype ChannelStep = Skipped | Stored(path: string, upload: Upload) | Aborted(message: string)

  /** One channel's block: nothing without a URL, else download, upload, and the path. */
  function StepFor(userId: string, assetId: string, c: Channel, urls: map<Channel, string>,
                   maxBytes: JsNum, io: TransferIo): (step: ChannelStep)
    ensures step.Skipped? <==> c !in urls || urls[c] == ""
    ensures step.Stored? ==> step.path == StoragePath(userId, assetId, c, urls[c]) == step.upload.path
    ensures step.Stored? ==> step.upload.data == io.fetch(urls[c]).body
    ensures step.Stored? && maxBytes.Int? ==> |step.upload.data| <= maxBytes.i
  {
    if c !in urls || urls[c] == "" then Skipped
    else
      var url := urls[c];
      var path := StoragePath(userId, assetId, c, url);
      match DownloadUrl(io.fetch(url), maxBytes)
      case Failure(e) => Aborted(e)
      case Success(data) =>
        match io.uploadError(path)
        case Some(e) => Aborted("Storage upload failed: " + e)
        case None => Stored(path, Upload(path, InferContentType(url, ContentTypeFallback(c)), data))
  }

  /** Every channel's step, as one function. */
  function Steps(userId: string, assetId: string, urls: map<Channel, string>, maxBytes: JsNum,
                 io: TransferIo): Channel -> ChannelStep
  {
    c => StepFor(userId, assetId, c, urls, maxBytes, io)
  }

  datatype PersistOutcome = PersistOutcome(result: Result<map<Channel, string>, string>, uploads: seq<Upload>)

  /** The remaining channels handled in order: the first failure aborts the rest, and the
      uploads already made stay made. */
  function PersistFrom(cs: seq<Channel>, steps: Channel -> ChannelStep, stored: map<Channel, string>): PersistOutcome
    decreases |cs|
  {
    if cs == [] then PersistOutcome(Success(stored), [])
    else
      match steps(cs[0])
      case Skipped => PersistFrom(cs[1..], steps, stored)
      case Aborted(e) => PersistOutcome(Failure(e), [])
      case Stored(path, up) =>
        var rest := PersistFrom(cs[1..], steps, stored[cs[0] := path]);
        PersistOutcome(rest.result, [up] + rest.uploads)
  }

  function Persist(userId: string, assetId: string, urls: map<Channel, string>,
                   maxMb: Option<JsNum>, io: TransferIo): PersistOutcome
  {
    PersistFrom(ChannelOrder, Steps(userId, assetId, urls, Int(MaxBytes(maxMb)), io), map[])
  }

  /** The paths of the channels of `cs` whose step stored something. */
  function StoredPaths(cs: seq<Channel>, steps: Channel -> ChannelStep): map<Channel, string> {
    map c | c in cs && steps(c).Stored? :: steps(c).path
  }

  /** Handling `cs` succeeds exactly when none of its channels aborts. */
  lemma {:induction false} PersistFromSucceeds(cs: seq<Channel>, steps: Channel -> ChannelStep,
                                               stored: map<Channel, string>)
    ensures PersistFrom(cs, steps, stored).result.Success? <==>
            forall i :: 0 <= i < |cs| ==> !steps(cs[i]).Aborted?
    decreases |cs|
  {
    if cs != [] {
      assert forall i :: 0 <= i < |cs[1..]| ==> cs[1..][i] == cs[i + 1];
      match steps(cs[0])
      case Skipped => PersistFromSucceeds(cs[1..], steps, stored);
      case Aborted(e) =>
      case Stored(path, up) => PersistFromSucceeds(cs[1..], steps, stored[cs[0] := path]);
    }
  }

  /** On success every stored channel of `cs` has been added under its path. */
  lemma {:induction false} PersistFromPaths(cs: seq<Channel>, steps: Channel -> ChannelStep,
                                            stored: map<Channel, string>)
    ensures var o := PersistFrom(cs, steps, stored);
            o.result.Success? ==> o.result.value == stored + StoredPaths(cs, steps)
    decreases |cs|
  {
    if cs != [] {
      var c := cs[0];
      assert forall d :: d in cs <==> d == c || d in cs[1..];
      match steps(c)
      case Skipped =>
        PersistFromPaths(cs[1..], steps, stored);
        assert StoredPaths(cs, steps) == StoredPaths(cs[1..], steps);
      case Aborted(e) =>
      case Stored(path, up) =>
        PersistFromPaths(cs[1..], steps, stored[c := path]);
        assert stored[c := path] + StoredPaths(cs[1..], steps) == stored + StoredPaths(cs, steps);
    }
  }

  predicate AllFit(uploads: seq<Upload>, maxBytes: nat) {
    forall i :: 0 <= i < |uploads| ==> |uploads[i].data| <= maxBytes
  }

  /** When every step's file fits, so does every upload made. */
  lemma {:induction false} PersistFromFits(cs: seq<Channel>, steps: Channel -> ChannelStep,
                                           stored: map<Channel, string>, maxBytes: nat)
    requires forall c :: steps(c).Stored? ==> |steps(c).upload.data| <= maxBytes
    ensures AllFit(PersistFrom(cs, steps, stored).uploads, maxBytes)
    decreases |cs|
  {
    if cs != [] {
      match steps(cs[0])
      case Skipped => PersistFromFits(cs[1..], steps, stored, maxBytes);
      case Aborted(e) =>
      case Stored(path, up) =>
        var rest := PersistFrom(cs[1..], steps, stored[cs[0] := path]);
        PersistFromFits(cs[1..], steps, stored[cs[0] := path], maxBytes);
        assert forall i :: 1 <= i < |[up] + rest.uploads| ==> ([up] + rest.uploads)[i] == rest.uploads[i - 1];
    }
  }

  lemma ChannelOrderComplete(c: Channel)
    ensures c in ChannelOrder
  {
    match c
    case Mesh => assert ChannelOrder[0] == c;
    case Albedo => assert ChannelOrder[1] == c;
    case Metalness => assert ChannelOrder[2] == c;
    case Roughness => assert ChannelOrder[3] == c;
    case Normal => assert ChannelOrder[4] == c;
  }

  /** The paths `persistRemoteAssets` promises: one per channel that has a URL. */
  function ExpectedPaths(userId: string, assetId: string, urls: map<Channel, string>): map<Channel, string> {
    map c | c in urls && urls[c] != "" :: StoragePath(userId, assetId, c, urls[c])
  }

  /** `persistRemoteAssets` succeeds exactly when no channel with a URL fails to download
      or upload. */
  lemma PersistSucceeds(userId: string, assetId: string, urls: map<Channel, string>,
                        maxMb: Option<JsNum>, io: TransferIo)
    ensures Persist(userId, assetId, urls, maxMb, io).result.Success? <==>
            forall c :: !StepFor(userId, assetId, c, urls, Int(MaxBytes(maxMb)), io).Aborted?
  {
    var maxBytes := Int(MaxBytes(maxMb));
    var steps := Steps(userId, assetId, urls, maxBytes, io);
    PersistFromSucceeds(ChannelOrder, steps, map[]);
    if forall i :: 0 <= i < |ChannelOrder| ==> !steps(ChannelOrder[i]).Aborted? {
      forall c ensures !StepFor(userId, assetId, c, urls, maxBytes, io).Aborted? {
        ChannelOrderComplete(c);
        var i :| 0 <= i < |ChannelOrder| && ChannelOrder[i] == c;
        assert !steps(ChannelOrder[i]).Aborted?;
      }
    } else {
      var i :| 0 <= i < |ChannelOrder| && steps(ChannelOrder[i]).Aborted?;
      assert StepFor(userId, assetId, ChannelOrder[i], urls, maxBytes, io).Aborted?;
    }
  }

  /** On success `persistRemoteAssets` returns the canonical path of every channel that has
      a URL, and of no other. */
  lemma PersistPaths(userId: string, assetId: string, urls: map<Channel, string>,
                     maxMb: Option<JsNum>, io: TransferIo)
    ensures var o := Persist(userId, assetId, urls, maxMb, io);
            o.result.Success? ==> o.result.value == ExpectedPaths(userId, assetId, urls)
  {
    if Persist(userId, assetId, urls, maxMb, io).result.Success? {
      var maxBytes := Int(MaxBytes(maxMb));
      PersistSucceeds(userId, assetId, urls, maxMb, io);
      StoredPathsAreExpected(userId, assetId, urls, maxBytes, io);
      SucceededWithStoredPaths(ChannelOrder, Steps(userId, assetId, urls, maxBytes, io));
    }
  }

  /** Starting from nothing, a successful run returns exactly the stored channels' paths. */
  lemma SucceededWithStoredPaths(cs: seq<Channel>, steps: Channel -> ChannelStep)
    ensures var o := PersistFrom(cs, steps, map[]);
            o.result.Success? ==> o.result.value == StoredPaths(cs, steps)
  {
    PersistFromPaths(cs, steps, map[]);
    assert map[] + StoredPaths(cs, steps) == StoredPaths(cs, steps);
  }

  lemma StoredPathsAreExpected(userId: string, assetId: string, urls: map<Channel, string>,
                               maxBytes: JsNum, io: TransferIo)
    requires forall c :: !StepFor(userId, assetId, c, urls, maxBytes, io).Aborted?
    ensures StoredPaths(ChannelOrder, Steps(userId, assetId, urls, maxBytes, io)) == ExpectedPaths(userId, assetId, urls)
  {
    var steps := Steps(userId, assetId, urls, maxBytes, io);
    var sp := StoredPaths(ChannelOrder, steps);
    var ep := ExpectedPaths(userId, assetId, urls);
    forall c ensures (c in sp <==> c in ep) && (c in sp ==> sp[c] == ep[c]) {
      ChannelOrderComplete(c);
      var st := StepFor(userId, assetId, c, urls, maxBytes, io);
      assert steps(c) == st;
    }
  }

  /** Every file `persistRemoteAssets` uploads fits the size bound. */
  lemma PersistFits(userId: string, assetId: string, urls: map<Channel, string>,
                    maxMb: Option<JsNum>, io: TransferIo)
    ensures AllFit(Persist(userId, assetId, urls, maxMb, io).uploads, MaxBytes(maxMb))
  {
    var steps := Steps(userId, assetId, urls, Int(MaxBytes(maxMb)), io);
    PersistFromFits(ChannelOrder, steps, map[], MaxBytes(maxMb));
  }

  /** `total` is what handling `cs` from `stored` yields, after `uploads` were already made. */
  ghost predicate Continues(total: PersistOutcome, cs: seq<Channel>, steps: Channel -> ChannelStep,
                            stored: map<Channel, string>, uploads: seq<Upload>)
  {
    var o := PersistFrom(cs, steps, stored);
    total == PersistOutcome(o.result, uploads + o.uploads)
  }

  /** One channel's block of `persistRemoteAssets`: download, upload. */
  method StoreChannel(userId: string, assetId: string, c: Channel, urls: map<Channel, string>,
                      maxBytes: JsNum, io: TransferIo)
    returns (step: ChannelStep)
    ensures step == StepFor(userId, assetId, c, urls, maxBytes, io)
  {
    if c !in urls || urls[c] == "" {
      return Skipped;
    }
    var url := urls[c];
    var ext := FileExtension(url, DefaultExtension(c));
    var path := userId + "/" + assetId + "/" + FileStem(c) + "." + ext;
    var data := DownloadUrl(io.fetch(url), maxBytes);
    if data.Failure? {
      return Aborted(data.error);
    }
    var uploadError := io.uploadError(path);
    if uploadError.Some? {
      return Aborted("Storage upload failed: " + uploadError.value);
    }
    step := Stored(path, Upload(path, InferContentType(url, ContentTypeFallback(c)), data.value));
  }

  /** Records one channel's step: its path into `stored`, its upload into `uploads`. */
  method RecordStep(step: ChannelStep, c: Channel, stored: map<Channel, string>, uploads: seq<Upload>,
                    ghost rest: seq<Channel>, ghost steps: Channel -> ChannelStep, ghost total: PersistOutcome)
    returns (aborted: Option<string>, stored': map<Channel, string>, uploads': seq<Upload>)
    requires step == steps(c)
    requires Continues(total, [c] + rest, steps, stored, uploads)
    ensures aborted.Some? ==> total == PersistOutcome(Failure(aborted.value), uploads')
    ensures aborted.None? ==> Continues(total, rest, steps, stored', uploads')
  {
    assert ([c] + rest)[1..] == rest;
    match step
    case Skipped =>
      aborted, stored', uploads' := None, stored, uploads;
    case Aborted(e) =>
      assert uploads + [] == uploads;
      aborted, stored', uploads' := Some(e), stored, uploads;
    case Stored(path, up) =>
      aborted, stored', uploads' := None, stored[c := path], uploads + [up];
      var o := PersistFrom(rest, steps, stored');
      assert uploads + ([up] + o.uploads) == uploads' + o.uploads;
  }

  /** `persistRemoteAssets`: the five channel blocks in sequence, filling `stored`. */
  method PersistRemoteAssets(userId: string, assetId: string, urls: map<Channel, string>,
                             maxMb: Option<JsNum>, io: TransferIo)
    returns (result: Result<map<Channel, string>, string>, uploads: seq<Upload>)
    ensures PersistOutcome(result, uploads) == Persist(userId, assetId, urls, maxMb, io)
    ensures result.Success? ==> result.value == ExpectedPaths(userId, assetId, urls)
    ensures AllFit(uploads, MaxBytes(maxMb))
  {
    ghost var total := Persist(userId, assetId, urls, maxMb, io);
    PersistPaths(userId, assetId, urls, maxMb, io);
    PersistFits(userId, assetId, urls, maxMb, io);
    var maxBytes := Int(MaxBytes(maxMb));
    ghost var steps := Steps(userId, assetId, urls, maxBytes, io);
    var stored: map<Channel, string> := map[];
    var aborted: Option<string>;
    var step: ChannelStep;
    uploads := [];
    assert Continues(total, [Mesh, Albedo, Metalness, Roughness, Normal], steps, stored, uploads);
    step := StoreChannel(userId, assetId, Mesh, urls, maxBytes, io);
    aborted, stored, uploads := RecordStep(step, Mesh, stored, uploads, [Albedo, Metalness, Roughness, Normal], steps, total);
    if aborted.Some? { return Failure(aborted.value), uploads; }
    step := StoreChannel(userId, assetId, Albedo, urls, maxBytes, io);
    aborted, stored, uploads := RecordStep(step, Albedo, stored, uploads, [Metalness, Roughness, Normal], steps, total);
    if aborted.Some? { return Failure(aborted.value), uploads; }
    step := StoreChannel(userId, assetId, Metalness, urls, maxBytes, io);
    aborted, stored, uploads := RecordStep(step, Metalness, stored, uploads, [Roughness, Normal], steps, total);
    if aborted.Some? { return Failure(aborted.value), uploads; }
    step := StoreChannel(userId, assetId, Roughness, urls, maxBytes, io);
    aborted, stored, uploads := RecordStep(step, Roughness, stored, uploads, [Normal], steps, total);
    if aborted.Some? { return Failure(aborted.value), uploads; }
    step := StoreChannel(userId, assetId, Normal, urls, maxBytes, io);
    aborted, stored, uploads := RecordStep(step, Normal, stored, uploads, [], steps, total);
    if aborted.Some? { return Failure(aborted.value), uploads; }
    assert uploads + [] == uploads;
    result := Success(stored);
  }
}
