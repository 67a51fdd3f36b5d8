/** The pure helpers of the Meshy handlers: the refine and remesh settings read from a job's
    request payload, and the choice of a texture URL among provider keys. */
module MeshyConfig {
  import opened Wrappers
  import opened Json
  import opened Jobs

  /** The entries of `src` under `keys` that hold a string. */
  function Strings(src: Record, keys: set<string>): (r: Record)
    ensures forall k :: k in r <==> k in keys && k in src && src[k].Str?
    ensures forall k :: k in r ==> r[k] == src[k]
  {
    map k | k in keys && k in src && src[k].Str? :: src[k]
  }

  /** The entries of `src` under `keys` that hold a number. */
  function Numbers(src: Record, keys: set<string>): (r: Record)
    ensures forall k :: k in r <==> k in keys && k in src && src[k].Num?
    ensures forall k :: k in r ==> r[k] == src[k]
  {
    map k | k in keys && k in src && src[k].Num? :: src[k]
  }

  const RefineStringKeys: set<string> := {"texture_prompt", "texture_image_url", "art_style", "ai_model", "negative_prompt"}

  /** `getRefineConfig`: the `refine` section, enabled unless it says `enabled: false`, with
      `mode: "refine"`, `enable_pbr` (true unless given as a boolean), and the optional
      string settings and `seed` copied when they have the right type. */
  function RefineConfig(payload: Record): (c: StageConfig)
    ensures var sec := Section(payload, "refine");
      && (!c.enabled <==> "enabled" in sec && sec["enabled"] == Bool(false))
      && "mode" in c.payload && c.payload["mode"] == Str("refine")
      && "enable_pbr" in c.payload && c.payload["enable_pbr"].Bool?
      && (c.payload["enable_pbr"] == Bool(false) <==> "enable_pbr" in sec && sec["enable_pbr"] == Bool(false))
      && (forall k :: k in c.payload <==>
            k == "mode" || k == "enable_pbr"
            || (k in RefineStringKeys && k in sec && sec[k].Str?)
            || (k == "seed" && k in sec && sec[k].Num?))
      && (forall k :: k in c.payload && k != "mode" && k != "enable_pbr" ==> c.payload[k] == sec[k])
  {
    var sec := Section(payload, "refine");
    RefineSettingsKeys(sec);
    RefineSettingsValues(sec);
    StageConfig(GetBool(sec, "enabled").GetOr(true), RefineSettings(sec))
  }

  /** The refine settings sent to the provider: the typed optional settings, then the fixed
      `mode` and `enable_pbr`. */
  function RefineSettings(sec: Record): Record {
    Strings(sec, RefineStringKeys) + Numbers(sec, {"seed"})
      + map["mode" := Str("refine"), "enable_pbr" := Bool(GetBool(sec, "enable_pbr").GetOr(true))]
  }

  lemma RefineSettingsKeys(sec: Record)
    ensures forall k :: k in RefineSettings(sec) <==>
              k == "mode" || k == "enable_pbr"
              || (k in RefineStringKeys && k in sec && sec[k].Str?)
              || (k == "seed" && k in sec && sec[k].Num?)
  {
  }

  lemma RefineSettingsValues(sec: Record)
    ensures forall k :: k in RefineSettings(sec) && k != "mode" && k != "enable_pbr" ==> RefineSettings(sec)[k] == sec[k]
  {
    var s := Strings(sec, RefineStringKeys);
    var n := Numbers(sec, {"seed"});
    assert "seed" !in RefineStringKeys;
    forall k | k in RefineSettings(sec) && k != "mode" && k != "enable_pbr"
      ensures RefineSettings(sec)[k] == sec[k]
    {
      assert k in s || k in n;
    }
  }

  /** `target_format`, else the first of `target_formats` when it is a string, else "fbx". */
  function TargetFormat(sec: Record): (f: string)
    ensures GetString(sec, "target_format").Some? ==> f == sec["target_format"].s
    ensures GetString(sec, "target_format").None? && FirstString(sec, "target_formats").Some?
            ==> f == FirstString(sec, "target_formats").value
    ensures GetString(sec, "target_format").None? && FirstString(sec, "target_formats").None? ==> f == "fbx"
  {
    match GetString(sec, "target_format")
    case Some(s) => s
    case None => FirstString(sec, "target_formats").GetOr("fbx")
  }

  /** `Array.isArray(r[key]) && typeof r[key][0] === "string" ? r[key][0] : undefined`. */
  function FirstString(r: Record, key: string): (s: Option<string>)
    ensures s.Some? <==> key in r && r[key].Arr? && |r[key].items| > 0 && r[key].items[0].Str?
    ensures s.Some? ==> r[key].items[0] == Str(s.value)
  {
    if key in r && r[key].Arr? && |r[key].items| > 0 && r[key].items[0].Str? then Some(r[key].items[0].s) else None
  }

  /** `getRemeshConfig`: the `remesh` section, enabled unless it says `enabled: false`, with
      the format, polycount and topology resolved and `origin_at` / `resize_height` copied when
      they have the right type. */
  function RemeshConfig(payload: Record): (c: StageConfig)
    ensures var sec := Section(payload, "remesh");
      && (!c.enabled <==> "enabled" in sec && sec["enabled"] == Bool(false))
      && "target_format" in c.payload && c.payload["target_format"] == Str(TargetFormat(sec))
      && "target_polycount" in c.payload && c.payload["target_polycount"] == Num(TargetPolycount(payload, sec))
      && "topology" in c.payload && c.payload["topology"] == Str(GetString(sec, "topology").GetOr("triangle"))
  {
    var sec := Section(payload, "remesh");
    StageConfig(GetBool(sec, "enabled").GetOr(true), RemeshSettings(payload, sec))
  }

  function RemeshSettings(payload: Record, sec: Record): (p: Record)
    ensures "target_format" in p && p["target_format"] == Str(TargetFormat(sec))
    ensures "target_polycount" in p && p["target_polycount"] == Num(TargetPolycount(payload, sec))
    ensures "topology" in p && p["topology"] == Str(GetString(sec, "topology").GetOr("triangle"))
  {
    Strings(sec, {"origin_at"}) + Numbers(sec, {"resize_height"})
      + map["target_format" := Str(TargetFormat(sec)),
            "target_polycount" := Num(TargetPolycount(payload, sec)),
            "topology" := Str(GetString(sec, "topology").GetOr("triangle"))]
  }

  /** The remesh request has the three resolved settings, and `origin_at` / `resize_height`
      exactly when the section gives them with the right type. */
  lemma RemeshConfigKeys(payload: Record)
    ensures var sec := Section(payload, "remesh");
      var p := RemeshConfig(payload).payload;
      && (forall k :: k in p <==>
            k == "target_format" || k == "target_polycount" || k == "topology"
            || (k == "origin_at" && k in sec && sec[k].Str?)
            || (k == "resize_height" && k in sec && sec[k].Num?))
      && (forall k :: k in p && (k == "origin_at" || k == "resize_height") ==> p[k] == sec[k])
  {
    var sec := Section(payload, "remesh");
    RemeshSettingsKeys(payload, sec);
    RemeshSettingsValues(payload, sec);
  }

  lemma RemeshSettingsKeys(payload: Record, sec: Record)
    ensures var p := RemeshSettings(payload, sec);
      forall k :: k in p <==>
        k == "target_format" || k == "target_polycount" || k == "topology"
        || (k == "origin_at" && k in sec && sec[k].Str?)
        || (k == "resize_height" && k in sec && sec[k].Num?)
  {
  }

  lemma RemeshSettingsValues(payload: Record, sec: Record)
    ensures var p := RemeshSettings(payload, sec);
      forall k :: k in p && (k == "origin_at" || k == "resize_height") ==> p[k] == sec[k]
  {
  }

  /** With no settings at all, both later stages run with their documented defaults. */
  lemma DefaultsWithEmptyPayload()
    ensures RefineConfig(map[]) == StageConfig(true, map["mode" := Str("refine"), "enable_pbr" := Bool(true)])
    ensures RemeshConfig(map[]) == StageConfig(true, map["target_format" := Str("fbx"),
                                                         "target_polycount" := Num(3500),
                                                         "topology" := Str("triangle")])
  {
    RefineDefaults();
    RemeshDefaults();
  }

  lemma RefineDefaults()
    ensures RefineSettings(map[]) == map["mode" := Str("refine"), "enable_pbr" := Bool(true)]
  {
    assert Strings(map[], RefineStringKeys) == map[];
    assert Numbers(map[], {"seed"}) == map[];
  }

  lemma RemeshDefaults()
    ensures RemeshSettings(map[], map[]) == map["target_format" := Str("fbx"), "target_polycount" := Num(3500),
                                               "topology" := Str("triangle")]
  {
    assert Strings(map[], {"origin_at"}) == map[];
    assert Numbers(map[], {"resize_height"}) == map[];
  }

  /** The first key whose value is truthy, in key order. */
  function FirstTruthy(r: Record, keys: seq<string>): (v: Option<Value>)
    ensures v.None? <==> forall i :: 0 <= i < |keys| ==> !Truthy(Get(r, keys[i]))
    ensures v.Some? ==> Truthy(v)
    ensures v.Some? ==> exists i :: 0 <= i < |keys| && Get(r, keys[i]) == v && (forall j :: 0 <= j < i ==> !Truthy(Get(r, keys[j])))
    decreases |keys|
  {
    if keys == [] then None
    else if Truthy(Get(r, keys[0])) then Get(r, keys[0])
    else
      var rest := FirstTruthy(r, keys[1..]);
      assert forall i :: 1 <= i < |keys| ==> keys[1..][i - 1] == keys[i];
      rest
  }

  /** `pickTextureUrl`: nothing when the texture map is missing, else the first truthy entry
      among `keys`. */
  function PickTexture(textureUrls: Option<Value>, keys: seq<string>): Option<Value> {
    if !Truthy(textureUrls) then None else FirstTruthy(Props(textureUrls.value), keys)
  }

  method PickTextureUrl(textureUrls: Option<Value>, keys: seq<string>) returns (url: Option<Value>)
    ensures url == PickTexture(textureUrls, keys)
  {
    if !Truthy(textureUrls) {
      return None;
    }
    var r := Props(textureUrls.value);
    var i := 0;
    while i < |keys|
      invariant 0 <= i <= |keys|
      invariant FirstTruthy(r, keys[i..]) == FirstTruthy(r, keys)
    {
      var v := Get(r, keys[i]);
      if Truthy(v) {
        return v;
      }
      assert keys[i..][1..] == keys[i + 1..];
      i := i + 1;
    }
    return None;
  }

  const AlbedoKeys: seq<string> := ["albedo", "base_color", "baseColor", "diffuse"]
  const MetalnessKeys: seq<string> := ["metalness", "metallic"]
  const RoughnessKeys: seq<string> := ["roughness"]
  const NormalKeys: seq<string> := ["normal"]
}
