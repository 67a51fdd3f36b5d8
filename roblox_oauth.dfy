/** The Roblox OAuth helper: the URL-safe base64 used for the PKCE verifier, the challenge
    and the state; where the client configuration comes from; the authorize request's
    parameters; and the decision between a cached, a refreshed and no access token. */
module RobloxOAuth {
  import opened Wrappers
  import opened Json
  import opened Text

  // ---------------------------------------------------------------------------------------
  // base64url (section 5 of RFC 4648, without padding).

  /** A six-bit value. */
  type Sextet = d: int | 0 <= d < 64

  /** The letters and digits both base64 alphabets share, for values 0 to 61. */
  function CommonChar(d: int): char
    requires 0 <= d < 62
  {
    if d < 26 then ('A' as int + d) as char
    else if d < 52 then ('a' as int + d - 26) as char
    else ('0' as int + d - 52) as char
  }

  /** The standard alphabet of section 4 of RFC 4648, which `btoa` uses. */
  function StdChar(d: Sextet): char {
    if d < 62 then CommonChar(d) else if d == 62 then '+' else '/'
  }

  /** The URL and filename safe alphabet of section 5 of RFC 4648. */
  function UrlChar(d: Sextet): char {
    if d < 62 then CommonChar(d) else if d == 62 then '-' else '_'
  }

  /** The six-bit groups of section 4 of RFC 4648: each 3 bytes give four, and a final 1 or
      2 bytes give two or three, the missing low bits zero. */
  function Sextets(bytes: seq<byte>): (r: seq<Sextet>)
    ensures |r| == (4 * |bytes| + 2) / 3
    decreases |bytes|
  {
    if |bytes| == 0 then []
    else if |bytes| == 1 then [bytes[0] / 4, (bytes[0] % 4) * 16]
    else if |bytes| == 2 then [bytes[0] / 4, (bytes[0] % 4) * 16 + bytes[1] / 16, (bytes[1] % 16) * 4]
    else
      [bytes[0] / 4, (bytes[0] % 4) * 16 + bytes[1] / 16, (bytes[1] % 16) * 4 + bytes[2] / 64, bytes[2] % 64]
      + Sextets(bytes[3..])
  }

  /** `btoa(String.fromCharCode(...bytes))`: standard base64, padded with "=" to a whole
      number of 4-character groups. */
  function Base64(bytes: seq<byte>): string {
    var d := Sextets(bytes);
    seq(|d|, i requires 0 <= i < |d| => StdChar(d[i])) + Padding(PadCount(|bytes|))
  }

  /** One character of `.replace(/\+/g, "-").replace(/\//g, "_")`. */
  function UrlSafeChar(c: char): char {
    if c == '+' then '-' else if c == '/' then '_' else c
  }

  /** `.replace(/\+/g, "-").replace(/\//g, "_")`. */
  function UrlSafe(s: string): (r: string)
    ensures |r| == |s|
  {
    seq(|s|, i requires 0 <= i < |s| => UrlSafeChar(s[i]))
  }

  /** The two alphabets differ only in the characters the replacements swap. */
  lemma UrlSafeStdChar(d: Sextet)
    ensures UrlSafeChar(StdChar(d)) == UrlChar(d)
  {
  }

  /** `.replace(/=+$/g, "")`. */
  function StripPadding(s: string): string
    decreases |s|
  {
    if |s| > 0 && s[|s| - 1] == '=' then StripPadding(s[..|s| - 1]) else s
  }

  /** `base64UrlEncode`, as the source computes it. */
  function Base64UrlEncode(bytes: seq<byte>): string {
    StripPadding(UrlSafe(Base64(bytes)))
  }

  /** The reference encoding: the same groups in the URL-safe alphabet, unpadded. */
  function Base64Url(bytes: seq<byte>): (r: string)
    ensures forall i :: 0 <= i < |r| ==> r[i] != '+' && r[i] != '/' && r[i] != '='
    ensures |r| == (4 * |bytes| + 2) / 3
  {
    var d := Sextets(bytes);
    seq(|d|, i requires 0 <= i < |d| => UrlChar(d[i]))
  }

  /** `k` padding characters. */
  function Padding(k: nat): string {
    seq(k, _ => '=')
  }

  /** The padding `btoa` adds: none for a whole number of 3-byte groups, else two or one. */
  function PadCount(n: nat): nat {
    if n % 3 == 0 then 0 else 3 - n % 3
  }

  /** Made URL-safe, the standard encoding is the reference encoding followed by its padding. */
  lemma UrlSafeBase64(bytes: seq<byte>)
    ensures UrlSafe(Base64(bytes)) == Base64Url(bytes) + Padding(PadCount(|bytes|))
  {
    var d := Sextets(bytes);
    var std := seq(|d|, i requires 0 <= i < |d| => StdChar(d[i]));
    forall i | 0 <= i < |d|
      ensures UrlSafeChar(std[i]) == Base64Url(bytes)[i]
    {
      UrlSafeStdChar(d[i]);
    }
  }

  /** Stripping removes exactly the trailing padding of a string that has no "=" otherwise. */
  lemma {:induction false} StripPaddingOf(s: string, k: nat)
    requires forall i :: 0 <= i < |s| ==> s[i] != '='
    ensures StripPadding(s + Padding(k)) == s
    decreases k
  {
    if k > 0 {
      assert (s + Padding(k))[..|s| + k - 1] == s + Padding(k - 1);
      StripPaddingOf(s, k - 1);
    }
  }

  /** `base64UrlEncode` is the base64url encoding of section 5 of RFC 4648 without padding: it
      contains no "+", "/" or "=", and its length is ceil(4n / 3). */
  lemma Base64UrlEncodeIsBase64Url(bytes: seq<byte>)
    ensures Base64UrlEncode(bytes) == Base64Url(bytes)
    ensures var r := Base64UrlEncode(bytes);
      && |r| == (4 * |bytes| + 2) / 3
      && forall i :: 0 <= i < |r| ==> r[i] != '+' && r[i] != '/' && r[i] != '='
  {
    UrlSafeBase64(bytes);
    StripPaddingOf(Base64Url(bytes), PadCount(|bytes|));
  }

  /** The 32-byte code verifier encodes to 43 characters, the shortest verifier section 4.1 of
      RFC 7636 allows (43 to 128); the 16-byte state encodes to 22 characters. */
  lemma VerifierAndStateLengths(verifier: seq<byte>, state: seq<byte>)
    requires |verifier| == 32 && |state| == 16
    ensures 43 <= |Base64UrlEncode(verifier)| == 43 <= 128
    ensures |Base64UrlEncode(state)| == 22
  {
    Base64UrlEncodeIsBase64Url(verifier);
    Base64UrlEncodeIsBase64Url(state);
  }

  // ---------------------------------------------------------------------------------------
  // Settings and configuration.

  /** A row that `fetchSettings` keeps: a truthy row whose `key` and `value` are strings. */
  predicate IsSettingRow(row: Value) {
    Truthy(Some(row)) && GetString(Props(row), "key").Some? && GetString(Props(row), "value").Some?
  }

  /** The settings the first rows give, a later row overriding an earlier one. */
  function SettingsFrom(rows: seq<Value>): map<string, string>
    decreases |rows|
  {
    if rows == [] then map[]
    else
      var m := SettingsFrom(rows[..|rows| - 1]);
      var row := rows[|rows| - 1];
      if IsSettingRow(row) then m[Props(row)["key"].s := Props(row)["value"].s] else m
  }

  /** `fetchSettings` on the rows the query returned (anything but an array gives none). */
  function Settings(data: Value): map<string, string> {
    if data.Arr? then SettingsFrom(data.items) else map[]
  }

  /** A key is set exactly when some kept row names it, and then to the value of the last such
      row. */
  lemma {:induction false} SettingsFromRows(rows: seq<Value>, k: string)
    ensures k in SettingsFrom(rows) <==>
              exists i :: 0 <= i < |rows| && IsSettingRow(rows[i]) && Props(rows[i])["key"].s == k
    ensures k in SettingsFrom(rows) ==>
              exists i :: 0 <= i < |rows| && IsSettingRow(rows[i]) && Props(rows[i])["key"].s == k
                          && SettingsFrom(rows)[k] == Props(rows[i])["value"].s
                          && (forall j :: i < j < |rows| && IsSettingRow(rows[j]) ==> Props(rows[j])["key"].s != k)
    decreases |rows|
  {
    if rows != [] {
      var init := rows[..|rows| - 1];
      SettingsFromRows(init, k);
      assert forall i :: 0 <= i < |init| ==> init[i] == rows[i];
      var last := |rows| - 1;
      if IsSettingRow(rows[last]) && Props(rows[last])["key"].s == k {
        assert SettingsFrom(rows)[k] == Props(rows[last])["value"].s;
      } else if k in SettingsFrom(rows) {
        var i :| 0 <= i < |init| && IsSettingRow(init[i]) && Props(init[i])["key"].s == k
                 && SettingsFrom(init)[k] == Props(init[i])["value"].s
                 && (forall j :: i < j < |init| && IsSettingRow(init[j]) ==> Props(init[j])["key"].s != k);
        assert SettingsFrom(rows)[k] == Props(rows[i])["value"].s;
      }
    }
  }

  /** `fetchSettings`, going through the rows in order. */
  method FetchSettings(data: Value) returns (result: map<string, string>)
    ensures result == Settings(data)
  {
    result := map[];
    if !data.Arr? {
      return;
    }
    var rows := data.items;
    var i := 0;
    while i < |rows|
      invariant 0 <= i <= |rows|
      invariant result == SettingsFrom(rows[..i])
    {
      var row := rows[i];
      if Truthy(Some(row)) && GetString(Props(row), "key").Some? && GetString(Props(row), "value").Some? {
        result := result[Props(row)["key"].s := Props(row)["value"].s];
      }
      assert rows[..i + 1][..i] == rows[..i];
      i := i + 1;
    }
    assert rows[..i] == rows;
  }

  /** The `ROBLOX_OAUTH_*` environment values, "" when unset. */
  datatype OAuthEnv = OAuthEnv(clientId: string, clientSecret: string, redirectUri: string, returnUrl: string)

  datatype OAuthConfig = OAuthConfig(clientId: string, clientSecret: string, redirectUri: string, returnUrl: Option<string>)

  /** The settings are read only when some environment value is empty. */
  predicate NeedsSettings(env: OAuthEnv) {
    env.clientId == "" || env.clientSecret == "" || env.redirectUri == "" || env.returnUrl == ""
  }

  /** `env || settings[key] || ""`. */
  function Pick(envValue: string, settings: map<string, string>, key: string): (v: string)
    ensures envValue != "" ==> v == envValue
    ensures envValue == "" ==> v == (if key in settings then settings[key] else "")
  {
    if envValue != "" then envValue else if key in settings then settings[key] else ""
  }

  /** `resolveRobloxOAuthConfig`, with the settings query's rows `settingsData`, which are read
      only when needed. Each value is the non-empty environment value, else the setting; a
      missing client id, secret or redirect URI throws, in that order; the return URL may be
      absent. */
  function ResolveConfig(env: OAuthEnv, settingsData: Value): (r: Result<OAuthConfig, string>)
    ensures var settings := if NeedsSettings(env) then Settings(settingsData) else map[];
      var id := Pick(env.clientId, settings, "roblox_oauth_client_id");
      var secret := Pick(env.clientSecret, settings, "roblox_oauth_client_secret");
      var redirect := Pick(env.redirectUri, settings, "roblox_oauth_redirect_uri");
      var ret := Pick(env.returnUrl, settings, "roblox_oauth_return_url");
      && (id == "" ==> r == Failure("Missing Roblox OAuth client ID"))
      && (id != "" && secret == "" ==> r == Failure("Missing Roblox OAuth client secret"))
      && (id != "" && secret != "" && redirect == "" ==> r == Failure("Missing Roblox OAuth redirect URI"))
      && (r.Success? <==> id != "" && secret != "" && redirect != "")
      && (r.Success? ==> r.value == OAuthConfig(id, secret, redirect, if ret == "" then None else Some(ret)))
  {
    var settings := if NeedsSettings(env) then Settings(settingsData) else map[];
    var id := Pick(env.clientId, settings, "roblox_oauth_client_id");
    var secret := Pick(env.clientSecret, settings, "roblox_oauth_client_secret");
    var redirect := Pick(env.redirectUri, settings, "roblox_oauth_redirect_uri");
    var ret := Pick(env.returnUrl, settings, "roblox_oauth_return_url");
    if id == "" then Failure("Missing Roblox OAuth client ID")
    else if secret == "" then Failure("Missing Roblox OAuth client secret")
    else if redirect == "" then Failure("Missing Roblox OAuth redirect URI")
    else Success(OAuthConfig(id, secret, redirect, if ret == "" then None else Some(ret)))
  }

  /** With every environment value set, the settings table does not matter. */
  lemma FullEnvIgnoresSettings(env: OAuthEnv, a: Value, b: Value)
    requires !NeedsSettings(env)
    ensures ResolveConfig(env, a) == ResolveConfig(env, b)
            == Success(OAuthConfig(env.clientId, env.clientSecret, env.redirectUri, Some(env.returnUrl)))
  {
  }

  // ---------------------------------------------------------------------------------------
  // The authorize request.

  /** The query parameters of the authorize URL, in the order they are set. */
  function AuthorizeParams(config: OAuthConfig, state: string, codeChallenge: string, scopes: seq<string>): seq<(string, string)> {
    [("client_id", config.clientId), ("redirect_uri", config.redirectUri), ("response_type", "code"),
     ("scope", Join(scopes, " ")), ("state", state), ("code_challenge", codeChallenge),
     ("code_challenge_method", "S256")]
  }

  /** The value of the first parameter named `name`. */
  function Param(params: seq<(string, string)>, name: string): (v: Option<string>)
    ensures v.Some? ==> exists i :: 0 <= i < |params| && params[i] == (name, v.value)
    ensures v.None? <==> forall i :: 0 <= i < |params| ==> params[i].0 != name
    decreases |params|
  {
    if params == [] then None
    else if params[0].0 == name then Some(params[0].1)
    else
      assert forall i :: 1 <= i < |params| ==> params[1..][i - 1] == params[i];
      Param(params[1..], name)
  }

  /** `Param` finds the first parameter of that name. */
  lemma {:induction false} ParamAt(params: seq<(string, string)>, i: nat, name: string)
    requires i < |params| && params[i].0 == name
    requires forall j :: 0 <= j < i ==> params[j].0 != name
    ensures Param(params, name) == Some(params[i].1)
    decreases i
  {
    if i > 0 {
      ParamAt(params[1..], i - 1, name);
    }
  }

  /** The authorize request asks for an authorization code (section 4.1.1 of RFC 6749) with
      an S256 challenge (section 4.3 of RFC 7636) and carries the state it was given. */
  lemma AuthorizeRequestFlow(config: OAuthConfig, state: string, codeChallenge: string, scopes: seq<string>)
    ensures var p := AuthorizeParams(config, state, codeChallenge, scopes);
      && Param(p, "response_type") == Some("code")
      && Param(p, "code_challenge_method") == Some("S256")
      && Param(p, "state") == Some(state)
      && Param(p, "code_challenge") == Some(codeChallenge)
  {
    var p := AuthorizeParams(config, state, codeChallenge, scopes);
    AuthorizeParamAt(p, config, state, codeChallenge, scopes, 2);
    AuthorizeParamAt(p, config, state, codeChallenge, scopes, 4);
    AuthorizeParamAt(p, config, state, codeChallenge, scopes, 5);
    AuthorizeParamAt(p, config, state, codeChallenge, scopes, 6);
  }

  /** Each authorize parameter is found under its own name. */
  lemma AuthorizeParamAt(p: seq<(string, string)>, config: OAuthConfig, state: string, codeChallenge: string,
                         scopes: seq<string>, i: nat)
    requires p == AuthorizeParams(config, state, codeChallenge, scopes) && i < |p|
    ensures Param(p, p[i].0) == Some(p[i].1)
  {
    ParamAt(p, i, p[i].0);
  }

  /** The authorize request names the configured client and redirect URI and the scopes,
      joined by single spaces. */
  lemma AuthorizeRequestClient(config: OAuthConfig, state: string, codeChallenge: string, scopes: seq<string>)
    ensures var p := AuthorizeParams(config, state, codeChallenge, scopes);
      && Param(p, "client_id") == Some(config.clientId)
      && Param(p, "redirect_uri") == Some(config.redirectUri)
      && Param(p, "scope") == Some(Join(scopes, " "))
  {
    var p := AuthorizeParams(config, state, codeChallenge, scopes);
    AuthorizeParamAt(p, config, state, codeChallenge, scopes, 0);
    AuthorizeParamAt(p, config, state, codeChallenge, scopes, 1);
    AuthorizeParamAt(p, config, state, codeChallenge, scopes, 3);
  }

  /** The scope parameter is the scopes joined by single spaces, so splitting it at spaces
      gives back the scopes whenever none contains a space. */
  lemma ScopeRoundTrip(config: OAuthConfig, state: string, codeChallenge: string, scopes: seq<string>)
    requires scopes != [] && forall i :: 0 <= i < |scopes| ==> Free(scopes[i], ' ')
    ensures Split(AuthorizeParams(config, state, codeChallenge, scopes)[3].1, ' ') == scopes
  {
    SplitJoin(scopes, ' ');
  }

  // ---------------------------------------------------------------------------------------
  // The access-token decision.

  /** A stored `roblox_oauth_tokens` row. `expiresAt` is `new Date(expires_at).getTime()` in
      milliseconds (NaN for an unreadable date) when the column is set. */
  datatype TokenRow = TokenRow(accessToken: string, refreshToken: Option<string>, tokenType: Option<string>,
                               expiresAt: Option<JsNum>)

  datatype AccessToken = AccessToken(accessToken: string, tokenType: string)

  /** What `getValidRobloxAccessToken` does first: give up, use the stored token, or refresh. */
  datatype TokenDecision = NoToken | UseStored(token: AccessToken) | Refresh(refreshToken: string)

  /** Whether the stored expiry counts as set (`!expiresAt` is false). */
  predicate HasExpiry(row: TokenRow) {
    row.expiresAt.Some? && row.expiresAt.value.Int? && row.expiresAt.value.i != 0
  }

  /** The first part of `getValidRobloxAccessToken` at time `now` (milliseconds). */
  function DecideToken(row: Option<TokenRow>, now: int): (d: TokenDecision)
    ensures row.None? ==> d == NoToken
    ensures row.Some? && (!HasExpiry(row.value) || row.value.expiresAt.value.i - now > 60000) ==>
              d == UseStored(AccessToken(row.value.accessToken, row.value.tokenType.GetOr("Bearer")))
    ensures row.Some? && HasExpiry(row.value) && row.value.expiresAt.value.i - now <= 60000 ==>
              (d == NoToken <==> row.value.refreshToken.None? || row.value.refreshToken == Some(""))
    ensures d.Refresh? ==> row.Some? && Some(d.refreshToken) == row.value.refreshToken && d.refreshToken != ""
  {
    match row
    case None => NoToken
    case Some(r) =>
      if !HasExpiry(r) || r.expiresAt.value.i - now > 60000 then
        UseStored(AccessToken(r.accessToken, r.tokenType.GetOr("Bearer")))
      else if r.refreshToken.None? || r.refreshToken.value == "" then NoToken
      else Refresh(r.refreshToken.value)
  }

  /** The row the refresh writes back. `expiresAt` is the new expiry in milliseconds. */
  datatype TokenUpsert = TokenUpsert(accessToken: string, refreshToken: Option<string>, tokenType: Option<string>,
                                     scope: Option<string>, expiresAt: Option<int>)

  /** The result of the refresh path: no token, or the new token and the row written. */
  datatype Refreshed = NotRefreshed | Renewed(token: AccessToken, upsert: TokenUpsert)

  /** The refresh path after the token endpoint answered `response` (its JSON body) and
      `Number(expires_in ?? 0)` gave `expiresIn` seconds. */
  function AfterRefresh(row: TokenRow, response: Record, expiresIn: JsNum, now: int): (r: Refreshed)
    ensures var access := ToJsString(Nullish(Get(response, "access_token"), Str("")));
      && (r.NotRefreshed? <==> access == "")
      && (r.Renewed? ==>
            && r.token.accessToken == access && r.upsert.accessToken == access
            && r.upsert.refreshToken == (if GetString(response, "refresh_token").Some? then GetString(response, "refresh_token") else row.refreshToken)
            && r.upsert.tokenType == (if GetString(response, "token_type").Some? then GetString(response, "token_type") else row.tokenType)
            && r.token.tokenType == GetString(response, "token_type").GetOr(row.tokenType.GetOr("Bearer"))
            && r.upsert.scope == GetString(response, "scope")
            && (r.upsert.expiresAt.Some? <==> expiresIn.Int? && expiresIn.i > 0)
            && (r.upsert.expiresAt.Some? ==> r.upsert.expiresAt.value == now + expiresIn.i * 1000))
  {
    var access := ToJsString(Nullish(Get(response, "access_token"), Str("")));
    if access == "" then NotRefreshed
    else
      var expires := if expiresIn.Int? && expiresIn.i > 0 then Some(now + expiresIn.i * 1000) else None;
      var tokenType := if GetString(response, "token_type").Some? then GetString(response, "token_type") else row.tokenType;
      Renewed(AccessToken(access, GetString(response, "token_type").GetOr(row.tokenType.GetOr("Bearer"))),
              TokenUpsert(access, if GetString(response, "refresh_token").Some? then GetString(response, "refresh_token") else row.refreshToken,
                          tokenType, GetString(response, "scope"), expires))
  }

  /** A token with more than a minute left is used as stored, whatever the refresh would say. */
  lemma FreshTokenIsNotRefreshed(row: TokenRow, now: int)
    requires HasExpiry(row) && row.expiresAt.value.i > now + 60000
    ensures DecideToken(Some(row), now) == UseStored(AccessToken(row.accessToken, row.tokenType.GetOr("Bearer")))
  {
  }

  /** What `getValidRobloxAccessToken` returns: null, the stored token, or the renewed one.
      `refreshed` is the refresh path's result and is consulted only on that path. */
  function ValidToken(d: TokenDecision, refreshed: Refreshed): (t: Option<AccessToken>)
    ensures d.NoToken? ==> t.None?
    ensures d.UseStored? ==> t == Some(d.token)
    ensures d.Refresh? ==> (t.Some? <==> refreshed.Renewed?) && (t.Some? ==> t.value == refreshed.token)
  {
    match d
    case NoToken => None
    case UseStored(token) => Some(token)
    case Refresh(_) => if refreshed.Renewed? then Some(refreshed.token) else None
  }
}
