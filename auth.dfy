/** Request authentication shared by the handlers: the Meshy webhook secret, the asset-fetch
    key, and the internal-key / bearer-token decision. Environment values and header values
    are inputs; an absent value and the empty string are both "not set", as JavaScript's `!x`
    treats them. */
module Auth {
  import opened Wrappers
  import opened Json

  /** `!x` for an optional string. */
  predicate Unset(x: Option<string>) {
    x.None? || x.value == ""
  }

  /** `assertWebhookSecret`: open when no secret is configured, else the header must equal it. */
  function AssertWebhookSecret(secret: Option<string>, header: Option<string>): (ok: bool)
    ensures Unset(secret) ==> ok
    ensures !Unset(secret) ==> (ok <==> header == secret)
  {
    Unset(secret) || header == secret
  }

  /** `allowAssetFetch`: closed when no key is configured, else the header must equal it. */
  function AllowAssetFetch(key: Option<string>, header: Option<string>): (ok: bool)
    ensures Unset(key) ==> !ok
    ensures !Unset(key) ==> (ok <==> header == key)
  {
    !Unset(key) && header == key
  }

  /** The caller: a user id, or the internal service, or nobody. */
  datatype AuthResult = AuthResult(userId: Option<string>, isInternal: bool)

  /** The inputs of `authenticateRequest`:
      `internalKey` is `MESHY_INTERNAL_KEY`; `headerKey` the `x-internal-key` header;
      `storedKey` the `app_settings` value of `meshy_internal_key` (None when the lookup fails
      or finds no row); `authorization` the `Authorization` header; `verifiedUser` the id
      `auth.getUser()` returns for that header (None on an error or no user). */
  datatype AuthInput = AuthInput(
    internalKey: Option<string>,
    headerKey: Option<string>,
    storedKey: Option<Value>,
    authorization: Option<string>,
    verifiedUser: Option<string>)

  /** Whether the internal key authenticates the request. */
  predicate InternalKeyMatches(a: AuthInput) {
    !Unset(a.headerKey)
    && ((!Unset(a.internalKey) && a.headerKey == a.internalKey)
        || (Unset(a.internalKey) && a.storedKey == Some(Str(a.headerKey.value))))
  }

  /** `authenticateRequest`. */
  function AuthenticateRequest(a: AuthInput): (r: AuthResult)
    ensures r.isInternal ==> r.userId.None?
    ensures r.isInternal <==> InternalKeyMatches(a)
    ensures !r.isInternal ==> (r.userId.Some? <==> !Unset(a.authorization) && a.verifiedUser.Some?)
    ensures r.userId.Some? ==> r.userId == a.verifiedUser
  {
    if InternalKeyMatches(a) then AuthResult(None, true)
    else if Unset(a.authorization) then AuthResult(None, false)
    else if a.verifiedUser.None? then AuthResult(None, false)
    else AuthResult(a.verifiedUser, false)
  }

  /** A header equal to the configured internal key is the internal service. */
  lemma EnvInternalKeyWins(a: AuthInput)
    requires !Unset(a.internalKey) && a.headerKey == a.internalKey
    ensures AuthenticateRequest(a) == AuthResult(None, true)
  {
  }

  /** The stored key is consulted only when no key is configured: with one configured, the
      answer does not depend on it, and a wrong header falls through to the bearer token. */
  lemma StoredKeyIgnoredWhenConfigured(a: AuthInput, stored: Option<Value>)
    requires !Unset(a.internalKey)
    ensures AuthenticateRequest(a) == AuthenticateRequest(a.(storedKey := stored))
    ensures a.headerKey != a.internalKey ==>
              AuthenticateRequest(a) == AuthenticateRequest(a.(headerKey := None))
  {
  }

  /** Without an internal key match and without an Authorization header, nobody is
      authenticated, whatever the token service would say. */
  lemma NoAuthorizationNoUser(a: AuthInput, user: Option<string>)
    requires !InternalKeyMatches(a) && Unset(a.authorization)
    ensures AuthenticateRequest(a) == AuthenticateRequest(a.(verifiedUser := user)) == AuthResult(None, false)
  {
  }
}
