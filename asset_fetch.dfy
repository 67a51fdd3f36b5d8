/** Fetching an asset's download URLs: who may read an asset, and, channel by channel, the
    signed storage URL or the stored remote URL handed out. */
module AssetFetch {
  import opened Wrappers
  import opened Json
  import Auth
  import Storage

  /** The `assets` columns the handler selects. A channel missing from `urls` or `paths` has a
      null column; `isPublic` is false when the column is false or null. */
  datatype AssetRow = AssetRow(
    id: string,
    ownerId: Option<string>,
    isPublic: bool,
    urls: map<Storage.Channel, string>,
    paths: map<Storage.Channel, string>,
    metadata: Value)

  /** `asset.is_public || isOwner || internalAllowed || auth.isInternal`, where `isOwner` needs
      a non-empty user id equal to the owner's. */
  predicate Allowed(asset: AssetRow, auth: Auth.AuthResult, internalAllowed: bool) {
    || asset.isPublic
    || (auth.userId.Some? && auth.userId.value != "" && auth.userId == asset.ownerId)
    || internalAllowed
    || auth.isInternal
  }

  /** The URL handed out for a channel: `signed ?? stored`, where a signed URL is asked for
      only when the channel has a non-empty storage path. `sign` is `createSignedUrl`, None
      when it fails. */
  function ChannelUrl(asset: AssetRow, c: Storage.Channel, sign: string -> Option<string>): (url: Option<string>)
    ensures var hasPath := c in asset.paths && asset.paths[c] != "";
      && (hasPath && sign(asset.paths[c]).Some? ==> url == sign(asset.paths[c]))
      && (!(hasPath && sign(asset.paths[c]).Some?) ==> url == (if c in asset.urls then Some(asset.urls[c]) else None))
  {
    var signed := if c in asset.paths && asset.paths[c] != "" then sign(asset.paths[c]) else None;
    if signed.Some? then signed else if c in asset.urls then Some(asset.urls[c]) else None
  }

  /** The reply: the asset's id, one URL (or null) per channel, and its metadata; or an error. */
  datatype FetchReply =
    | Urls(id: string, urls: map<Storage.Channel, Option<string>>, metadata: Value)
    | Refused(code: int, message: string)

  /** The handler after the method check. `assetId` is the `id` query parameter; `asset` the
      row found (None when the lookup failed or found nothing); `key` and `header` the
      configured `ASSET_FETCH_KEY` and the `x-asset-fetch-key` header. */
  function FetchOutcome(assetId: Option<string>, auth: Auth.AuthResult, key: Option<string>, header: Option<string>,
                        asset: Option<AssetRow>, sign: string -> Option<string>): (r: FetchReply)
    ensures Auth.Unset(assetId) ==> r == Refused(400, "id is required")
    ensures !Auth.Unset(assetId) && asset.None? ==> r == Refused(404, "Asset not found")
    ensures !Auth.Unset(assetId) && asset.Some? ==>
              (r.Urls? <==> Allowed(asset.value, auth, Auth.AllowAssetFetch(key, header)))
    ensures r.Refused? ==> r.code in {400, 403, 404}
    ensures r.Urls? ==> asset.Some? && r.id == asset.value.id && r.metadata == asset.value.metadata
    ensures r.Urls? ==> forall c :: c in r.urls <==> c in Storage.ChannelOrder
    ensures r.Urls? ==> forall c :: c in r.urls ==> r.urls[c] == ChannelUrl(asset.value, c, sign)
  {
    if Auth.Unset(assetId) then Refused(400, "id is required")
    else if asset.None? then Refused(404, "Asset not found")
    else if !Allowed(asset.value, auth, Auth.AllowAssetFetch(key, header)) then Refused(403, "Forbidden")
    else
      var a := asset.value;
      Urls(a.id, map c | c in Storage.ChannelOrder :: ChannelUrl(a, c, sign), a.metadata)
  }

  /** A refused caller learns nothing about the asset: the reply is the same 403 whatever the
      asset's URLs, paths and metadata are. */
  lemma DeniedDisclosesNothing(assetId: string, auth: Auth.AuthResult, key: Option<string>, header: Option<string>,
                               a: AssetRow, b: AssetRow, sign: string -> Option<string>)
    requires assetId != ""
    requires a.isPublic == b.isPublic == false && a.ownerId == b.ownerId
    requires !Allowed(a, auth, Auth.AllowAssetFetch(key, header))
    ensures FetchOutcome(Some(assetId), auth, key, header, Some(a), sign)
            == FetchOutcome(Some(assetId), auth, key, header, Some(b), sign)
            == Refused(403, "Forbidden")
  {
  }

  /** An anonymous caller without the key reads exactly the public assets. */
  lemma AnonymousReadsOnlyPublic(assetId: string, key: Option<string>, header: Option<string>, a: AssetRow,
                                 sign: string -> Option<string>)
    requires assetId != "" && !Auth.AllowAssetFetch(key, header)
    ensures FetchOutcome(Some(assetId), Auth.AuthResult(None, false), key, header, Some(a), sign).Urls? <==> a.isPublic
  {
  }

  /** The owner and the internal service read any asset, public or not. */
  lemma OwnerAndInternalRead(assetId: string, key: Option<string>, header: Option<string>, a: AssetRow,
                             sign: string -> Option<string>)
    requires assetId != "" && a.ownerId.Some? && a.ownerId.value != ""
    ensures FetchOutcome(Some(assetId), Auth.AuthResult(a.ownerId, false), key, header, Some(a), sign).Urls?
    ensures FetchOutcome(Some(assetId), Auth.AuthResult(None, true), key, header, Some(a), sign).Urls?
  {
  }

  /** An asset with nothing in storage is served its stored URLs as they are, whatever signing
      would give. */
  lemma UnstoredAssetServesStoredUrls(assetId: string, auth: Auth.AuthResult, key: Option<string>, header: Option<string>,
                                      a: AssetRow, sign: string -> Option<string>)
    requires assetId != "" && a.paths == map[] && Allowed(a, auth, Auth.AllowAssetFetch(key, header))
    ensures var r := FetchOutcome(Some(assetId), auth, key, header, Some(a), sign);
      r.Urls? && forall c :: c in Storage.ChannelOrder ==> r.urls[c] == (if c in a.urls then Some(a.urls[c]) else None)
  {
  }

  /** A failed signing falls back to the stored URL for that channel only. */
  lemma SigningFailureFallsBack(a: AssetRow, c: Storage.Channel, sign: string -> Option<string>)
    requires c in a.paths && a.paths[c] != "" && sign(a.paths[c]).None?
    ensures ChannelUrl(a, c, sign) == (if c in a.urls then Some(a.urls[c]) else None)
  {
  }
}
