/** The `SiteConfig` mongoose model: one document per key, each holding a value of any type. */
module SiteConfigSchema {

  /** A `Mixed` value: `null`, a string, or any other JSON value (kept opaque, by its text). */
  datatype Mixed = Null | Str(s: string) | OtherJson(text: string)

  /** The stored configuration. A map holds at most one value per key, which is what the
      `unique` index on `key` guarantees. */
  class SiteConfigCollection {
    var entries: map<string, Mixed>

    /** `key` and `value` are both required: no empty key, no `null` value. */
    ghost predicate Valid()
      reads this
    {
      forall k :: k in entries ==> k != "" && entries[k] != Null
    }

    constructor ()
      ensures Valid() && entries == map[]
    {
      entries := map[];
    }
  }
}

/** The home banner endpoints. */
module SiteConfigController {
  import opened Common
  import opened SiteConfigSchema

  const BannerKey: string := "home_banner"

  /** `getBanner`: the stored banner value, or `null` when no banner was ever set. */
  function GetBanner(store: SiteConfigCollection): (bannerUrl: Mixed)
    requires store.Valid()
    reads store
    ensures bannerUrl == Null <==> BannerKey !in store.entries
    ensures BannerKey in store.entries ==> bannerUrl == store.entries[BannerKey]
  {
    if BannerKey in store.entries then store.entries[BannerKey] else Null
  }

  /** `updateBanner`. `upload` is the blob store's answer (`None`: the upload threw). Without
      a file: 400 and no upload; otherwise the uploaded `secure_url` is upserted under the
      banner key, and both the reply and every later `getBanner` give it back. */
  method UpdateBanner(store: SiteConfigCollection, hasFile: bool, upload: Option<Upload>)
    returns (status: int, bannerUrl: Mixed)
    requires store.Valid()
    modifies store
    ensures store.Valid()
    ensures status == BadRequest <==> !hasFile
    ensures status == ServerError <==> hasFile && upload.None?
    ensures status == Ok <==> hasFile && upload.Some?
    ensures status != Ok ==> store.entries == old(store.entries) && bannerUrl == Null
    ensures status == Ok ==>
      && store.entries == old(store.entries)[BannerKey := Str(upload.value.secureUrl)]
      && bannerUrl == Str(upload.value.secureUrl)
      && GetBanner(store) == bannerUrl
    ensures forall k :: k != BannerKey && k in old(store.entries) ==>
      k in store.entries && store.entries[k] == old(store.entries)[k]
    ensures forall k :: k != BannerKey && k in store.entries ==> k in old(store.entries)
  {
    if !hasFile {
      return BadRequest, Null;
    }
    if upload.None? {
      return ServerError, Null;
    }
    store.entries := store.entries[BannerKey := Str(upload.value.secureUrl)];
    status, bannerUrl := Ok, store.entries[BannerKey];
  }
}
