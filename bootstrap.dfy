/**
 * The decoded response of the bootstrap request and the checks `initialize`
 * makes of it before it stores the account identifiers.
 * JSON numbers are modelled as `int`; a field that may be `undefined` (or,
 * for the entries and their `response`, `null`) is an `Option`.
 */
module Bootstrap {
  import opened Wrappers
  import opened Errors

  /** The `response` object of one entry of `cache`. */
  datatype EntryResponse = EntryResponse(defaultAccountId: Option<int>)

  /** One entry of `cache`; its `response` may be missing. */
  datatype CacheEntry = CacheEntry(response: Option<EntryResponse>)

  /** The decoded bootstrap body: `{ cache: [...], profileId }`; both may be missing. */
  datatype BootstrapResponse = BootstrapResponse(cache: Option<seq<Option<CacheEntry>>>, profileId: Option<int>)

  /** The two identifiers `initialize` stores on success. */
  datatype AccountIds = AccountIds(defaultAccountId: int, profileId: int)

  /** JavaScript truthiness of a number that may be `undefined`: `undefined` and 0 are falsy. */
  predicate Truthy(n: Option<int>) {
    n.Some? && n.value != 0
  }

  /**
   * `data.cache?.[0]?.response?.defaultAccountId`: the optional chain through
   * entry 0 of `cache`, `undefined` as soon as one link is missing.
   */
  function FirstEntryAccountId(resp: BootstrapResponse): (r: Option<int>)
    ensures r.Some? <==>
      && resp.cache.Some? && |resp.cache.value| > 0
      && resp.cache.value[0].Some?
      && resp.cache.value[0].value.response.Some?
      && resp.cache.value[0].value.response.value.defaultAccountId.Some?
    ensures r.Some? ==> r == resp.cache.value[0].value.response.value.defaultAccountId
  {
    match resp.cache
    case None => None
    case Some(entries) =>
      if |entries| == 0 then None
      else
        match entries[0]
        case None => None
        case Some(entry) =>
          match entry.response
          case None => None
          case Some(body) => body.defaultAccountId
  }

  /**
   * The checks of `initialize`, in their order: first the default account id
   * of entry 0, then the top-level profile id; on success the identifiers to
   * store.
   */
  function Parse(resp: BootstrapResponse): (r: Result<AccountIds, Error>)
    ensures r.Ok? <==> Truthy(FirstEntryAccountId(resp)) && Truthy(resp.profileId)
    ensures r.Ok? ==> r.value.defaultAccountId == FirstEntryAccountId(resp).value && r.value.defaultAccountId != 0
    ensures r.Ok? ==> r.value.profileId == resp.profileId.value && r.value.profileId != 0
    ensures r == Err(MissingDefaultAccountId) <==> !Truthy(FirstEntryAccountId(resp))
    ensures r == Err(MissingProfileId) <==> Truthy(FirstEntryAccountId(resp)) && !Truthy(resp.profileId)
  {
    var id := FirstEntryAccountId(resp);
    if !Truthy(id) then Err(MissingDefaultAccountId)
    else if !Truthy(resp.profileId) then Err(MissingProfileId)
    else Ok(AccountIds(id.value, resp.profileId.value))
  }

  /** An empty or missing `cache` fails with the default-account-id error, whatever `profileId` is. */
  lemma EmptyCacheFails(resp: BootstrapResponse)
    requires resp.cache == None || resp.cache == Some([])
    ensures Parse(resp) == Err(MissingDefaultAccountId)
  {
  }

  /** A default account id of 0 counts as missing. */
  lemma ZeroAccountIdFails(resp: BootstrapResponse)
    requires FirstEntryAccountId(resp) == Some(0)
    ensures Parse(resp) == Err(MissingDefaultAccountId)
  {
  }

  /** When both fields are missing, the default-account-id check wins. */
  lemma AccountIdCheckComesFirst(resp: BootstrapResponse)
    requires !Truthy(FirstEntryAccountId(resp)) && !Truthy(resp.profileId)
    ensures Parse(resp) == Err(MissingDefaultAccountId)
  {
  }

  /**
   * Only entry 0 is consulted: appending entries after it changes nothing,
   * however good the identifiers in them are.
   */
  lemma {:induction false} LaterEntriesIgnored(resp: BootstrapResponse, first: Option<CacheEntry>, later: seq<Option<CacheEntry>>)
    requires resp.cache == Some([first])
    ensures Parse(resp.(cache := Some([first] + later))) == Parse(resp)
  {
    var grown := resp.(cache := Some([first] + later));
    assert grown.cache.value[0] == first;
    assert FirstEntryAccountId(grown) == FirstEntryAccountId(resp);
  }

  /**
   * A usable id in entry 1 does not rescue an entry 0 without one:
   * `cache = [{response: {}}, {response: {defaultAccountId: 67890}}]` fails.
   */
  lemma SecondEntryNotScanned(profileId: int)
    ensures
      var resp := BootstrapResponse(
        Some([Some(CacheEntry(Some(EntryResponse(None)))), Some(CacheEntry(Some(EntryResponse(Some(67890)))))]),
        Some(profileId));
      Parse(resp) == Err(MissingDefaultAccountId)
  {
  }
}
