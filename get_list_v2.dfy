/** The second generation's `GetListAction`
    (`org.botblock.javabotblockapi.requests.GetListAction`): the same getters as
    the `request-module` one, over the second-generation request handler, with
    the API field keys derived from the constant names. Its site enum is not
    part of this model: a `Site` argument is its identifier string. */
module V2GetList {
  import opened Errors
  import opened Numbers
  import opened Json
  import opened Http
  import Strings
  import CheckUtil
  import CoreHandler
  import V2Handler
  import ModuleList = GetList

  /** The `ApiField` constants, in declaration order. */
  datatype ApiField = ApiAll | ApiDocs | ApiGet | ApiPost | ApiFieldName | ApiShardId | ApiShardCount | ApiShards

  /** `name()`. */
  function EnumName(field: ApiField): string {
    match field
    case ApiAll => "API_ALL"
    case ApiDocs => "API_DOCS"
    case ApiGet => "API_GET"
    case ApiPost => "API_POST"
    case ApiFieldName => "API_FIELD"
    case ApiShardId => "API_SHARD_ID"
    case ApiShardCount => "API_SHARD_COUNT"
    case ApiShards => "API_SHARDS"
  }

  /** The key a getter reads: `field.name().toLowerCase()`. */
  function ApiKey(field: ApiField): (key: string)
    ensures |key| == |EnumName(field)|
  {
    Strings.ToLower(EnumName(field))
  }

  /** The `request-module` constant that stands for the same API field. */
  function Counterpart(field: ApiField): ModuleList.ApiField {
    match field
    case ApiAll => ModuleList.UrlAll
    case ApiDocs => ModuleList.UrlDocs
    case ApiGet => ModuleList.UrlGet
    case ApiPost => ModuleList.UrlPost
    case ApiFieldName => ModuleList.StringServerCount
    case ApiShardId => ModuleList.StringShardId
    case ApiShardCount => ModuleList.StringShardCount
    case ApiShards => ModuleList.StringShards
  }

  /** Lower-casing the names gives exactly the keys the `request-module` table
      spells out, constant by constant, and the correspondence is one to one;
      so both generations read the same eight distinct keys. */
  lemma {:induction false} ApiKeysAgree(field: ApiField, other: ApiField)
    ensures ApiKey(field) == ModuleList.ApiKey(Counterpart(field))
    ensures Counterpart(field) == Counterpart(other) <==> field == other
    ensures ApiKey(field) == ApiKey(other) <==> field == other
  {
    LowerMatches(field);
    LowerMatches(other);
    ModuleList.ApiKeysDistinct(Counterpart(field), Counterpart(other));
  }

  /** One constant's name, lower-cased character by character. */
  lemma LowerMatches(field: ApiField)
    ensures ApiKey(field) == ModuleList.ApiKey(Counterpart(field))
  {
    match field
    case ApiAll => LowerApiAll();
    case ApiDocs => LowerApiDocs();
    case ApiGet => LowerApiGet();
    case ApiPost => LowerApiPost();
    case ApiFieldName => LowerApiFieldName();
    case ApiShardId => LowerApiShardId();
    case ApiShardCount => LowerApiShardCount();
    case ApiShards => LowerApiShards();
  }

  // One constant at a time, so that each proof looks at a single name.
  lemma LowerApiAll()
    ensures ApiKey(ApiAll) == ModuleList.ApiKey(Counterpart(ApiAll))
  {
    var key := ApiKey(ApiAll);
    assert key[0] == 'a' && key[1] == 'p' && key[2] == 'i' && key[3] == '_' && key[4] == 'a' &&
      key[5] == 'l' && key[6] == 'l';
    assert key == ['a', 'p', 'i', '_', 'a', 'l', 'l'];
  }

  lemma LowerApiDocs()
    ensures ApiKey(ApiDocs) == ModuleList.ApiKey(Counterpart(ApiDocs))
  {
    var key := ApiKey(ApiDocs);
    assert key[0] == 'a' && key[1] == 'p' && key[2] == 'i' && key[3] == '_' && key[4] == 'd' &&
      key[5] == 'o' && key[6] == 'c' && key[7] == 's';
    assert key == ['a', 'p', 'i', '_', 'd', 'o', 'c', 's'];
  }

  lemma LowerApiGet()
    ensures ApiKey(ApiGet) == ModuleList.ApiKey(Counterpart(ApiGet))
  {
    var key := ApiKey(ApiGet);
    assert key[0] == 'a' && key[1] == 'p' && key[2] == 'i' && key[3] == '_' && key[4] == 'g' &&
      key[5] == 'e' && key[6] == 't';
    assert key == ['a', 'p', 'i', '_', 'g', 'e', 't'];
  }

  lemma LowerApiPost()
    ensures ApiKey(ApiPost) == ModuleList.ApiKey(Counterpart(ApiPost))
  {
    var key := ApiKey(ApiPost);
    assert key[0] == 'a' && key[1] == 'p' && key[2] == 'i' && key[3] == '_' && key[4] == 'p' &&
      key[5] == 'o' && key[6] == 's' && key[7] == 't';
    assert key == ['a', 'p', 'i', '_', 'p', 'o', 's', 't'];
  }

  lemma LowerApiFieldName()
    ensures ApiKey(ApiFieldName) == ModuleList.ApiKey(Counterpart(ApiFieldName))
  {
    var key := ApiKey(ApiFieldName);
    assert key[0] == 'a' && key[1] == 'p' && key[2] == 'i' && key[3] == '_' && key[4] == 'f' &&
      key[5] == 'i' && key[6] == 'e' && key[7] == 'l' && key[8] == 'd';
    assert key == ['a', 'p', 'i', '_', 'f', 'i', 'e', 'l', 'd'];
  }

  lemma LowerApiShardId()
    ensures ApiKey(ApiShardId) == ModuleList.ApiKey(Counterpart(ApiShardId))
  {
    var key := ApiKey(ApiShardId);
    assert key[0] == 'a' && key[1] == 'p' && key[2] == 'i' && key[3] == '_' && key[4] == 's' &&
      key[5] == 'h' && key[6] == 'a' && key[7] == 'r' && key[8] == 'd' && key[9] == '_' &&
      key[10] == 'i' && key[11] == 'd';
    assert key == ['a', 'p', 'i', '_', 's', 'h', 'a', 'r', 'd', '_', 'i', 'd'];
  }

  lemma LowerApiShardCount()
    ensures ApiKey(ApiShardCount) == ModuleList.ApiKey(Counterpart(ApiShardCount))
  {
    var key := ApiKey(ApiShardCount);
    assert key[0] == 'a' && key[1] == 'p' && key[2] == 'i' && key[3] == '_' && key[4] == 's' &&
      key[5] == 'h' && key[6] == 'a' && key[7] == 'r' && key[8] == 'd' && key[9] == '_' &&
      key[10] == 'c' && key[11] == 'o' && key[12] == 'u' && key[13] == 'n' && key[14] == 't';
    assert key == ['a', 'p', 'i', '_', 's', 'h', 'a', 'r', 'd', '_', 'c', 'o', 'u', 'n', 't'];
  }

  lemma LowerApiShards()
    ensures ApiKey(ApiShards) == ModuleList.ApiKey(Counterpart(ApiShards))
  {
    var key := ApiKey(ApiShards);
    assert key[0] == 'a' && key[1] == 'p' && key[2] == 'i' && key[3] == '_' && key[4] == 's' &&
      key[5] == 'h' && key[6] == 'a' && key[7] == 'r' && key[8] == 'd' && key[9] == 's';
    assert key == ['a', 'p', 'i', '_', 's', 'h', 'a', 'r', 'd', 's'];
  }

  /** The site argument: an enum constant, given by its identifier, or a name. */
  datatype SiteArg = Constant(identifier: string) | Named(name: string)

  function SiteKey(site: SiteArg): string {
    match site
    case Constant(identifier) => identifier
    case Named(name) => name
  }

  /** The id check (under `idName`), then the name check of a named site. */
  function Checks(id: string, site: SiteArg, idName: string): (r: Outcome)
    ensures r.Pass? <==> |id| > 0 && (site.Named? ==> |site.name| > 0)
    ensures |id| == 0 ==> r == Fail(NullPointer(idName + " may not be empty."))
    ensures |id| > 0 && site.Named? && |site.name| == 0 ==> r == Fail(NullPointer("site" + " may not be empty."))
  {
    Then(CheckUtil.NotEmpty(id, idName), if site.Named? then CheckUtil.NotEmpty(site.name, "site") else Pass)
  }

  /** An action: whether the cache is bypassed and its handler's list cache.
      `new GetListAction()` is `GetListAction(false, map[])` and
      `new GetListAction(disableCache)` is `GetListAction(disableCache, map[])`. */
  datatype GetListAction = GetListAction(disableCache: bool, listCache: map<string, Object>)

  /** `getList(id, site)`: after the checks, the handler's unfiltered lookup
      of the site's list, cached under the id alone. */
  function GetList(action: GetListAction, id: string, site: SiteArg, response: Response): (r: CoreHandler.Fetch)
    ensures Checks(id, site, "id").Fail? ==> r == CoreHandler.Fetch(None, Err(Checks(id, site, "id").error), action.listCache)
    ensures Checks(id, site, "id").Pass? ==>
      (r.requested.None? <==> !action.disableCache && id in action.listCache)
    ensures Checks(id, site, "id").Pass? && r.requested.None? ==>
      r.result == Ok(Some(action.listCache[id])) && r.cache == action.listCache
    ensures Checks(id, site, "id").Pass? && r.requested.Some? ==>
      r.requested == Some(BaseUrl + "lists/" + SiteKey(site))
      && r.result == V2Handler.Catch(V2Handler.Get(response), false)
    ensures r.cache == action.listCache
      || (!action.disableCache && r.result.Ok? && r.result.value.Some? && r.cache == action.listCache[id := r.result.value.value])
  {
    var check := Checks(id, site, "id");
    if check.Fail? then CoreHandler.Fetch(None, Err(check.error), action.listCache)
    else
      assert V2Handler.ListUrl(Some(SiteKey(site)), false) == BaseUrl + "lists/" + SiteKey(site);
      V2Handler.FetchList(action.listCache, id, Some(SiteKey(site)), action.disableCache, false, response)
  }

  /** `getLists(id)` (unfiltered) and `getFilteredLists(id)` (filtered). */
  function Lists(action: GetListAction, id: string, filtered: bool, response: Response): (r: CoreHandler.Fetch)
    ensures |id| == 0 ==> r == CoreHandler.Fetch(None, Err(NullPointer("id" + " may not be empty.")), action.listCache)
    ensures |id| > 0 ==> (r.requested.None? <==> !action.disableCache && id in action.listCache)
    ensures |id| > 0 && r.requested.Some? ==>
      r.requested == Some(BaseUrl + "lists" + (if filtered then "?filter=true" else ""))
      && r.result == V2Handler.Catch(V2Handler.Get(response), false)
  {
    var check := CheckUtil.NotEmpty(id, "id");
    if check.Fail? then
      assert check.error == NullPointer("id" + " may not be empty.");
      CoreHandler.Fetch(None, Err(check.error), action.listCache)
    else
      assert V2Handler.ListUrl(None, filtered) == BaseUrl + "lists" + (if filtered then "?filter=true" else "");
      V2Handler.FetchList(action.listCache, id, None, action.disableCache, filtered, response)
  }

  /** A getter: its own checks, then `getList` and one read of the list. */
  function Field<T>(action: GetListAction, id: string, site: SiteArg, idName: string, response: Response,
                    read: Object -> Result<T>): (r: ModuleList.Lookup<T>)
    ensures Checks(id, site, idName).Fail? ==> r == ModuleList.Lookup(None, Err(Checks(id, site, idName).error), action.listCache)
    ensures Checks(id, site, idName).Pass? ==>
      var list := GetList(action, id, site, response);
      r == ModuleList.Lookup(list.requested, ModuleList.Read(list.result, read), list.cache)
  {
    var check := Checks(id, site, idName);
    if check.Fail? then ModuleList.Lookup(None, Err(check.error), action.listCache)
    else
      var list := GetList(action, id, site, response);
      ModuleList.Lookup(list.requested, ModuleList.Read(list.result, read), list.cache)
  }

  /** `getApiField(id, site, field)`: the string at the lower-cased name. */
  function ApiFieldValue(action: GetListAction, id: string, site: SiteArg, field: ApiField, response: Response)
    : (r: ModuleList.Lookup<string>)
    ensures Checks(id, site, "id").Fail? ==> r.result == Err(Checks(id, site, "id").error)
    ensures var list := GetList(action, id, site, response); var v := ModuleList.ValueAt(list.result, ApiKey(field));
      r.requested == list.requested && r.cache == list.cache
      && (r.result.Ok? <==> v.Some? && v.value.JStr?)
      && (r.result.Ok? ==> v == Some(JStr(r.result.value)))
      && (list.result == Ok(None) ==> r.result == Err(NullPointer("")))
  {
    Field(action, id, site, "id", response, o => GetString(o, ApiKey(field)))
  }

  /** The string getters, at the same keys as the `request-module` ones. */
  function Text(action: GetListAction, id: string, site: SiteArg, field: ModuleList.ListField, response: Response)
    : (r: ModuleList.Lookup<string>)
    ensures Checks(id, site, "id").Fail? ==> r.result == Err(Checks(id, site, "id").error)
    ensures var list := GetList(action, id, site, response); var v := ModuleList.ValueAt(list.result, ModuleList.Key(field));
      r.requested == list.requested && r.cache == list.cache
      && (r.result.Ok? <==> v.Some? && v.value.JStr?)
      && (r.result.Ok? ==> v == Some(JStr(r.result.value)))
      && (list.result == Ok(None) ==> r.result == Err(NullPointer("")))
  {
    Field(action, id, site, "id", response, o => GetString(o, ModuleList.Key(field)))
  }

  /** `getFeatures(id, site)`: the "features" array. */
  function Features(action: GetListAction, id: string, site: SiteArg, response: Response): (r: ModuleList.Lookup<seq<Json>>)
    ensures Checks(id, site, "id").Fail? ==> r.result == Err(Checks(id, site, "id").error)
    ensures var list := GetList(action, id, site, response); var v := ModuleList.ValueAt(list.result, "features");
      r.requested == list.requested && r.cache == list.cache
      && (r.result.Ok? <==> v.Some? && v.value.JArr?)
      && (r.result.Ok? ==> v == Some(JArr(r.result.value)))
  {
    Field(action, id, site, "id", response, o => GetArray(o, "features"))
  }

  /** `getTimeAdded(id, site)`: "added" read with `getInt`. */
  function TimeAdded(action: GetListAction, id: string, site: SiteArg, response: Response): (r: ModuleList.Lookup<int>)
    ensures Checks(id, site, "id").Fail? ==> r.result == Err(Checks(id, site, "id").error)
    ensures var list := GetList(action, id, site, response); var v := ModuleList.ValueAt(list.result, "added");
      r.requested == list.requested && r.cache == list.cache
      && (r.result.Ok? <==> v.Some? && v.value.JInt?)
      && (r.result.Ok? ==> r.result.value == ToInt32(v.value.i) && IsInt32(r.result.value))
  {
    Field(action, id, site, "id", response, o => GetInt(o, "added"))
  }

  /** `isDiscordOnly` with an enum constant checks the id as "name". */
  function FlagIdName(site: SiteArg, flag: ModuleList.Flag): string {
    if site.Constant? && flag == ModuleList.DiscordOnly then "name" else "id"
  }

  /** `isDefunct(id, site)` and `isDiscordOnly(id, site)`: true exactly when
      the flag's value is the integer 1. */
  function IsSet(action: GetListAction, id: string, site: SiteArg, flag: ModuleList.Flag, response: Response)
    : (r: ModuleList.Lookup<bool>)
    ensures |id| == 0 ==> r.result == Err(NullPointer(FlagIdName(site, flag) + " may not be empty.")) && r.cache == action.listCache
    ensures |id| > 0 ==>
      var list := GetList(action, id, site, response);
      var v := ModuleList.ValueAt(list.result, ModuleList.FlagKey(flag));
      r.requested == list.requested && r.cache == list.cache
      && (r.result.Ok? <==> v.Some? && v.value.JInt?)
      && (r.result == Ok(true) <==> v.Some? && v.value.JInt? && ToInt32(v.value.i) == 1)
  {
    Field(action, id, site, FlagIdName(site, flag), response, o => ModuleList.FlagValue(o, ModuleList.FlagKey(flag)))
  }

  /** Unlike the `request-module` handler, this handler throws on an empty body
      instead of answering `null`: an uncached getter then fails with that
      exception rather than with a NullPointerException of its own. */
  lemma EmptyBodyThrows(action: GetListAction, id: string, site: SiteArg, field: ModuleList.ListField, response: Response)
    requires Checks(id, site, "id").Pass? && !HasContent(response)
    requires action.disableCache || id !in action.listCache
    ensures Text(action, id, site, field, response).result == Err(NullPointer("Received empty response body."))
    ensures GetList(action, id, site, response).cache == action.listCache
  {
    V2Handler.EmptyBodyEscapes(action.listCache, id, action.disableCache, response);
  }
}
