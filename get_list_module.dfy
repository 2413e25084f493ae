/** The `request-module` `GetListAction`: the lists known to the BotBlock API,
    one list's object, and the fields read from it. Every getter first checks
    its arguments, then asks the request handler for the list (served from its
    list cache when possible) and reads one key of the answer. The handler's
    list cache is carried as a value: each lookup gets it and hands back the
    cache afterwards. */
module GetList {
  import opened Errors
  import opened Numbers
  import opened Json
  import opened Http
  import Sites
  import CheckUtil
  import UserAgents
  import CoreHandler

  /** The `ApiField` constants. */
  datatype ApiField =
    | StringServerCount | StringShardId | StringShardCount | StringShards
    | UrlAll | UrlDocs | UrlGet | UrlPost

  /** `getApiField()`, which is also what `toString()` returns. */
  function ApiKey(field: ApiField): (key: string)
    ensures |key| > 4 && key[..4] == "api_"
  {
    match field
    case StringServerCount => "api_field"
    case StringShardId => "api_shard_id"
    case StringShardCount => "api_shard_count"
    case StringShards => "api_shards"
    case UrlAll => "api_all"
    case UrlDocs => "api_docs"
    case UrlGet => "api_get"
    case UrlPost => "api_post"
  }

  /** The eight constants name eight different keys. */
  lemma ApiKeysDistinct(a: ApiField, b: ApiField)
    ensures ApiKey(a) == ApiKey(b) <==> a == b
  {
  }

  /** The keys of the plain string getters. */
  datatype ListField = BotWidget | Description | Discord | Icon | Id | Language | Name | Owners | Url

  function Key(field: ListField): (key: string)
    ensures |key| > 0
  {
    match field
    case BotWidget => "bot_widget"
    case Description => "description"
    case Discord => "discord"
    case Icon => "icon"
    case Id => "id"
    case Language => "language"
    case Name => "name"
    case Owners => "owners"
    case Url => "url"
  }

  /** The two `== 1` predicates. */
  datatype Flag = Defunct | DiscordOnly

  function FlagKey(flag: Flag): string {
    match flag
    case Defunct => "defunct"
    case DiscordOnly => "discord_only"
  }

  /** Each getter reads its own key: no string getter shares a key with another
      getter, with a flag, with "features" or "added", or with an API field. */
  lemma KeysDistinct(a: ListField, b: ListField, flag: Flag, field: ApiField)
    ensures Key(a) == Key(b) <==> a == b
    ensures Key(a) !in {"features", "added", FlagKey(flag), ApiKey(field)}
    ensures FlagKey(flag) != ApiKey(field)
  {
  }

  /** The site argument of the overloads: a `Site` constant, or a name. */
  datatype SiteArg = Known(site: Sites.Site) | Named(name: string)

  /** The path segment the lookup asks for. */
  function SiteKey(site: SiteArg): string {
    match site
    case Known(s) => Sites.Name(s)
    case Named(name) => name
  }

  /** The argument checks of a getter: the id (under the name `idName`), then,
      for a named site, the name. A `Site` constant needs no check. */
  function Checks(id: string, site: SiteArg, idName: string): (r: Outcome)
    ensures r.Pass? <==> |id| > 0 && (site.Named? ==> |site.name| > 0)
    ensures |id| == 0 ==> r == Fail(NullPointer(idName + " may not be empty."))
    ensures |id| > 0 && site.Named? && |site.name| == 0 ==> r == Fail(NullPointer("site" + " may not be empty."))
  {
    Then(CheckUtil.NotEmpty(id, idName), if site.Named? then CheckUtil.NotEmpty(site.name, "site") else Pass)
  }

  /** An action: whether the cache is bypassed, the handler's User-Agent and
      the handler's list cache. */
  datatype GetListAction = GetListAction(disableCache: bool, userAgent: string, listCache: map<string, Object>)

  /** `new GetListAction(disableCache, userAgent, id)`: an empty agent, then an
      empty id, is refused; every `{id}` in the agent is replaced and the new
      handler's cache is empty. */
  function New(disableCache: bool, userAgent: string, id: string): (r: Result<GetListAction>)
    ensures r.Err? <==> |userAgent| == 0 || |id| == 0
    ensures r.Err? ==> UserAgents.CheckAgentAndId(userAgent, id) == Fail(r.error)
    ensures r.Ok? ==> r.value == GetListAction(disableCache, UserAgents.Templated(userAgent, id), map[])
  {
    var check := UserAgents.CheckAgentAndId(userAgent, id);
    if check.Fail? then Err(check.error)
    else Ok(GetListAction(disableCache, UserAgents.Templated(userAgent, id), map[]))
  }

  /** `new GetListAction(disableCache, id)` and `new GetListAction(id)` (cache
      on): the default agent, which still carries the "API_VERSION" text. */
  function WithDefaultAgent(disableCache: bool, id: string): (r: Result<GetListAction>)
    ensures r.Err? <==> |id| == 0
    ensures r.Err? ==> r.error == NullPointer("ID" + " may not be empty.")
    ensures r.Ok? ==> r.value.disableCache == disableCache && r.value.listCache == map[]
    ensures r.Ok? ==> r.value.userAgent == UserAgents.Templated(UserAgents.DefaultAgent, id)
  {
    New(disableCache, UserAgents.DefaultAgent, id)
  }

  /** A refused call: nothing requested, the cache as it was. */
  function Refused(error: Exception, cache: map<string, Object>): CoreHandler.Fetch {
    CoreHandler.Fetch(None, Err(error), cache)
  }

  /** `getList(id, site)`: after the checks, the handler's unfiltered lookup of
      that site's list, cached under the id alone. */
  function GetList(action: GetListAction, id: string, site: SiteArg, response: Response): (r: CoreHandler.Fetch)
    ensures Checks(id, site, "id").Fail? ==> r == Refused(Checks(id, site, "id").error, action.listCache)
    ensures Checks(id, site, "id").Pass? ==>
      (r.requested.None? <==> !action.disableCache && id in action.listCache)
    ensures Checks(id, site, "id").Pass? && r.requested.None? ==>
      r.result == Ok(Some(action.listCache[id])) && r.cache == action.listCache
    ensures Checks(id, site, "id").Pass? && r.requested.Some? ==>
      r.requested == Some(BaseUrl + "lists/" + SiteKey(site))
      && r.result == CoreHandler.Catch(CoreHandler.Get(response), false)
    ensures r.cache == action.listCache
      || (!action.disableCache && r.result.Ok? && r.result.value.Some? && r.cache == action.listCache[id := r.result.value.value])
  {
    var check := Checks(id, site, "id");
    if check.Fail? then Refused(check.error, action.listCache)
    else
      assert CoreHandler.ListUrl(Some(SiteKey(site)), false) == BaseUrl + "lists/" + SiteKey(site);
      CoreHandler.FetchList(action.listCache, id, Some(SiteKey(site)), action.disableCache, false, response)
  }

  /** `getLists(id)` (unfiltered) and `getFilteredLists(id)` (filtered): every
      list, under the same id-keyed cache. */
  function Lists(action: GetListAction, id: string, filtered: bool, response: Response): (r: CoreHandler.Fetch)
    ensures |id| == 0 ==> r == Refused(NullPointer("id" + " may not be empty."), action.listCache)
    ensures |id| > 0 ==> (r.requested.None? <==> !action.disableCache && id in action.listCache)
    ensures |id| > 0 && r.requested.Some? ==>
      r.requested == Some(BaseUrl + "lists" + (if filtered then "?filter=true" else ""))
      && r.result == CoreHandler.Catch(CoreHandler.Get(response), false)
  {
    var check := CheckUtil.NotEmpty(id, "id");
    if check.Fail? then
      assert check.error == NullPointer("id" + " may not be empty.");
      Refused(check.error, action.listCache)
    else
      assert CoreHandler.ListUrl(None, filtered) == BaseUrl + "lists" + (if filtered then "?filter=true" else "");
      CoreHandler.FetchList(action.listCache, id, None, action.disableCache, filtered, response)
  }

  /** A getter's answer: what was requested, the value read and the cache. */
  datatype Lookup<T> = Lookup(requested: Option<string>, result: Result<T>, cache: map<string, Object>)

  /** `json.getX(key)` on what `getList` returned: a lookup error stays that
      error, and a `null` list throws NullPointerException. */
  function Read<T>(list: Result<Option<Object>>, read: Object -> Result<T>): (r: Result<T>)
    ensures list.Err? ==> r == Err(list.error)
    ensures list == Ok(None) ==> r == Err(NullPointer(""))
    ensures list.Ok? && list.value.Some? ==> r == read(list.value.value)
  {
    if list.Err? then Err(list.error)
    else if list.value.None? then Err(NullPointer(""))
    else read(list.value.value)
  }

  /** A getter: its own checks (the id under `idName`), then `getList` and one
      read of the list object. */
  function Field<T>(action: GetListAction, id: string, site: SiteArg, idName: string, response: Response,
                    read: Object -> Result<T>): (r: Lookup<T>)
    ensures Checks(id, site, idName).Fail? ==> r == Lookup(None, Err(Checks(id, site, idName).error), action.listCache)
    ensures Checks(id, site, idName).Pass? ==>
      var list := GetList(action, id, site, response);
      r == Lookup(list.requested, Read(list.result, read), list.cache)
  {
    var check := Checks(id, site, idName);
    if check.Fail? then Lookup(None, Err(check.error), action.listCache)
    else
      var list := GetList(action, id, site, response);
      Lookup(list.requested, Read(list.result, read), list.cache)
  }

  /** `v == 1` for the integer at `key`. */
  function FlagValue(o: Object, key: string): (r: Result<bool>)
    ensures r.Ok? <==> key in o && o[key].JInt?
    ensures r == Ok(true) <==> key in o && o[key].JInt? && ToInt32(o[key].i) == 1
  {
    var v :- GetInt(o, key);
    Ok(v == 1)
  }

  /** The value at `key` in the list object a lookup returned, if any. */
  function ValueAt(list: Result<Option<Object>>, key: string): (v: Option<Json>)
    ensures v.Some? <==> list.Ok? && list.value.Some? && key in list.value.value
  {
    if list.Ok? && list.value.Some? && key in list.value.value then Some(list.value.value[key]) else None
  }

  /** `getApiField(id, site, field)`: the string at the field's key. */
  function ApiFieldValue(action: GetListAction, id: string, site: SiteArg, field: ApiField, response: Response)
    : (r: Lookup<string>)
    ensures Checks(id, site, "id").Fail? ==> r.result == Err(Checks(id, site, "id").error)
    ensures var list := GetList(action, id, site, response);
      r.requested == list.requested && r.cache == list.cache
      && (r.result.Ok? <==> ValueAt(list.result, ApiKey(field)).Some? && ValueAt(list.result, ApiKey(field)).value.JStr?)
      && (r.result.Ok? ==> ValueAt(list.result, ApiKey(field)) == Some(JStr(r.result.value)))
      && (list.result == Ok(None) ==> r.result == Err(NullPointer("")))
  {
    Field(action, id, site, "id", response, o => GetString(o, ApiKey(field)))
  }

  /** `getBotWidgetUrl`, `getDescription`, `getDiscordInvite`, `getIcon`,
      `getId`, `getLanguage`, `getName`, `getOwners`, `getUrl`: the string at
      the getter's key (owners included: it is read as one string). */
  function Text(action: GetListAction, id: string, site: SiteArg, field: ListField, response: Response)
    : (r: Lookup<string>)
    ensures Checks(id, site, "id").Fail? ==> r.result == Err(Checks(id, site, "id").error)
    ensures var list := GetList(action, id, site, response);
      r.requested == list.requested && r.cache == list.cache
      && (r.result.Ok? <==> ValueAt(list.result, Key(field)).Some? && ValueAt(list.result, Key(field)).value.JStr?)
      && (r.result.Ok? ==> ValueAt(list.result, Key(field)) == Some(JStr(r.result.value)))
      && (list.result == Ok(None) ==> r.result == Err(NullPointer("")))
  {
    Field(action, id, site, "id", response, o => GetString(o, Key(field)))
  }

  /** `getFeatures(id, site)`: the "features" array. */
  function Features(action: GetListAction, id: string, site: SiteArg, response: Response): (r: Lookup<seq<Json>>)
    ensures Checks(id, site, "id").Fail? ==> r.result == Err(Checks(id, site, "id").error)
    ensures var list := GetList(action, id, site, response);
      r.requested == list.requested && r.cache == list.cache
      && (r.result.Ok? <==> ValueAt(list.result, "features").Some? && ValueAt(list.result, "features").value.JArr?)
      && (r.result.Ok? ==> ValueAt(list.result, "features") == Some(JArr(r.result.value)))
  {
    Field(action, id, site, "id", response, o => GetArray(o, "features"))
  }

  /** `getTimeAdded(id, site)`: "added" read with `getInt`, so narrowed to 32 bits. */
  function TimeAdded(action: GetListAction, id: string, site: SiteArg, response: Response): (r: Lookup<int>)
    ensures Checks(id, site, "id").Fail? ==> r.result == Err(Checks(id, site, "id").error)
    ensures var list := GetList(action, id, site, response);
      r.requested == list.requested && r.cache == list.cache
      && (r.result.Ok? <==> ValueAt(list.result, "added").Some? && ValueAt(list.result, "added").value.JInt?)
      && (r.result.Ok? ==> r.result.value == ToInt32(ValueAt(list.result, "added").value.i) && IsInt32(r.result.value))
  {
    Field(action, id, site, "id", response, o => GetInt(o, "added"))
  }

  /** The name under which a flag getter checks the id: `isDiscordOnly` with a
      `Site` constant checks it as "name". */
  function FlagIdName(site: SiteArg, flag: Flag): string {
    if site.Known? && flag == DiscordOnly then "name" else "id"
  }

  /** `isDefunct(id, site)` and `isDiscordOnly(id, site)`: true exactly when
      the flag's value is the integer 1, false for any other integer. */
  function IsSet(action: GetListAction, id: string, site: SiteArg, flag: Flag, response: Response): (r: Lookup<bool>)
    ensures |id| == 0 ==> r == Lookup(None, Err(NullPointer(FlagIdName(site, flag) + " may not be empty.")), action.listCache)
    ensures |id| > 0 ==>
      var list := GetList(action, id, site, response);
      var v := ValueAt(list.result, FlagKey(flag));
      r.requested == list.requested && r.cache == list.cache
      && (r.result.Ok? <==> v.Some? && v.value.JInt?)
      && (r.result == Ok(true) <==> v.Some? && v.value.JInt? && ToInt32(v.value.i) == 1)
  {
    Field(action, id, site, FlagIdName(site, flag), response, o => FlagValue(o, FlagKey(flag)))
  }

  /** `isDiscordOnly` with a `Site` constant and an empty id reports "name",
      where every other getter reports "id". */
  lemma DiscordOnlyNamesTheId(action: GetListAction, site: Sites.Site, name: string, response: Response)
    ensures IsSet(action, "", Known(site), DiscordOnly, response).result == Err(NullPointer("name may not be empty."))
    ensures IsSet(action, "", Known(site), Defunct, response).result == Err(NullPointer("id may not be empty."))
    ensures IsSet(action, "", Named(name), DiscordOnly, response).result == Err(NullPointer("id may not be empty."))
  {
    assert FlagIdName(Known(site), DiscordOnly) + " may not be empty." == "name may not be empty.";
    assert FlagIdName(Known(site), Defunct) + " may not be empty." == "id may not be empty.";
    assert FlagIdName(Named(name), DiscordOnly) + " may not be empty." == "id may not be empty.";
  }

  /** A `Site` constant and its identifier, given as a name, look up the same
      list: the two overloads differ only for an empty name. */
  lemma OverloadsAgree(action: GetListAction, id: string, site: Sites.Site, field: ListField, response: Response)
    ensures GetList(action, id, Known(site), response) == GetList(action, id, Named(Sites.Name(site)), response)
    ensures Text(action, id, Known(site), field, response) == Text(action, id, Named(Sites.Name(site)), field, response)
  {
  }

  /** Once a list is cached under an id, every getter for that id, whatever the
      site, is answered from the cache without a request. */
  lemma CachedListAnswersEverySite(action: GetListAction, id: string, site1: SiteArg, site2: SiteArg,
                                   response1: Response, response2: Response)
    requires !action.disableCache && id in action.listCache
    requires Checks(id, site1, "id").Pass? && Checks(id, site2, "id").Pass?
    ensures GetList(action, id, site1, response1) == GetList(action, id, site2, response2)
    ensures GetList(action, id, site1, response1).requested.None?
    ensures Lists(action, id, true, response1) == GetList(action, id, site2, response2)
  {
  }
}
