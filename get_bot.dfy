/** The `request` module's `GetBotAction`: a bot's information from the
    BotBlock API and the fields read from it. */
module GetBot {
  import opened Errors
  import opened Numbers
  import opened Json
  import opened Http
  import Sites
  import CheckUtil
  import UserAgents
  import CoreHandler

  /** The string fields with a getter of their own. */
  datatype BotField = Discriminator | GitHub | Library | Username | Invite | Prefix | Support | Website

  /** The key each getter reads. */
  function Key(field: BotField): (key: string)
    ensures |key| > 0
  {
    match field
    case Discriminator => "discriminator"
    case GitHub => "github"
    case Library => "library"
    case Username => "username"
    case Invite => "invite"
    case Prefix => "prefix"
    case Support => "support"
    case Website => "website"
  }

  /** No two getters read the same key, and none reads a key of the other
      getters. */
  lemma KeysDistinct(a: BotField, b: BotField)
    ensures Key(a) == Key(b) <==> a == b
    ensures Key(a) !in {"server_count", "owners", "list_data"}
  {
  }

  /** A getter's value from what the fetch returned: `null` stays `null`, an
      error stays that error, and an object is read with `read`. */
  function Project<T>(fetched: Result<Option<Object>>, read: Object -> Result<T>): (r: Result<Option<T>>)
    ensures fetched.Err? ==> r == Err(fetched.error)
    ensures fetched == Ok(None) ==> r == Ok(None)
    ensures fetched.Ok? && fetched.value.Some? ==>
      (r.Ok? <==> read(fetched.value.value).Ok?)
      && (r.Ok? ==> r.value == Some(read(fetched.value.value).value))
      && (r.Err? ==> r.error == read(fetched.value.value).error)
  {
    if fetched.Err? then Err(fetched.error)
    else if fetched.value.None? then Ok(None)
    else
      var value :- read(fetched.value.value);
      Ok(Some(value))
  }

  /** The "list_data" object. */
  function ListData(info: Object): Result<Object> {
    GetObject(info, "list_data")
  }

  /** One site's array inside "list_data". */
  function SiteData(info: Object, site: string): (r: Result<seq<Json>>)
    ensures r.Ok? ==> ("list_data" in info && info["list_data"].JObj?
      && site in info["list_data"].fields && info["list_data"].fields[site] == JArr(r.value))
    ensures !("list_data" in info && info["list_data"].JObj?) ==> r == Err(JsonError("list_data"))
    ensures "list_data" in info && info["list_data"].JObj? ==>
      var data := info["list_data"].fields;
      (site in data && data[site].JArr? ==> r == Ok(data[site].items))
      && (!(site in data && data[site].JArr?) ==> r == Err(JsonError(site)))
  {
    var data :- ListData(info);
    GetArray(data, site)
  }

  /** The message of a site without GET support. */
  function NoGet(site: Sites.Site): string {
    Sites.Name(site) + " does not support GET requests!"
  }

  class GetBotAction {
    const disableCache: bool
    /** The request handler, whose bot cache the lookups fill. */
    const handler: CoreHandler.RequestHandler

    constructor Init(disableCache: bool, userAgent: string)
      ensures this.disableCache == disableCache
      ensures fresh(handler) && handler.userAgent == userAgent && handler.botCache == map[] && handler.listCache == map[]
    {
      this.disableCache := disableCache;
      handler := new CoreHandler.RequestHandler(userAgent);
    }

    /** `new GetBotAction(disableCache, userAgent, id)`: an empty agent, then
        an empty id, is refused; every `{id}` in the agent is replaced. */
    static method New(disableCache: bool, userAgent: string, id: string) returns (r: Result<GetBotAction>)
      ensures r.Err? <==> |userAgent| == 0 || |id| == 0
      ensures r.Err? ==> UserAgents.CheckAgentAndId(userAgent, id) == Fail(r.error)
      ensures r.Ok? ==> fresh(r.value) && fresh(r.value.handler) && r.value.disableCache == disableCache
      ensures r.Ok? ==> r.value.handler.userAgent == UserAgents.Templated(userAgent, id) && r.value.handler.botCache == map[]
    {
      var check := UserAgents.CheckAgentAndId(userAgent, id);
      if check.Fail? {
        return Err(check.error);
      }
      var action := new GetBotAction.Init(disableCache, UserAgents.Templated(userAgent, id));
      return Ok(action);
    }

    /** `new GetBotAction(disableCache, id)` and `new GetBotAction(id)` (cache on). */
    static method WithDefaultAgent(disableCache: bool, id: string) returns (r: Result<GetBotAction>)
      ensures r.Err? <==> |id| == 0
      ensures r.Err? ==> r.error == NullPointer("ID" + " may not be empty.")
      ensures r.Ok? ==> fresh(r.value) && r.value.disableCache == disableCache
      ensures r.Ok? ==> r.value.handler.userAgent == UserAgents.Templated(UserAgents.VersionedDefaultAgent, id)
    {
      r := New(disableCache, UserAgents.VersionedDefaultAgent, id);
    }

    /** `getBotInfo(id)`: an empty id is refused before any lookup; otherwise
        the handler's (possibly cached) lookup. */
    method GetBotInfo(id: string, response: Response) returns (r: Result<Option<Object>>)
      modifies handler`botCache
      ensures |id| == 0 ==> r == Err(NullPointer("id" + " may not be empty.")) && handler.botCache == old(handler.botCache)
      ensures |id| > 0 ==>
        var f := CoreHandler.FetchBot(old(handler.botCache), id, disableCache, response);
        r == f.result && handler.botCache == f.cache
    {
      var check := CheckUtil.NotEmpty(id, "id");
      if check.Fail? {
        return Err(check.error);
      }
      var _, fetched := handler.PerformGetBot(id, disableCache, response);
      return fetched;
    }

    /** `getBotInfo(Long id)`: the String overload on the decimal id. */
    method GetBotInfoById(id: Long, response: Response) returns (r: Result<Option<Object>>)
      modifies handler`botCache
      ensures var f := CoreHandler.FetchBot(old(handler.botCache), IntToString(id), disableCache, response);
        r == f.result && handler.botCache == f.cache
    {
      r := GetBotInfo(IntToString(id), response);
    }

    /** `getBotListInfo(id)`: the "list_data" object, `null` if the lookup was. */
    method GetBotListInfo(id: string, response: Response) returns (r: Result<Option<Object>>)
      modifies handler`botCache
      ensures |id| == 0 ==> r == Err(NullPointer("id" + " may not be empty.")) && handler.botCache == old(handler.botCache)
      ensures |id| > 0 ==>
        var f := CoreHandler.FetchBot(old(handler.botCache), id, disableCache, response);
        r == Project(f.result, ListData) && handler.botCache == f.cache
    {
      var info := GetBotInfo(id, response);
      r := Project(info, ListData);
    }

    /** `getBotListInfo(id, Site)`: after the id, a site without GET support
        is refused, still before any lookup. */
    method GetBotListInfoForSite(id: string, site: Sites.Site, response: Response) returns (r: Result<Option<seq<Json>>>)
      modifies handler`botCache
      ensures |id| == 0 ==> r == Err(NullPointer("id" + " may not be empty."))
      ensures |id| > 0 && !Sites.SupportsGet(site) ==> r == Err(IllegalState(NoGet(site)))
      ensures r.Err? && (r.error.NullPointer? || r.error.IllegalState?) ==> handler.botCache == old(handler.botCache)
      ensures |id| > 0 && Sites.SupportsGet(site) ==>
        var f := CoreHandler.FetchBot(old(handler.botCache), id, disableCache, response);
        r == Project(f.result, info => SiteData(info, Sites.Name(site))) && handler.botCache == f.cache
    {
      var check := CheckUtil.NotEmpty(id, "id");
      if check.Fail? {
        return Err(check.error);
      }
      var supported := CheckUtil.Condition(!Sites.SupportsGet(site), NoGet(site));
      if supported.Fail? {
        return Err(supported.error);
      }
      var info := GetBotInfo(id, response);
      r := Project(info, info => SiteData(info, Sites.Name(site)));
    }

    /** `getBotListInfo(Long id, Site)`: the GET check comes first. */
    method GetBotListInfoByIdForSite(id: Long, site: Sites.Site, response: Response) returns (r: Result<Option<seq<Json>>>)
      modifies handler`botCache
      ensures !Sites.SupportsGet(site) ==> r == Err(IllegalState(NoGet(site))) && handler.botCache == old(handler.botCache)
      ensures Sites.SupportsGet(site) ==>
        var f := CoreHandler.FetchBot(old(handler.botCache), IntToString(id), disableCache, response);
        r == Project(f.result, info => SiteData(info, Sites.Name(site))) && handler.botCache == f.cache
    {
      var supported := CheckUtil.Condition(!Sites.SupportsGet(site), NoGet(site));
      if supported.Fail? {
        return Err(supported.error);
      }
      r := GetBotListInfoForSite(IntToString(id), site, response);
    }

    /** `getBotListInfo(id, String site)`: no GET check, but an empty site
        name is refused. */
    method GetBotListInfoForName(id: string, site: string, response: Response) returns (r: Result<Option<seq<Json>>>)
      modifies handler`botCache
      ensures |id| == 0 ==> r == Err(NullPointer("id" + " may not be empty."))
      ensures |id| > 0 && |site| == 0 ==> r == Err(NullPointer("site" + " may not be empty."))
      ensures |id| == 0 || |site| == 0 ==> handler.botCache == old(handler.botCache)
      ensures |id| > 0 && |site| > 0 ==>
        var f := CoreHandler.FetchBot(old(handler.botCache), id, disableCache, response);
        r == Project(f.result, info => SiteData(info, site)) && handler.botCache == f.cache
    {
      var check := Then(CheckUtil.NotEmpty(id, "id"), CheckUtil.NotEmpty(site, "site"));
      if check.Fail? {
        return Err(check.error);
      }
      var info := GetBotInfo(id, response);
      r := Project(info, info => SiteData(info, site));
    }

    /** `getDiscriminator`, `getGitHub`, `getLibrary`, `getName`,
        `getOAuthInvite`, `getPrefix`, `getSupportLink`, `getWebsite`: the
        field's string, `null` if the lookup was. */
    method GetText(id: string, field: BotField, response: Response) returns (r: Result<Option<string>>)
      modifies handler`botCache
      ensures |id| == 0 ==> r == Err(NullPointer("id" + " may not be empty.")) && handler.botCache == old(handler.botCache)
      ensures |id| > 0 ==>
        var f := CoreHandler.FetchBot(old(handler.botCache), id, disableCache, response);
        r == Project(f.result, info => GetString(info, Key(field))) && handler.botCache == f.cache
    {
      var info := GetBotInfo(id, response);
      r := Project(info, info => GetString(info, Key(field)));
    }

    /** `getServerCount(id)`: read with `getInt`, `null` if the lookup was. */
    method GetServerCount(id: string, response: Response) returns (r: Result<Option<int>>)
      modifies handler`botCache
      ensures |id| == 0 ==> r == Err(NullPointer("id" + " may not be empty.")) && handler.botCache == old(handler.botCache)
      ensures |id| > 0 ==>
        var f := CoreHandler.FetchBot(old(handler.botCache), id, disableCache, response);
        r == Project(f.result, info => GetInt(info, "server_count")) && handler.botCache == f.cache
      ensures r.Ok? && r.value.Some? ==> IsInt32(r.value.value)
    {
      var info := GetBotInfo(id, response);
      r := Project(info, info => GetInt(info, "server_count"));
    }

    /** `getOwners(id)`: the "owners" strings in order; an empty list, not
        `null`, if the lookup gave `null`. */
    method GetOwners(id: string, response: Response) returns (r: Result<seq<string>>)
      modifies handler`botCache
      ensures |id| == 0 ==> r == Err(NullPointer("id" + " may not be empty.")) && handler.botCache == old(handler.botCache)
      ensures |id| > 0 ==>
        var f := CoreHandler.FetchBot(old(handler.botCache), id, disableCache, response);
        handler.botCache == f.cache
        && (f.result.Err? ==> r == Err(f.result.error))
        && (f.result == Ok(None) ==> r == Ok([]))
        && (f.result.Ok? && f.result.value.Some? ==>
              var owners := GetArray(f.result.value.value, "owners");
              (owners.Err? ==> r == Err(owners.error)) && (owners.Ok? ==> r == StringItems(owners.value)))
    {
      var info :- GetBotInfo(id, response);
      if info.None? {
        return Ok([]);
      }
      var items :- GetArray(info.value, "owners");
      r := ReadStrings(items);
    }
  }
}
