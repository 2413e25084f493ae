/** The request handler of the current `request` module: URLs, the two
    id-keyed caches, the classification of GET and POST responses, and the
    failure entries a POST logs. */
module CoreHandler {
  import opened Errors
  import opened Numbers
  import opened Json
  import opened Http
  import RateLimits

  /** The bot endpoint. */
  function BotUrl(id: string): (url: string)
    ensures |url| == |BaseUrl| + 5 + |id|
    ensures url[..|BaseUrl|] == BaseUrl && url[|BaseUrl|..] == "bots/" + id
  {
    BaseUrl + "bots/" + id
  }

  /** The list endpoint: all lists or one site, optionally filtered. */
  function ListUrl(site: Option<string>, filtered: bool): (url: string)
  {
    BaseUrl + "lists" + (if site.None? then "" else "/" + site.value) + (if filtered then "?filter=true" else "")
  }

  /** Different bot ids are fetched from different URLs. */
  lemma BotUrlInjective(a: string, b: string)
    ensures BotUrl(a) == BotUrl(b) ==> a == b
  {
    if BotUrl(a) == BotUrl(b) {
      assert a == BotUrl(a)[|BaseUrl| + 5..];
    }
  }

  /** The list URL names the site exactly when one is given, and carries the
      filter query exactly when filtering is asked for. */
  lemma ListUrlShape(site: Option<string>, filtered: bool)
    ensures var url := ListUrl(site, filtered); var stem := BaseUrl + "lists";
      url[..|stem|] == stem
      && (site.None? && !filtered ==> url == stem)
      && (site.None? && filtered ==> url == stem + "?filter=true")
      && (site.Some? ==> url[|stem|..|stem| + 1 + |site.value|] == "/" + site.value)
      && (filtered ==> url[|url| - 12..] == "?filter=true")
  {
  }

  /** `performGET`: a missing or empty body gives `null`, 429 the lenient
      rate-limit exception, another failure status an IOException, and a success
      the parsed object. */
  function Get(response: Response): (r: Result<Option<Object>>)
    ensures !HasContent(response) ==> r == Ok(None)
    ensures HasContent(response) && IsSuccessful(response) ==>
      r == (if response.body.value.parsed.Some? then Ok(Some(response.body.value.parsed.value)) else Err(JsonError("text")))
    ensures HasContent(response) && !IsSuccessful(response) && response.code != 429 ==>
      r == Err(IO("Could not retrieve information. The API responded with error code " + IntToString(response.code)
        + " (" + response.message + ")."))
    ensures HasContent(response) && response.code == 429 ==>
      r == (if response.body.value.parsed.Some? then Err(RateLimited(RateLimits.ParseLenient(response.body.value.parsed.value)))
            else Err(JsonError("text")))
    ensures r.Err? && r.error.RateLimited? ==> response.code == 429
    ensures r.Err? && r.error.IO? ==> !IsSuccessful(response) && response.code != 429
  {
    if !HasContent(response) then Ok(None)
    else if !IsSuccessful(response) then
      if response.code == 429 then
        var errorJson :- ParseBody(response.body.value);
        Err(RateLimited(RateLimits.ParseLenient(errorJson)))
      else
        Err(IO("Could not retrieve information. The API responded with error code " + IntToString(response.code)
          + " (" + response.message + ")."))
    else
      var json :- ParseBody(response.body.value);
      Ok(Some(json))
  }

  /** The exceptions a fetch turns into `null`: IOException always, the
      rate-limit exception only inside the bot cache's loader. */
  function Catch(r: Result<Option<Object>>, catchRateLimit: bool): (c: Result<Option<Object>>)
    ensures r.Ok? ==> c == r
    ensures r.Err? && (r.error.IO? || (catchRateLimit && r.error.RateLimited?)) ==> c == Ok(None)
    ensures r.Err? && !r.error.IO? && !(catchRateLimit && r.error.RateLimited?) ==> c == r
  {
    if r.Err? && (r.error.IO? || (catchRateLimit && r.error.RateLimited?)) then Ok(None) else r
  }

  /** One cached fetch: the URL requested (None when answered from the cache),
      the value returned and the cache afterwards. */
  datatype Fetch = Fetch(requested: Option<string>, result: Result<Option<Object>>, cache: map<string, Object>)

  /** `cache.get(id, loader)` with caching on, or the bare loader with caching
      off. A cached value is returned without a request; a loader result is
      stored only when it is a non-null object. */
  function Cached(cache: map<string, Object>, id: string, disableCache: bool, url: string,
                  loaded: Result<Option<Object>>): (f: Fetch)
    ensures disableCache ==> f == Fetch(Some(url), loaded, cache)
    ensures !disableCache && id in cache ==> f == Fetch(None, Ok(Some(cache[id])), cache)
    ensures !disableCache && id !in cache ==> f.requested == Some(url) && f.result == loaded
    ensures f.result.Ok? && f.result.value.Some? && !disableCache ==> id in f.cache && f.cache[id] == f.result.value.value
    ensures f.cache == cache || (f.result.Ok? && f.result.value.Some? && f.cache == cache[id := f.result.value.value])
  {
    if disableCache then Fetch(Some(url), loaded, cache)
    else if id in cache then Fetch(None, Ok(Some(cache[id])), cache)
    else if loaded.Ok? && loaded.value.Some? then Fetch(Some(url), loaded, cache[id := loaded.value.value])
    else Fetch(Some(url), loaded, cache)
  }

  /** `performGetBot(id, disableCache)` against the bot cache. */
  function FetchBot(cache: map<string, Object>, id: string, disableCache: bool, response: Response): Fetch {
    Cached(cache, id, disableCache, BotUrl(id), Catch(Get(response), !disableCache))
  }

  /** `performGetList(id, site, disableCache, filtered)` against the list cache. */
  function FetchList(cache: map<string, Object>, id: string, site: Option<string>, disableCache: bool,
                     filtered: bool, response: Response): Fetch {
    Cached(cache, id, disableCache, ListUrl(site, filtered), Catch(Get(response), false))
  }

  /** A 429 answer to a bot lookup is swallowed into `null` when the cache is on,
      and thrown when it is off. */
  lemma RateLimitSwallowedOnlyWithCache(cache: map<string, Object>, id: string, response: Response)
    requires id !in cache && HasContent(response) && response.code == 429
    requires response.body.value.parsed.Some?
    ensures FetchBot(cache, id, false, response).result == Ok(None)
    ensures FetchBot(cache, id, true, response).result ==
      Err(RateLimited(RateLimits.ParseLenient(response.body.value.parsed.value)))
  {
  }

  /** The list cache is keyed by the id alone: once an id is cached, any site
      and filter return the cached value and nothing is requested. */
  lemma ListCacheKeyedById(cache: map<string, Object>, id: string, site1: Option<string>, site2: Option<string>,
                           filtered1: bool, filtered2: bool, response1: Response, response2: Response)
    requires id in cache
    ensures FetchList(cache, id, site1, false, filtered1, response1) == FetchList(cache, id, site2, false, filtered2, response2)
    ensures FetchList(cache, id, site1, false, filtered1, response1).requested.None?
  {
  }

  /** An error status other than 429 is an IOException, which every lookup
      catches: unless the id is already cached, the lookup yields `null` and the
      cache stays as it was. */
  lemma IOFailureIsNull(cache: map<string, Object>, id: string, site: Option<string>, disableCache: bool,
                        filtered: bool, response: Response)
    requires HasContent(response) && !IsSuccessful(response) && response.code != 429
    requires disableCache || id !in cache
    ensures Get(response).Err? && Get(response).error.IO?
    ensures FetchBot(cache, id, disableCache, response).result == Ok(None)
    ensures FetchBot(cache, id, disableCache, response).cache == cache
    ensures FetchList(cache, id, site, disableCache, filtered, response).result == Ok(None)
    ensures FetchList(cache, id, site, disableCache, filtered, response).cache == cache
  {
  }

  /** A lookup with caching off neither reads nor fills the cache. */
  lemma DisabledCacheUntouched(cache: map<string, Object>, id: string, response: Response)
    ensures FetchBot(cache, id, true, response).cache == cache
    ensures FetchBot(cache, id, true, response).result == Catch(Get(response), false)
  {
  }

  /** `getJson(key, array)`: the failure entry logged for one site; the fallback
      entry is used when the value is not an array or has fewer than two elements. */
  function FailureEntry(key: string, value: Json): (e: Json)
    ensures value.JArr? && |value.items| >= 2 ==>
      e == JObj(map[key := JObj(map["code" := value.items[0], "message" := value.items[1]])])
    ensures !(value.JArr? && |value.items| >= 2) ==>
      e == JObj(map[key := JObj(map["code" := JStr("?"), "message" := JStr("?")])])
    ensures e.JObj? && e.fields.Keys == {key}
  {
    var fields :=
      if value.JArr? && |value.items| >= 2 then map["code" := value.items[0], "message" := value.items[1]]
      else map["code" := JStr("?"), "message" := JStr("?")];
    JObj(map[key := JObj(fields)])
  }

  /** What a POST answer amounts to before the failure loop: the "failure"
      object to log (empty when nothing is logged), or the exception thrown. */
  function PostAnswer(response: Response): (r: Result<Object>)
    ensures !HasContent(response) ==> r == Ok(map[])
    ensures HasContent(response) && !IsSuccessful(response) && response.code != 429 ==>
      r == Err(IO("Could not post Guild count. The API responded with error code " + IntToString(response.code)
        + " (" + response.message + ")"))
    ensures HasContent(response) && response.code == 429 ==>
      r == (if response.body.value.parsed.Some? then Err(RateLimited(RateLimits.ParseLenient(response.body.value.parsed.value)))
            else Err(JsonError("text")))
    ensures r.Err? && r.error.RateLimited? ==> response.code == 429
    ensures HasContent(response) && IsSuccessful(response) ==>
      var parsed := response.body.value.parsed;
      (r.Ok? <==> parsed.Some? && "failure" in parsed.value && parsed.value["failure"].JObj?)
      && (r.Ok? ==> parsed.value["failure"] == JObj(r.value))
      && (parsed.None? ==> r == Err(JsonError("text")))
      && (parsed.Some? && r.Err? ==> r == Err(JsonError("failure")))
  {
    if !HasContent(response) then Ok(map[])
    else if !IsSuccessful(response) then
      if response.code == 429 then
        var errorJson :- ParseBody(response.body.value);
        Err(RateLimited(RateLimits.ParseLenient(errorJson)))
      else
        Err(IO("Could not post Guild count. The API responded with error code " + IntToString(response.code)
          + " (" + response.message + ")"))
    else
      var responseJson :- ParseBody(response.body.value);
      GetObject(responseJson, "failure")
  }

  class RequestHandler {
    const userAgent: string
    var botCache: map<string, Object>
    var listCache: map<string, Object>

    constructor (userAgent: string)
      ensures this.userAgent == userAgent && botCache == map[] && listCache == map[]
    {
      this.userAgent := userAgent;
      botCache := map[];
      listCache := map[];
    }

    /** `performGetBot(id, disableCache)`; `response` is what the API answers if asked. */
    method PerformGetBot(id: string, disableCache: bool, response: Response)
      returns (requested: Option<string>, r: Result<Option<Object>>)
      modifies this`botCache
      ensures Fetch(requested, r, botCache) == FetchBot(old(botCache), id, disableCache, response)
    {
      var loaded := Catch(Get(response), !disableCache);
      if !disableCache && id in botCache {
        return None, Ok(Some(botCache[id]));
      }
      requested, r := Some(BotUrl(id)), loaded;
      if !disableCache && r.Ok? && r.value.Some? {
        botCache := botCache[id := r.value.value];
      }
    }

    /** `performGetList(id, site, disableCache, filtered)`. */
    method PerformGetList(id: string, site: Option<string>, disableCache: bool, filtered: bool, response: Response)
      returns (requested: Option<string>, r: Result<Option<Object>>)
      modifies this`listCache
      ensures Fetch(requested, r, listCache) == FetchList(old(listCache), id, site, disableCache, filtered, response)
    {
      var loaded := Catch(Get(response), false);
      if !disableCache && id in listCache {
        return None, Ok(Some(listCache[id]));
      }
      requested, r := Some(ListUrl(site, filtered)), loaded;
      if !disableCache && r.Ok? && r.value.Some? {
        listCache := listCache[id := r.value.value];
      }
    }

    /** `performGetList(id, disableCache, filtered)`: no site. */
    method PerformGetListAll(id: string, disableCache: bool, filtered: bool, response: Response)
      returns (requested: Option<string>, r: Result<Option<Object>>)
      modifies this`listCache
      ensures Fetch(requested, r, listCache) == FetchList(old(listCache), id, None, disableCache, filtered, response)
    {
      requested, r := PerformGetList(id, None, disableCache, filtered, response);
    }

    /** `performGetList(id, site, disableCache)`: unfiltered. */
    method PerformGetListForSite(id: string, site: Option<string>, disableCache: bool, response: Response)
      returns (requested: Option<string>, r: Result<Option<Object>>)
      modifies this`listCache
      ensures Fetch(requested, r, listCache) == FetchList(old(listCache), id, site, disableCache, false, response)
    {
      requested, r := PerformGetList(id, site, disableCache, false, response);
    }

    /** `performPOST(json, sites)`: at least one site is required; the call,
        read and write timeouts are `sites * 10` seconds (a `long` product);
        failures reported by the API are only logged, one entry per key. */
    method PerformPost(json: Object, sites: int, response: Response)
      returns (sent: Option<PostCall>, r: Result<seq<Json>>)
      requires IsInt32(sites)
      ensures sites < 1 ==> sent.None? && r == Err(IllegalState("The POST action requires at least 1 site!"))
      ensures sites >= 1 ==> sent == Some(PostCall(BaseUrl + "count", json, sites * 10))
      ensures sites >= 1 && PostAnswer(response).Err? ==> r == Err(PostAnswer(response).error)
      ensures sites >= 1 && PostAnswer(response).Ok? ==>
        var failure := PostAnswer(response).value;
        r.Ok? && |r.value| == |failure|
        && (forall k :: k in failure ==> FailureEntry(k, failure[k]) in r.value)
        && (forall e :: e in r.value ==> exists k :: k in failure && e == FailureEntry(k, failure[k]))
      ensures r.Ok? ==> sites >= 1 && (|r.value| == 0 <==> |PostAnswer(response).value| == 0)
    {
      if sites < 1 {
        return None, Err(IllegalState("The POST action requires at least 1 site!"));
      }
      sent := Some(PostCall(BaseUrl + "count", json, sites * 10));
      var answer := PostAnswer(response);
      if answer.Err? {
        return sent, Err(answer.error);
      }
      var failure := answer.value;
      if |failure| == 0 {
        return sent, Ok([]);
      }
      var order, entries := ForEachKey(failure, FailureEntry);
      forall k | k in failure ensures FailureEntry(k, failure[k]) in entries {
        var i :| 0 <= i < |order| && order[i] == k;
        assert entries[i] == FailureEntry(k, failure[k]);
      }
      forall e | e in entries ensures exists k :: k in failure && e == FailureEntry(k, failure[k]) {
        var i :| 0 <= i < |entries| && entries[i] == e;
        assert order[i] in failure;
      }
      return sent, Ok(entries);
    }
  }

}
