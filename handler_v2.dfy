/** The request handler of the second generation
    (`org.botblock.javabotblockapi.requests.RequestHandler`): no user agent,
    a NullPointerException for an empty body, the strict rate-limit exception,
    and a POST that throws when the API reports failures. */
module V2Handler {
  import opened Errors
  import opened Numbers
  import opened Json
  import opened Http
  import Strings
  import RateLimits
  import CoreHandler

  /** The bot endpoint (the same as the current handler's). */
  function BotUrl(id: string): (url: string)
    ensures url == CoreHandler.BotUrl(id)
  {
    BaseUrl + "bots/" + id
  }

  /** The list endpoint, written as "lists" or "lists/" + site. */
  function ListUrl(site: Option<string>, filtered: bool): (url: string)
    ensures url == CoreHandler.ListUrl(site, filtered)
  {
    var url := BaseUrl + (if site.None? then "lists" else "lists/" + site.value);
    if filtered then url + "?filter=true" else url
  }

  /** The rate-limit exception built from a 429 body; a body the strict
      reader refuses throws JSONException instead. */
  function RateLimit(body: Body): (r: Exception)
    ensures r.Ratelimited? || r.JsonError?
    ensures RateLimits.ParseStrict(body.parsed).Ok? ==> r == Ratelimited(RateLimits.ParseStrict(body.parsed).value)
    ensures RateLimits.ParseStrict(body.parsed).Err? ==> r == RateLimits.ParseStrict(body.parsed).error
  {
    match RateLimits.ParseStrict(body.parsed)
    case Ok(info) => Ratelimited(info)
    case Err(e) => e
  }

  /** `performGET`: a missing or empty body throws NullPointerException, 429 the
      strict rate-limit exception, another failure status an IOException;
      success gives the parsed object (never `null`). */
  function Get(response: Response): (r: Result<Object>)
    ensures !HasContent(response) ==> r == Err(NullPointer("Received empty response body."))
    ensures HasContent(response) && IsSuccessful(response) ==> r == ParseBody(response.body.value)
    ensures HasContent(response) && !IsSuccessful(response) && response.code != 429 ==>
      r == Err(IO("Could not retrieve information. The server responded with error code " + IntToString(response.code)
        + " (" + response.message + ")."))
    ensures HasContent(response) && response.code == 429 ==> r == Err(RateLimit(response.body.value))
    ensures r.Err? && r.error.Ratelimited? ==> response.code == 429
    ensures r.Err? && r.error.IO? ==> !IsSuccessful(response) && response.code != 429
  {
    if !HasContent(response) then Err(NullPointer("Received empty response body."))
    else if !IsSuccessful(response) then
      if response.code == 429 then Err(RateLimit(response.body.value))
      else Err(IO("Could not retrieve information. The server responded with error code " + IntToString(response.code)
        + " (" + response.message + ")."))
    else ParseBody(response.body.value)
  }

  /** IOException always becomes `null`; the rate-limit exception only inside the
      bot cache's loader. A NullPointerException for an empty body escapes. */
  function Catch(r: Result<Object>, catchRateLimit: bool): (c: Result<Option<Object>>)
    ensures r.Ok? ==> c == Ok(Some(r.value))
    ensures r.Err? && (r.error.IO? || (catchRateLimit && r.error.Ratelimited?)) ==> c == Ok(None)
    ensures r.Err? && !r.error.IO? && !(catchRateLimit && r.error.Ratelimited?) ==> c == Err(r.error)
  {
    if r.Ok? then Ok(Some(r.value))
    else if r.error.IO? || (catchRateLimit && r.error.Ratelimited?) then Ok(None)
    else Err(r.error)
  }

  function FetchBot(cache: map<string, Object>, id: string, disableCache: bool, response: Response): CoreHandler.Fetch {
    CoreHandler.Cached(cache, id, disableCache, BotUrl(id), Catch(Get(response), !disableCache))
  }

  function FetchList(cache: map<string, Object>, id: string, site: Option<string>, disableCache: bool,
                     filtered: bool, response: Response): CoreHandler.Fetch {
    CoreHandler.Cached(cache, id, disableCache, ListUrl(site, filtered), Catch(Get(response), false))
  }

  /** An empty body is not swallowed by any cache setting: the lookup throws. */
  lemma EmptyBodyEscapes(cache: map<string, Object>, id: string, disableCache: bool, response: Response)
    requires !HasContent(response) && (disableCache || id !in cache)
    ensures FetchBot(cache, id, disableCache, response).result == Err(NullPointer("Received empty response body."))
  {
  }

  /** An error status other than 429 is an IOException, which every lookup
      catches: unless the id is already cached, the lookup yields `null` and the
      cache stays as it was. */
  lemma IOFailureIsNull(cache: map<string, Object>, id: string, site: Option<string>, disableCache: bool,
                        filtered: bool, response: Response)
    requires HasContent(response) && !IsSuccessful(response) && response.code != 429
    requires disableCache || id !in cache
    ensures Get(response).Err? && Get(response).error.IO?
    ensures FetchBot(cache, id, disableCache, response).result == Ok(None)
    ensures FetchBot(cache, id, disableCache, response).cache == cache
    ensures FetchList(cache, id, site, disableCache, filtered, response).result == Ok(None)
    ensures FetchList(cache, id, site, disableCache, filtered, response).cache == cache
  {
  }

  /** A well-formed 429 answer becomes `null` with the cache on, and is thrown with it off. */
  lemma RateLimitSwallowedOnlyWithCache(cache: map<string, Object>, id: string, response: Response, info: RatelimitInfo)
    requires id !in cache && HasContent(response) && response.code == 429
    requires RateLimits.ParseStrict(response.body.value.parsed) == Ok(info)
    ensures FetchBot(cache, id, false, response).result == Ok(None)
    ensures FetchBot(cache, id, true, response).result == Err(Ratelimited(info))
  {
  }

  /** `final long timeout = sites * 10;` multiplies two `int`s, so the product wraps
      before it is widened. */
  function Timeout(sites: int): (t: int)
    requires IsInt32(sites)
    ensures IsInt32(t)
    ensures IsInt32(sites * 10) ==> t == sites * 10
  {
    ToInt32(sites * 10)
  }

  /** With more than 214748364 sites the timeout turns negative. */
  lemma TimeoutOverflow()
    ensures Timeout(214748365) == -2147483646
  {
  }

  /** One failed site in the thrown message: "key{code=C, message=M}", or
      "unknown{}" when the value is not an array of an int and a string. */
  function FailureLine(key: string, value: Json): (line: string)
    ensures !(value.JArr? && |value.items| >= 2 && value.items[0].JInt? && value.items[1].JStr?) ==>
      line == "unknown{}"
    ensures value.JArr? && |value.items| >= 2 && value.items[0].JInt? && value.items[1].JStr? ==>
      line == key + "{code=" + IntToString(ToInt32(value.items[0].i)) + ", message=" + value.items[1].s + "}"
  {
    if !value.JArr? then "unknown{}"
    else match (ArrayGetInt(value.items, 0), ArrayGetString(value.items, 1))
      case (Ok(code), Ok(message)) => key + "{code=" + IntToString(code) + ", message=" + message + "}"
      case _ => "unknown{}"
  }

  function FailedMessage(lines: seq<string>): string {
    "One or multiple post requests failed! Response(s): failed{[" + Strings.Join(lines, ", ") + "]}"
  }

  /** What a POST answer amounts to before the failure loop: the "failure" object
      if the answer has one, or the exception thrown. */
  function PostAnswer(response: Response): (r: Result<Option<Object>>)
    ensures !HasContent(response) ==> r == Err(NullPointer("Received empty response body."))
    ensures HasContent(response) && !IsSuccessful(response) && response.code != 429 ==>
      r == Err(IO("Could not post Guild count. The server responded with error code " + IntToString(response.code)
        + " (" + response.message + ")"))
    ensures HasContent(response) && response.code == 429 ==> r == Err(RateLimit(response.body.value))
    ensures HasContent(response) && IsSuccessful(response) ==>
      var parsed := response.body.value.parsed;
      (parsed.None? ==> r == Err(JsonError("text")))
      && (parsed.Some? && "failure" in parsed.value && parsed.value["failure"].JObj? ==>
            r == Ok(Some(parsed.value["failure"].fields)))
      && (parsed.Some? && "failure" in parsed.value && !parsed.value["failure"].JObj? ==>
            r == Err(JsonError("failure")))
    ensures r == Ok(None) <==>
      (HasContent(response) && IsSuccessful(response)
       && response.body.value.parsed.Some? && "failure" !in response.body.value.parsed.value)
    ensures r.Ok? && r.value.Some? ==>
      (IsSuccessful(response) && response.body.value.parsed.Some?
       && "failure" in response.body.value.parsed.value
       && response.body.value.parsed.value["failure"] == JObj(r.value.value))
  {
    if !HasContent(response) then Err(NullPointer("Received empty response body."))
    else if !IsSuccessful(response) then
      if response.code == 429 then Err(RateLimit(response.body.value))
      else Err(IO("Could not post Guild count. The server responded with error code " + IntToString(response.code)
        + " (" + response.message + ")"))
    else
      var responseJson :- ParseBody(response.body.value);
      if "failure" !in responseJson then Ok(None)
      else
        var failure :- GetObject(responseJson, "failure");
        Ok(Some(failure))
  }

  /** `performPOST(json, sites)`: `order` is the order in which the failure keys
      were visited. Any "failure" object, even an empty one, ends in an IOException. */
  method PerformPost(json: Object, sites: int, response: Response)
    returns (sent: Option<PostCall>, order: seq<string>, r: Outcome)
    requires IsInt32(sites)
    ensures sites < 1 ==> sent.None? && r == Fail(IllegalState("POST action requires at least one site!"))
    ensures sites >= 1 ==> sent == Some(PostCall(BaseUrl + "count", json, Timeout(sites)))
    ensures sites >= 1 && PostAnswer(response).Err? ==> r == Fail(PostAnswer(response).error)
    ensures sites >= 1 && PostAnswer(response) == Ok(None) ==> r == Pass
    ensures sites >= 1 && PostAnswer(response).Ok? && PostAnswer(response).value.Some? ==>
      var failure := PostAnswer(response).value.value;
      Enumerates(order, failure)
      && r == Fail(IO(FailedMessage(seq(|order|, i requires 0 <= i < |order| => FailureLine(order[i], failure[order[i]])))))
  {
    order := [];
    if sites < 1 {
      return None, order, Fail(IllegalState("POST action requires at least one site!"));
    }
    sent := Some(PostCall(BaseUrl + "count", json, Timeout(sites)));
    var answer := PostAnswer(response);
    if answer.Err? {
      return sent, order, Fail(answer.error);
    }
    if answer.value.None? {
      return sent, order, Pass;
    }
    var failure := answer.value.value;
    var lines;
    order, lines := ForEachKey(failure, FailureLine);
    assert lines == seq(|order|, i requires 0 <= i < |order| => FailureLine(order[i], failure[order[i]]));
    r := Fail(IO(FailedMessage(lines)));
  }

  class RequestHandler {
    var botCache: map<string, Object>
    var listCache: map<string, Object>

    constructor ()
      ensures botCache == map[] && listCache == map[]
    {
      botCache := map[];
      listCache := map[];
    }

    /** `performGetBot(id, disableCache)`. */
    method PerformGetBot(id: string, disableCache: bool, response: Response)
      returns (requested: Option<string>, r: Result<Option<Object>>)
      modifies this`botCache
      ensures CoreHandler.Fetch(requested, r, botCache) == FetchBot(old(botCache), id, disableCache, response)
    {
      var loaded := Catch(Get(response), !disableCache);
      if !disableCache && id in botCache {
        return None, Ok(Some(botCache[id]));
      }
      requested, r := Some(BotUrl(id)), loaded;
      if !disableCache && r.Ok? && r.value.Some? {
        botCache := botCache[id := r.value.value];
      }
    }

    /** `performGetList(id, site, disableCache, filtered)`. */
    method PerformGetList(id: string, site: Option<string>, disableCache: bool, filtered: bool, response: Response)
      returns (requested: Option<string>, r: Result<Option<Object>>)
      modifies this`listCache
      ensures CoreHandler.Fetch(requested, r, listCache) == FetchList(old(listCache), id, site, disableCache, filtered, response)
    {
      var loaded := Catch(Get(response), false);
      if !disableCache && id in listCache {
        return None, Ok(Some(listCache[id]));
      }
      requested, r := Some(ListUrl(site, filtered)), loaded;
      if !disableCache && r.Ok? && r.value.Some? {
        listCache := listCache[id := r.value.value];
      }
    }

    /** `performGetList(id, disableCache, filtered)`: no site. */
    method PerformGetListAll(id: string, disableCache: bool, filtered: bool, response: Response)
      returns (requested: Option<string>, r: Result<Option<Object>>)
      modifies this`listCache
      ensures CoreHandler.Fetch(requested, r, listCache) == FetchList(old(listCache), id, None, disableCache, filtered, response)
    {
      requested, r := PerformGetList(id, None, disableCache, filtered, response);
    }

    /** `performGetList(id, site, disableCache)`: unfiltered. */
    method PerformGetListForSite(id: string, site: Option<string>, disableCache: bool, response: Response)
      returns (requested: Option<string>, r: Result<Option<Object>>)
      modifies this`listCache
      ensures CoreHandler.Fetch(requested, r, listCache) == FetchList(old(listCache), id, site, disableCache, false, response)
    {
      requested, r := PerformGetList(id, site, disableCache, false, response);
    }
  }
}
