/** The rate-limit exceptions: how each one reads the body of a 429 response
    and how it renders itself. */
module RateLimits {
  import opened Errors
  import opened Numbers
  import opened Json

  /** A body field rendered by Java string concatenation: `null` becomes "null". */
  function Text(s: Option<string>): string {
    if s.None? then "null" else s.value
  }

  /** core `RateLimitedException(JSONObject)`: never fails; a missing or
      non-numeric delay becomes -1, a missing or null string stays `null`, and a
      number or boolean in a string field is read as its text. */
  function ParseLenient(json: Object): (r: RateLimitInfo)
    ensures "retry_after" in json && json["retry_after"].JInt? ==> r.delay == ToInt32(json["retry_after"].i)
    ensures !("retry_after" in json && json["retry_after"].JInt?) ==> r.delay == -1
    ensures "ratelimit_bot_id" !in json || json["ratelimit_bot_id"].JNull? ==> r.botId == None
    ensures "ratelimit_bot_id" in json && json["ratelimit_bot_id"].JStr? ==> r.botId == Some(json["ratelimit_bot_id"].s)
    ensures "ratelimit_bot_id" in json && json["ratelimit_bot_id"].JInt? ==> r.botId == Some(IntToString(json["ratelimit_bot_id"].i))
    ensures "ratelimit_bot_id" in json && json["ratelimit_bot_id"].JBool? ==> r.botId == Some(if json["ratelimit_bot_id"].b then "true" else "false")
    ensures "ratelimit_ip" !in json || json["ratelimit_ip"].JNull? ==> r.ip == None
    ensures "ratelimit_ip" in json && json["ratelimit_ip"].JStr? ==> r.ip == Some(json["ratelimit_ip"].s)
    ensures "ratelimit_ip" in json && json["ratelimit_ip"].JInt? ==> r.ip == Some(IntToString(json["ratelimit_ip"].i))
    ensures "ratelimit_ip" in json && json["ratelimit_ip"].JBool? ==> r.ip == Some(if json["ratelimit_ip"].b then "true" else "false")
    ensures "ratelimit_route" !in json || json["ratelimit_route"].JNull? ==> r.route == None
    ensures "ratelimit_route" in json && json["ratelimit_route"].JStr? ==> r.route == Some(json["ratelimit_route"].s)
    ensures "ratelimit_route" in json && json["ratelimit_route"].JInt? ==> r.route == Some(IntToString(json["ratelimit_route"].i))
    ensures "ratelimit_route" in json && json["ratelimit_route"].JBool? ==> r.route == Some(if json["ratelimit_route"].b then "true" else "false")
    ensures IsInt32(r.delay)
  {
    RateLimitInfo(OptInt(json, "retry_after", -1), OptString(json, "ratelimit_bot_id"),
      OptString(json, "ratelimit_ip"), OptString(json, "ratelimit_route"))
  }

  /** The four fields of a 429 body, each with the type the strict reader demands. */
  predicate WellFormed(o: Object) {
    GetInt(o, "retry_after").Ok? && GetString(o, "ratelimit_bot_id").Ok?
      && GetString(o, "ratelimit_ip").Ok? && GetString(o, "ratelimit_route").Ok?
  }

  /** The first of the four fields, in reading order, that is absent or of the wrong type. */
  function FirstMissing(o: Object): string {
    if GetInt(o, "retry_after").Err? then "retry_after"
    else if GetString(o, "ratelimit_bot_id").Err? then "ratelimit_bot_id"
    else if GetString(o, "ratelimit_ip").Err? then "ratelimit_ip"
    else "ratelimit_route"
  }

  /** `RatelimitedException(String)` of the core module and of the second
      generation: the text must parse as an object (`parsed`), and the delay and
      the three strings must all be present with the right types. */
  function ParseStrict(parsed: Option<Object>): (r: Result<RatelimitInfo>)
    ensures r.Ok? <==> (parsed.Some? && WellFormed(parsed.value))
    ensures r.Ok? ==> IsInt32(r.value.delay)
    ensures r.Ok? ==>
      GetInt(parsed.value, "retry_after") == Ok(r.value.delay)
      && GetString(parsed.value, "ratelimit_bot_id") == Ok(r.value.botId)
      && GetString(parsed.value, "ratelimit_ip") == Ok(r.value.ip)
      && GetString(parsed.value, "ratelimit_route") == Ok(r.value.route)
    ensures parsed.None? ==> r == Err(JsonError("response"))
    ensures parsed.Some? && r.Err? ==> r == Err(JsonError(FirstMissing(parsed.value)))
  {
    if parsed.None? then Err(JsonError("response"))
    else
      var o := parsed.value;
      var delay :- GetInt(o, "retry_after");
      var botId :- GetString(o, "ratelimit_bot_id");
      var ip :- GetString(o, "ratelimit_ip");
      var route :- GetString(o, "ratelimit_route");
      Ok(RatelimitInfo(delay, botId, ip, route))
  }

  /** The body the BotBlock API sends with a 429 response. */
  function Encode(info: RatelimitInfo): Object {
    map["retry_after" := JInt(info.delay), "ratelimit_bot_id" := JStr(info.botId),
        "ratelimit_ip" := JStr(info.ip), "ratelimit_route" := JStr(info.route)]
  }

  /** The strict reader recovers every field of a well-formed body. */
  lemma StrictRoundTrip(info: RatelimitInfo)
    requires IsInt32(info.delay)
    ensures ParseStrict(Some(Encode(info))) == Ok(info)
  {
  }

  /** The lenient reader recovers them too, each string as a non-null value. */
  lemma LenientRoundTrip(info: RatelimitInfo)
    requires IsInt32(info.delay)
    ensures ParseLenient(Encode(info)) == RateLimitInfo(info.delay, Some(info.botId), Some(info.ip), Some(info.route))
  {
  }

  /** Wherever the strict reader succeeds, the lenient one reads the same values. */
  lemma StrictAgreesWithLenient(o: Object)
    requires ParseStrict(Some(o)).Ok?
    ensures var s := ParseStrict(Some(o)).value;
      ParseLenient(o) == RateLimitInfo(s.delay, Some(s.botId), Some(s.ip), Some(s.route))
  {
  }

  /** An object without any of the fields: the lenient reader still yields an
      exception (delay -1, all strings null); the strict one throws JSONException. */
  lemma EmptyBody()
    ensures ParseLenient(map[]) == RateLimitInfo(-1, None, None, None)
    ensures ParseStrict(Some(map[])) == Err(JsonError("retry_after"))
  {
  }

  /** core `RateLimitedException.getMessage()`. */
  function LenientMessage(info: RateLimitInfo): string {
    "Got rate limited on route " + Text(info.route) + " with bot id " + Text(info.botId)
      + " (ip: " + Text(info.ip) + "). Retry after: " + IntToString(info.delay)
  }

  /** core `RateLimitedException.toString()`. */
  function LenientToString(info: RateLimitInfo): string {
    "RatelimitedException{" + "delay=" + IntToString(info.delay) + ", " + "botId=" + Text(info.botId) + ", "
      + "ip=" + Text(info.ip) + ", " + "route=" + Text(info.route) + ", " + "}"
  }

  /** core `RatelimitedException.getMessage()`. */
  function StrictMessage(info: RatelimitInfo): string {
    "Got rate limited on route" + info.route + " for " + IntToString(info.delay) + "ms with bot id "
      + info.botId + " (ip: " + info.ip + ")"
  }

  /** core `RatelimitedException.toString()`. */
  function StrictToString(info: RatelimitInfo): string {
    "RatelimitedException{" + "delay=" + IntToString(info.delay) + ", " + "botId=" + info.botId + ", "
      + "ip=" + info.ip + ", " + "route=" + info.route + ", " + "}"
  }

  /** second generation `RatelimitedException.toString()`, which `getMessage()` also returns. */
  function SecondToString(info: RatelimitInfo): string {
    "RatelimitedException{delay=" + IntToString(info.delay) + ", botId=" + info.botId
      + ", ip=" + info.ip + ", route=" + info.route + "}"
  }

  /** The lenient message ends with the delay, so the delay can be read back from it. */
  lemma LenientMessageEndsWithDelay(info: RateLimitInfo)
    ensures var m := LenientMessage(info); var d := IntToString(info.delay);
      |m| >= |d| && m[|m| - |d|..] == d && ParseInt(m[|m| - |d|..]) == info.delay
  {
    var d := IntToString(info.delay);
    var m := LenientMessage(info);
    var front := "Got rate limited on route " + Text(info.route) + " with bot id " + Text(info.botId)
      + " (ip: " + Text(info.ip) + "). Retry after: ";
    assert m == front + d;
    assert m[|m| - |d|..] == d;
    IntToStringRoundTrip(info.delay);
  }

  /** Both core renderings keep a separator before the closing brace, while the
      second generation's ends with the route. */
  lemma ToStringEndings(lenient: RateLimitInfo, strict: RatelimitInfo)
    ensures var s := LenientToString(lenient); |s| >= 3 && s[|s| - 3..] == ", }"
    ensures var s := StrictToString(strict); |s| >= 3 && s[|s| - 3..] == ", }"
    ensures var s := SecondToString(strict); var t := strict.route + "}";
      |s| >= |t| && s[|s| - |t|..] == t
  {
    var s := SecondToString(strict);
    var front := "RatelimitedException{delay=" + IntToString(strict.delay) + ", botId=" + strict.botId
      + ", ip=" + strict.ip + ", route=";
    assert s == front + (strict.route + "}");
  }

  /** The strict core message glues the route onto the word "route"; the lenient
      one separates them. */
  lemma RouteSeparation(lenient: RateLimitInfo, strict: RatelimitInfo)
    ensures var p := "Got rate limited on route" + strict.route;
      StrictMessage(strict)[..|p|] == p
    ensures var p := "Got rate limited on route " + Text(lenient.route);
      LenientMessage(lenient)[..|p|] == p
  {
  }
}
