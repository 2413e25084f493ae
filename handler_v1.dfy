/** The first generation's `RequestHandler` (`com.andre601.javabotblockapi`):
    posts built into one shared JSON object, the request it sends, and the
    bot and list lookups. */
module V1Handler {
  import opened Errors
  import opened Numbers
  import opened Json
  import opened Http
  import opened Payload
  import opened Scheduling
  import opened Discord
  import Strings
  import Check
  import V1Config

  /** A request as sent: target, User-Agent header and JSON body. */
  datatype Request = Request(url: string, userAgent: string, body: Object)

  /** The checks every response goes through: a null body, then an empty
      body text, is a NullPointerException; a 429 carries the body text; any
      other failure names `what` with the status code and message. */
  function Classify(response: Response, what: string): (r: Result<Body>)
    ensures r.Ok? <==> HasContent(response) && IsSuccessful(response)
    ensures r.Ok? ==> r.value == response.body.value
    ensures response.body.None? ==> r == Err(NullPointer("Received empty response body from BotBlcok API."))
    ensures response.body.Some? && !HasContent(response) ==> r == Err(NullPointer("Received empty response body from BotBlock API."))
    ensures HasContent(response) && response.code == 429 ==> r == Err(RatelimitedText(response.body.value.text))
    ensures HasContent(response) && !IsSuccessful(response) && response.code != 429 ==>
      r == Err(IO(what + " Site responded with error code " + IntToString(response.code) + " (" + response.message + ")"))
  {
    var present := Check.NotNull(response.body, "Received empty response body from BotBlcok API.");
    if present.Fail? then Err(present.error)
    else
      var body := response.body.value;
      var filled := Check.NotEmpty(Some(body.text), "Received empty response body from BotBlock API.");
      if filled.Fail? then Err(filled.error)
      else if !IsSuccessful(response) then
        if response.code == 429 then Err(RatelimitedText(body.text))
        else Err(IO(what + " Site responded with error code " + IntToString(response.code) + " (" + response.message + ")"))
      else Ok(body)
  }

  /** `getAll(id)`: the bot's information from `bots/<id>`, asked with the id
      as User-Agent. */
  function GetAll(id: string, response: Response): (r: Result<Object>)
    ensures r.Ok? <==> HasContent(response) && IsSuccessful(response) && response.body.value.parsed.Some?
    ensures r.Ok? ==> r.value == response.body.value.parsed.value
    ensures !(HasContent(response) && IsSuccessful(response)) ==>
      r == Err(Classify(response, "Couldn't get Bot information.").error)
  {
    var body :- Classify(response, "Couldn't get Bot information.");
    ParseBody(body)
  }

  /** `getBotlists()`: every list from `lists`. */
  function GetBotlists(response: Response): (r: Result<Object>)
    ensures r.Ok? <==> HasContent(response) && IsSuccessful(response) && response.body.value.parsed.Some?
    ensures r.Ok? ==> r.value == response.body.value.parsed.value
    ensures !(HasContent(response) && IsSuccessful(response)) ==>
      r == Err(Classify(response, "Couldn't get Botlists.").error)
  {
    var body :- Classify(response, "Couldn't get Botlists.");
    ParseBody(body)
  }

  /** `getBotlist(name)`: one list's entry of `getBotlists()`. */
  function GetBotlist(name: string, response: Response): (r: Result<Object>)
    ensures r.Ok? ==> GetBotlists(response).Ok? && name in GetBotlists(response).value
    ensures r.Ok? ==> GetBotlists(response).value[name] == JObj(r.value)
    ensures GetBotlists(response).Err? ==> r == GetBotlists(response)
    ensures GetBotlists(response).Ok? ==>
      var lists := GetBotlists(response).value;
      (r.Ok? <==> name in lists && lists[name].JObj?)
      && (name in lists && lists[name].JObj? ==> r == Ok(lists[name].fields))
      && (r.Err? ==> r.error == JsonError(name))
  {
    var lists :- GetBotlists(response);
    GetObject(lists, name)
  }

  /** `getBotInfos(id)`: the "list_data" object of `getAll(id)`. */
  function GetBotInfos(id: string, response: Response): (r: Result<Object>)
    ensures r.Ok? ==> GetAll(id, response).Ok? && "list_data" in GetAll(id, response).value
    ensures r.Ok? ==> GetAll(id, response).value["list_data"] == JObj(r.value)
    ensures GetAll(id, response).Err? ==> r == GetAll(id, response)
    ensures GetAll(id, response).Ok? ==>
      var all := GetAll(id, response).value;
      (r.Ok? <==> "list_data" in all && all["list_data"].JObj?)
      && ("list_data" in all && all["list_data"].JObj? ==> r == Ok(all["list_data"].fields))
      && (r.Err? ==> r.error == JsonError("list_data"))
  {
    var all :- GetAll(id, response);
    GetObject(all, "list_data")
  }

  /** `getBotInfo(id, site)`: the site's array inside "list_data". */
  function GetBotInfo(id: string, site: string, response: Response): (r: Result<seq<Json>>)
    ensures r.Ok? ==> GetBotInfos(id, response).Ok? && site in GetBotInfos(id, response).value
    ensures r.Ok? ==> GetBotInfos(id, response).value[site] == JArr(r.value)
    ensures GetBotInfos(id, response).Err? ==> r.Err? && r.error == GetBotInfos(id, response).error
    ensures GetBotInfos(id, response).Ok? ==>
      var infos := GetBotInfos(id, response).value;
      (r.Ok? <==> site in infos && infos[site].JArr?)
      && (site in infos && infos[site].JArr? ==> r == Ok(infos[site].items))
      && (r.Err? ==> r.error == JsonError(site))
  {
    var infos :- GetBotInfos(id, response);
    GetArray(infos, site)
  }

  /** `getOwners(id)`: the "owners" array of `getAll(id)`, element by element
      in order. */
  method GetOwners(id: string, response: Response) returns (r: Result<seq<string>>)
    ensures GetAll(id, response).Err? ==> r == Err(GetAll(id, response).error)
    ensures GetAll(id, response).Ok? ==>
      var owners := GetArray(GetAll(id, response).value, "owners");
      (owners.Err? ==> r == Err(owners.error)) && (owners.Ok? ==> r == StringItems(owners.value))
  {
    var all :- GetAll(id, response);
    var items :- GetArray(all, "owners");
    r := ReadStrings(items);
  }

  /** The id a ShardManager overload passes on: shard 0's, which must exist. */
  function ShardZeroId(manager: ShardManager, message: string): (r: Result<string>)
    ensures r.Err? <==> manager.shardZero.None?
    ensures r.Err? ==> r.error == NullPointer(message)
    ensures r.Ok? ==> r.value == manager.shardZero.value.selfId
  {
    if manager.shardZero.None? then Err(NullPointer(message)) else Ok(manager.shardZero.value.selfId)
  }

  /** One entry of a "failure" object: an array of a code and a message, or
      else the whole failure map's text (`failure.toMap().toString()`). */
  function FailureLine(key: string, value: Json, failureText: string): (line: string)
    ensures value.JArr? && |value.items| >= 2 && value.items[0].JInt? && value.items[1].JStr? ==>
      line == "Name: " + key + ", Error code: " + IntToString(ToInt32(value.items[0].i)) + ", Error Message: " + value.items[1].s
    ensures !(value.JArr? && |value.items| >= 2 && value.items[0].JInt? && value.items[1].JStr?) ==>
      line == "Errors: " + failureText
  {
    if !value.JArr? then "Errors: " + failureText
    else match (ArrayGetInt(value.items, 0), ArrayGetString(value.items, 1))
      case (Ok(code), Ok(message)) => "Name: " + key + ", Error code: " + IntToString(code) + ", Error Message: " + message
      case _ => "Errors: " + failureText
  }

  function FailedMessage(lines: seq<string>): string {
    "One or multiple requests failed! Response(s): " + Strings.Join(lines, ", ")
  }

  /** A POST answer before the failure loop: the "failure" object if there is
      one, or the exception thrown. */
  function PostAnswer(response: Response): (r: Result<Option<Object>>)
    ensures !(HasContent(response) && IsSuccessful(response)) ==>
      r == Err(Classify(response, "Couldn't post guild counts to BotBlockAPI!").error)
    ensures r == Ok(None) <==>
      (HasContent(response) && IsSuccessful(response)
       && response.body.value.parsed.Some? && "failure" !in response.body.value.parsed.value)
    ensures r.Ok? && r.value.Some? ==>
      (IsSuccessful(response) && response.body.value.parsed.Some?
       && "failure" in response.body.value.parsed.value
       && response.body.value.parsed.value["failure"] == JObj(r.value.value))
    ensures HasContent(response) && IsSuccessful(response) ==>
      var parsed := response.body.value.parsed;
      (parsed.None? ==> r == Err(JsonError("text")))
      && (parsed.Some? && "failure" in parsed.value && parsed.value["failure"].JObj? ==>
            r == Ok(Some(parsed.value["failure"].fields)))
      && (parsed.Some? && "failure" in parsed.value && !parsed.value["failure"].JObj? ==>
            r == Err(JsonError("failure")))
  {
    var body :- Classify(response, "Couldn't post guild counts to BotBlockAPI!");
    var answer :- ParseBody(body);
    if "failure" !in answer then Ok(None)
    else
      var failure :- GetObject(answer, "failure");
      Ok(Some(failure))
  }

  /** The outcome of a sent POST, given the answer: its exception, success
      when there is no "failure" object, and otherwise an IOException listing
      one line per entry in the order `order` visits them. */
  predicate Answered(response: Response, failureText: string, order: seq<string>, r: Outcome) {
    var answer := PostAnswer(response);
    (answer.Err? ==> r == Fail(answer.error))
    && (answer == Ok(None) ==> r == Pass)
    && (answer.Ok? && answer.value.Some? ==>
          var failure := answer.value.value;
          Enumerates(order, failure)
          && r == Fail(IO(FailedMessage(seq(|order|, i requires 0 <= i < |order| => FailureLine(order[i], failure[order[i]], failureText))))))
  }

  class RequestHandler {
    /** The bot id of the latest post (`null` before the first). */
    var id: Option<string>
    /** The one body every post fills; it is never cleared. */
    var json: Object
    const scheduler: Scheduler

    constructor ()
      ensures id == None && json == map[]
      ensures fresh(scheduler) && scheduler.tasks == [] && !scheduler.shutDown && scheduler.awaited == []
    {
      id := None;
      json := map[];
      scheduler := new Scheduler();
    }

    /** `postRequest()`: an empty id is refused; the body goes to `count` with
        the id as User-Agent; an answer's "failure" object becomes an
        IOException with one line per entry, even when it is empty. */
    method PostRequest(response: Response, failureText: string)
      returns (sent: Option<Request>, order: seq<string>, r: Outcome)
      ensures (id.None? || |id.value| == 0) ==> sent.None? && r == Fail(NullPointer("ID may not be empty."))
      ensures id.Some? && |id.value| > 0 ==> sent == Some(Request(BaseUrl + "count", id.value, json))
      ensures sent.Some? && PostAnswer(response).Err? ==> r == Fail(PostAnswer(response).error)
      ensures sent.Some? && PostAnswer(response) == Ok(None) ==> r == Pass
      ensures sent.Some? && PostAnswer(response).Ok? && PostAnswer(response).value.Some? ==>
        var failure := PostAnswer(response).value.value;
        Enumerates(order, failure)
        && r == Fail(IO(FailedMessage(seq(|order|, i requires 0 <= i < |order| => FailureLine(order[i], failure[order[i]], failureText)))))
    {
      order := [];
      var check := Check.NotEmpty(id, "ID may not be empty.");
      if check.Fail? {
        return None, order, check;
      }
      sent := Some(Request(BaseUrl + "count", id.value, json));
      var answer := PostAnswer(response);
      if answer.Err? {
        return sent, order, Fail(answer.error);
      }
      if answer.value.None? {
        return sent, order, Pass;
      }
      var failure := answer.value.value;
      var lines;
      order, lines := ForEachKey(failure, (key, value) => FailureLine(key, value, failureText));
      assert lines == seq(|order|, i requires 0 <= i < |order| => FailureLine(order[i], failure[order[i]], failureText));
      r := Fail(IO(FailedMessage(lines)));
    }

    /** `postGuilds(shardManager, botBlockAPI)`: shard 0 must exist; its id
        becomes the handler's id and the manager's members and the tokens are
        put into the shared body, over whatever earlier posts left there. */
    method PostShardGuilds(manager: ShardManager, api: V1Config.BotBlockAPI, response: Response, failureText: string)
      returns (sent: Option<Request>, order: seq<string>, r: Outcome)
      modifies this`id, this`json
      ensures manager.shardZero.None? ==>
        r == Fail(NullPointer("Received invalid shard.")) && sent.None? && id == old(id) && json == old(json)
      ensures manager.shardZero.Some? ==>
        id == Some(manager.shardZero.value.selfId)
        && json == old(json) + ShardManagerFields(manager, manager.shardZero.value) + TokenFields(api.authTokens.entries)
      ensures manager.shardZero.Some? && |manager.shardZero.value.selfId| == 0 ==>
        sent.None? && r == Fail(NullPointer("ID may not be empty."))
      ensures manager.shardZero.Some? && |manager.shardZero.value.selfId| > 0 ==>
        sent == Some(Request(BaseUrl + "count", manager.shardZero.value.selfId, json))
        && Answered(response, failureText, order, r)
    {
      order := [];
      if manager.shardZero.None? {
        return None, order, Fail(NullPointer("Received invalid shard."));
      }
      id := Some(manager.shardZero.value.selfId);
      var fields := ShardManagerBody(manager, manager.shardZero.value, api.authTokens.entries);
      MergeInto(json, ShardManagerFields(manager, manager.shardZero.value), TokenFields(api.authTokens.entries));
      json := json + fields;
      sent, order, r := PostRequest(response, failureText);
    }

    /** `postGuilds(jda, botBlockAPI)`. */
    method PostGuilds(jda: Jda, api: V1Config.BotBlockAPI, response: Response, failureText: string)
      returns (sent: Option<Request>, order: seq<string>, r: Outcome)
      modifies this`id, this`json
      ensures id == Some(jda.selfId)
      ensures json == old(json) + JdaFields(jda) + TokenFields(api.authTokens.entries)
      ensures |jda.selfId| == 0 ==> sent.None? && r == Fail(NullPointer("ID may not be empty."))
      ensures |jda.selfId| > 0 ==>
        sent == Some(Request(BaseUrl + "count", jda.selfId, json)) && Answered(response, failureText, order, r)
    {
      id := Some(jda.selfId);
      var fields := JdaBody(jda, api.authTokens.entries);
      MergeInto(json, JdaFields(jda), TokenFields(api.authTokens.entries));
      json := json + fields;
      sent, order, r := PostRequest(response, failureText);
    }

    /** `postGuilds(String botId, int guilds, botBlockAPI)`: an empty id is
        refused before the id or the body change. */
    method PostCountGuilds(botId: string, guilds: int, api: V1Config.BotBlockAPI, response: Response, failureText: string)
      returns (sent: Option<Request>, order: seq<string>, r: Outcome)
      modifies this`id, this`json
      ensures |botId| == 0 ==> r == Fail(NullPointer("ID may not be empty.")) && sent.None? && id == old(id) && json == old(json)
      ensures |botId| > 0 ==> id == Some(botId) && json == old(json) + CountFields(botId, guilds) + TokenFields(api.authTokens.entries)
      ensures |botId| > 0 ==> sent == Some(Request(BaseUrl + "count", botId, json))
      ensures |botId| > 0 ==> Answered(response, failureText, order, r)
    {
      order := [];
      var check := Check.NotEmpty(Some(botId), "ID may not be empty.");
      if check.Fail? {
        return None, order, check;
      }
      id := Some(botId);
      var fields := CountBody(botId, guilds, api.authTokens.entries);
      MergeInto(json, CountFields(botId, guilds), TokenFields(api.authTokens.entries));
      json := json + fields;
      sent, order, r := PostRequest(response, failureText);
    }

    /** `postGuilds(Long botId, …)`: the String overload on the decimal id. */
    method PostCountGuildsById(botId: Long, guilds: int, api: V1Config.BotBlockAPI, response: Response, failureText: string)
      returns (sent: Option<Request>, order: seq<string>, r: Outcome)
      modifies this`id, this`json
      ensures id == Some(IntToString(botId))
      ensures json == old(json) + CountFields(IntToString(botId), guilds) + TokenFields(api.authTokens.entries)
      ensures sent == Some(Request(BaseUrl + "count", IntToString(botId), json))
      ensures Answered(response, failureText, order, r)
    {
      sent, order, r := PostCountGuilds(IntToString(botId), guilds, api, response, failureText);
    }

    /** Every `startAutoPosting` overload: the first post waits a whole update
        interval, then one follows every update interval. */
    method StartAutoPosting(api: V1Config.BotBlockAPI)
      modifies scheduler
      ensures scheduler.tasks == old(scheduler.tasks) + [Schedule(api.updateInterval, api.updateInterval)]
      ensures scheduler.shutDown == old(scheduler.shutDown) && scheduler.awaited == old(scheduler.awaited)
    {
      scheduler.ScheduleAtFixedRate(api.updateInterval, api.updateInterval);
    }

    /** `stopAutoPosting()`. */
    method StopAutoPosting()
      modifies scheduler
      ensures scheduler.shutDown
      ensures scheduler.tasks == old(scheduler.tasks) && scheduler.awaited == old(scheduler.awaited)
    {
      scheduler.Shutdown();
    }
  }

  /** A ShardManager post followed by a post by id on the same handler: the
      second body still carries the first one's per-shard counts. */
  method ShardsOutliveTheirPost(manager: ShardManager, botId: string, guilds: int, api: V1Config.BotBlockAPI,
                                response: Response, failureText: string)
    returns (second: Option<Request>)
    requires manager.shardZero.Some? && |botId| > 0
    requires "shards" !in api.authTokens.entries
    ensures second.Some?
    ensures "shards" in second.value.body && second.value.body["shards"] == JArr(GuildCounts(manager.shards))
    ensures "bot_id" in second.value.body
    ensures "bot_id" !in api.authTokens.entries ==> second.value.body["bot_id"] == JStr(botId)
  {
    var handler := new RequestHandler();
    var _, _, _ := handler.PostShardGuilds(manager, api, response, failureText);
    assert handler.json["shards"] == JArr(GuildCounts(manager.shards));
    var order, outcome;
    second, order, outcome := handler.PostCountGuilds(botId, guilds, api, response, failureText);
  }
}
