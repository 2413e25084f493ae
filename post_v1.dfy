/** The first generation's `PostAction` (`com.andre601.javabotblockapi.requests`).
    Its request handler's `performPOST(json)` takes no site count and is not
    part of this model; each post yields the body it is given. */
module V1PostAction {
  import opened Errors
  import opened Numbers
  import opened Payload
  import opened Discord
  import V1Config

  class PostAction {
    /** Stored by the constructor and read nowhere. */
    const disableCache: bool

    /** `new PostAction()` and `new PostAction(disableCache)`. */
    constructor (disableCache: bool)
      ensures this.disableCache == disableCache
    {
      this.disableCache := disableCache;
    }

    /** `postGuilds(jda, botBlockAPI)`. */
    method PostGuilds(jda: Jda, api: V1Config.BotBlockAPI) returns (r: Outgoing)
      ensures r == Outgoing(JdaFields(jda) + TokenFields(api.authTokens.entries), None)
    {
      var body := JdaBody(jda, api.authTokens.entries);
      r := Outgoing(body, None);
    }

    /** `postGuilds(shardManager, botBlockAPI)`: a missing shard 0 is a
        NullPointerException raised before anything is built. */
    method PostShardGuilds(manager: ShardManager, api: V1Config.BotBlockAPI) returns (r: Result<Outgoing>)
      ensures r.Err? <==> manager.shardZero.None?
      ensures r.Err? ==> r.error == NullPointer("Received shard was null!")
      ensures r.Ok? ==> r.value == Outgoing(ShardManagerFields(manager, manager.shardZero.value) + TokenFields(api.authTokens.entries), None)
    {
      if manager.shardZero.None? {
        return Err(NullPointer("Received shard was null!"));
      }
      var body := ShardManagerBody(manager, manager.shardZero.value, api.authTokens.entries);
      return Ok(Outgoing(body, None));
    }

    /** `postGuilds(String botId, int guilds, botBlockAPI)`: no check of the id. */
    method PostCountGuilds(botId: string, guilds: int, api: V1Config.BotBlockAPI) returns (r: Outgoing)
      ensures r.body == CountFields(botId, guilds) + TokenFields(api.authTokens.entries)
      ensures r.sites.None?
    {
      var body := CountBody(botId, guilds, api.authTokens.entries);
      r := Outgoing(body, None);
    }

    /** `postGuilds(Long botId, …)`: the String overload on the decimal id. */
    method PostCountGuildsById(botId: Long, guilds: int, api: V1Config.BotBlockAPI) returns (r: Outgoing)
      ensures r.body == CountFields(IntToString(botId), guilds) + TokenFields(api.authTokens.entries)
      ensures r.sites.None?
    {
      r := PostCountGuilds(IntToString(botId), guilds, api);
    }
  }
}
