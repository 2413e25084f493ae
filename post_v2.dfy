/** The second generation's `PostAction` (`org.botblock.javabotblockapi.requests`):
    JDA, ShardManager and id-based posts with a second-generation configuration. */
module V2PostAction {
  import opened Errors
  import opened Numbers
  import opened Payload
  import opened Scheduling
  import opened Discord
  import V2Config

  class PostAction {
    /** Its own scheduler. */
    const scheduler: Scheduler

    /** `new PostAction()`. */
    constructor ()
      ensures fresh(scheduler) && scheduler.tasks == [] && !scheduler.shutDown && scheduler.awaited == []
    {
      scheduler := new Scheduler();
    }

    /** `disableAutoPost()`. */
    method DisableAutoPost()
      modifies scheduler
      ensures scheduler.shutDown
      ensures scheduler.tasks == old(scheduler.tasks) && scheduler.awaited == old(scheduler.awaited)
    {
      scheduler.Shutdown();
    }

    /** Every `enableAutoPost` overload: the first post waits a whole update
        delay, then one follows every update delay. */
    method EnableAutoPost(api: V2Config.BotBlockAPI)
      modifies scheduler
      ensures scheduler.tasks == old(scheduler.tasks) + [Schedule(api.updateDelay, api.updateDelay)]
      ensures scheduler.shutDown == old(scheduler.shutDown) && scheduler.awaited == old(scheduler.awaited)
    {
      scheduler.ScheduleAtFixedRate(api.updateDelay, api.updateDelay);
    }

    /** `postGuilds(jda, botBlockAPI)`. */
    method PostGuilds(jda: Jda, api: V2Config.BotBlockAPI) returns (r: Outgoing)
      ensures r == Outgoing(JdaFields(jda) + TokenFields(api.tokens.entries), Some(|api.tokens.entries|))
    {
      var body := JdaBody(jda, api.tokens.entries);
      r := Outgoing(body, Some(|api.tokens.entries|));
    }

    /** `postGuilds(shardManager, botBlockAPI)`: a missing shard 0 is a
        NullPointerException raised before anything is built. */
    method PostShardGuilds(manager: ShardManager, api: V2Config.BotBlockAPI) returns (r: Result<Outgoing>)
      ensures r.Err? <==> manager.shardZero.None?
      ensures r.Err? ==> r.error == NullPointer("Received shard was null!")
      ensures r.Ok? ==> r.value == Outgoing(ShardManagerFields(manager, manager.shardZero.value) + TokenFields(api.tokens.entries), Some(|api.tokens.entries|))
    {
      if manager.shardZero.None? {
        return Err(NullPointer("Received shard was null!"));
      }
      var body := ShardManagerBody(manager, manager.shardZero.value, api.tokens.entries);
      return Ok(Outgoing(body, Some(|api.tokens.entries|)));
    }

    /** `postGuilds(String botId, Integer guilds, botBlockAPI)`: no check of the id. */
    method PostCountGuilds(botId: string, guilds: int, api: V2Config.BotBlockAPI) returns (r: Outgoing)
      ensures r.body == CountFields(botId, guilds) + TokenFields(api.tokens.entries)
      ensures r.sites == Some(|api.tokens.entries|)
    {
      var body := CountBody(botId, guilds, api.tokens.entries);
      r := Outgoing(body, Some(|api.tokens.entries|));
    }

    /** `postGuilds(Long botId, …)`: the String overload on the decimal id. */
    method PostCountGuildsById(botId: Long, guilds: int, api: V2Config.BotBlockAPI) returns (r: Outgoing)
      ensures r.body == CountFields(IntToString(botId), guilds) + TokenFields(api.tokens.entries)
      ensures r.sites == Some(|api.tokens.entries|)
    {
      r := PostCountGuilds(IntToString(botId), guilds, api);
    }
  }
}
