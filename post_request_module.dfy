/** The `request-module` `PostAction`, the predecessor of the `request`
    module's: it owns its scheduler, only shuts it down without waiting, and
    does not check the bot id it posts. */
module RequestModulePostAction {
  import opened Errors
  import opened Numbers
  import opened Payload
  import opened Scheduling
  import UserAgents
  import CoreConfig

  class PostAction {
    /** The User-Agent its request handler sends. */
    const userAgent: string
    /** Its own scheduler. */
    const scheduler: Scheduler

    constructor Init(userAgent: string)
      ensures this.userAgent == userAgent
      ensures fresh(scheduler) && scheduler.tasks == [] && !scheduler.shutDown && scheduler.awaited == []
    {
      this.userAgent := userAgent;
      scheduler := new Scheduler();
    }

    /** `new PostAction(userAgent, id)`: an empty agent, then an empty id, is
        refused; every `{id}` in the agent is replaced by the id. */
    static method New(userAgent: string, id: string) returns (r: Result<PostAction>)
      ensures r.Err? <==> |userAgent| == 0 || |id| == 0
      ensures r.Err? ==> UserAgents.CheckAgentAndId(userAgent, id) == Fail(r.error)
      ensures r.Ok? ==> fresh(r.value) && r.value.userAgent == UserAgents.Templated(userAgent, id)
    {
      var check := UserAgents.CheckAgentAndId(userAgent, id);
      if check.Fail? {
        return Err(check.error);
      }
      var action := new PostAction.Init(UserAgents.Templated(userAgent, id));
      return Ok(action);
    }

    /** `new PostAction(id)`: the default template. */
    static method WithDefaultAgent(id: string) returns (r: Result<PostAction>)
      ensures r.Err? <==> |id| == 0
      ensures r.Err? ==> r.error == NullPointer("ID" + " may not be empty.")
      ensures r.Ok? ==> fresh(r.value) && r.value.userAgent == UserAgents.Templated(UserAgents.DefaultAgent, id)
    {
      r := New(UserAgents.DefaultAgent, id);
    }

    /** `disableAutoPost()`. */
    method DisableAutoPost()
      modifies scheduler
      ensures scheduler.shutDown
      ensures scheduler.tasks == old(scheduler.tasks) && scheduler.awaited == old(scheduler.awaited)
    {
      scheduler.Shutdown();
    }

    /** `enableAutoPost(botId, guilds, botBlockAPI)` (both id types). */
    method EnableAutoPost(api: CoreConfig.BotBlockAPI)
      modifies scheduler
      ensures scheduler.tasks == old(scheduler.tasks) + [Schedule(api.updateDelay, api.updateDelay)]
      ensures scheduler.shutDown == old(scheduler.shutDown) && scheduler.awaited == old(scheduler.awaited)
    {
      scheduler.ScheduleAtFixedRate(api.updateDelay, api.updateDelay);
    }

    /** `postGuilds(String botId, Integer guilds, botBlockAPI)`: no check of
        the id; an empty one is posted as it is. */
    method PostGuilds(botId: string, guilds: int, api: CoreConfig.BotBlockAPI) returns (r: Outgoing)
      ensures r.body.Keys == {"server_count", "bot_id"} + api.tokens.entries.Keys
      ensures r.body == CountFields(botId, guilds) + TokenFields(api.tokens.entries)
      ensures r.sites == Some(|api.tokens.entries|)
    {
      var body := CountBody(botId, guilds, api.tokens.entries);
      r := Outgoing(body, Some(|api.tokens.entries|));
    }

    /** `postGuilds(Long botId, …)`: the String overload on the decimal id. */
    method PostGuildsById(botId: Long, guilds: int, api: CoreConfig.BotBlockAPI) returns (r: Outgoing)
      ensures r.body == CountFields(IntToString(botId), guilds) + TokenFields(api.tokens.entries)
      ensures r.sites == Some(|api.tokens.entries|)
    {
      r := PostGuilds(IntToString(botId), guilds, api);
    }
  }
}
