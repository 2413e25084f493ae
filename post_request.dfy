/** The `request` module's `PostAction`: posts a bot id and guild count with
    the tokens of a current-module configuration. */
module RequestPostAction {
  import opened Errors
  import opened Numbers
  import opened Payload
  import opened Scheduling
  import UserAgents
  import CoreConfig
  import CheckUtil

  class PostAction {
    /** The User-Agent its request handler sends. */
    const userAgent: string
    /** The request handler's scheduler. */
    const scheduler: Scheduler

    constructor Init(userAgent: string)
      ensures this.userAgent == userAgent
      ensures fresh(scheduler) && scheduler.tasks == [] && !scheduler.shutDown && scheduler.awaited == []
    {
      this.userAgent := userAgent;
      scheduler := new Scheduler();
    }

    /** `new PostAction(userAgent, id)`: an empty agent, then an empty id, is
        refused; the handler's agent has every `{id}` replaced by the id. */
    static method New(userAgent: string, id: string) returns (r: Result<PostAction>)
      ensures r.Err? <==> |userAgent| == 0 || |id| == 0
      ensures r.Err? ==> UserAgents.CheckAgentAndId(userAgent, id) == Fail(r.error)
      ensures r.Ok? ==> fresh(r.value) && r.value.userAgent == UserAgents.Templated(userAgent, id)
      ensures r.Ok? ==> fresh(r.value.scheduler) && r.value.scheduler.tasks == [] && !r.value.scheduler.shutDown
    {
      var check := UserAgents.CheckAgentAndId(userAgent, id);
      if check.Fail? {
        return Err(check.error);
      }
      var action := new PostAction.Init(UserAgents.Templated(userAgent, id));
      return Ok(action);
    }

    /** `new PostAction(id)`: the default template. */
    static method WithDefaultAgent(id: string) returns (r: Result<PostAction>)
      ensures r.Err? <==> |id| == 0
      ensures r.Err? ==> r.error == NullPointer("ID" + " may not be empty.")
      ensures r.Ok? ==> fresh(r.value) && r.value.userAgent == UserAgents.Templated(UserAgents.DefaultAgent, id)
    {
      r := New(UserAgents.DefaultAgent, id);
    }

    /** `disableAutoPost()` and `disableAutoPost(null)`: shut down without waiting. */
    method DisableAutoPost()
      modifies scheduler
      ensures scheduler.shutDown
      ensures scheduler.tasks == old(scheduler.tasks) && scheduler.awaited == old(scheduler.awaited)
    {
      scheduler.Shutdown();
    }

    /** `disableAutoPost(time, unit)`. */
    method DisableAutoPostAfter(time: int) returns (r: Outcome)
      modifies scheduler
      ensures r.Fail? <==> time <= 0
      ensures r.Fail? ==> r.error == IllegalState("time may not be less or equal to 0!") && unchanged(scheduler)
      ensures r.Pass? ==> scheduler.shutDown && scheduler.awaited == old(scheduler.awaited) + [time]
      ensures scheduler.tasks == old(scheduler.tasks)
    {
      r := ShutdownAndWait(scheduler, time, "time may not be less or equal to 0!");
    }

    /** `disableAutoPost(botBlockAPI)`: without a configuration only shut down,
        with one also wait its update delay. */
    method DisableAutoPostFor(api: CoreConfig.BotBlockAPI?) returns (r: Outcome)
      modifies scheduler
      ensures api == null ==> r.Pass? && scheduler.awaited == old(scheduler.awaited)
      ensures api != null ==> (r.Fail? <==> api.updateDelay <= 0)
      ensures api != null && r.Pass? ==> scheduler.awaited == old(scheduler.awaited) + [api.updateDelay]
      ensures r.Pass? ==> scheduler.shutDown
      ensures scheduler.tasks == old(scheduler.tasks)
    {
      if api != null {
        r := DisableAutoPostAfter(api.updateDelay);
        return;
      }
      DisableAutoPost();
      r := Pass;
    }

    /** `enableAutoPost(botId, guilds, botBlockAPI)` (both id types): the first
        post waits a whole update delay, then one follows every update delay. */
    method EnableAutoPost(api: CoreConfig.BotBlockAPI)
      modifies scheduler
      ensures scheduler.tasks == old(scheduler.tasks) + [Schedule(api.updateDelay, api.updateDelay)]
      ensures scheduler.shutDown == old(scheduler.shutDown) && scheduler.awaited == old(scheduler.awaited)
    {
      scheduler.ScheduleAtFixedRate(api.updateDelay, api.updateDelay);
    }

    /** `postGuilds(String botId, int guilds, botBlockAPI)`: an empty id is
        refused before the body is built; the body is the id and count with
        every token after them, and `sites` is the number of tokens. */
    method PostGuilds(botId: string, guilds: int, api: CoreConfig.BotBlockAPI) returns (r: Result<Outgoing>)
      ensures r.Err? <==> |botId| == 0
      ensures r.Err? ==> r.error == NullPointer("botId" + " may not be empty.")
      ensures r.Ok? ==> r.value == Outgoing(CountFields(botId, guilds) + TokenFields(api.tokens.entries), Some(|api.tokens.entries|))
    {
      var check := CheckUtil.NotEmpty(botId, "botId");
      if check.Fail? {
        return Err(check.error);
      }
      var body := CountBody(botId, guilds, api.tokens.entries);
      return Ok(Outgoing(body, Some(|api.tokens.entries|)));
    }

    /** `postGuilds(Long botId, …)`: the String overload on the decimal id,
        which is never empty, so it never fails its check. */
    method PostGuildsById(botId: Long, guilds: int, api: CoreConfig.BotBlockAPI) returns (r: Result<Outgoing>)
      ensures r == Ok(Outgoing(CountFields(IntToString(botId), guilds) + TokenFields(api.tokens.entries), Some(|api.tokens.entries|)))
    {
      r := PostGuilds(IntToString(botId), guilds, api);
    }
  }
}
