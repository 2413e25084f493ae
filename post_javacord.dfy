/** The `javacord` module's `PostAction`: posts the counts of one or more
    Javacord `DiscordApi` instances, one per shard. */
module JavacordPostAction {
  import opened Errors
  import opened Numbers
  import opened Json
  import opened Payload
  import opened Scheduling
  import opened Discord
  import UserAgents
  import CoreConfig
  import CheckUtil

  /** The User-Agent for a bot: `<name>-<discriminator>/<version> (Javacord) DBots/<id>`. */
  function Agent(api: DiscordApi): string {
    UserAgents.BotAgent(api.name, api.discriminator, UserAgents.Version, "Javacord", IntToString(api.selfId))
  }

  const NoApis: string := "At least one DiscordApi instance needs to be provided!"

  class PostAction {
    /** The User-Agent its request handler sends. */
    const userAgent: string
    /** The request handler's scheduler. */
    const scheduler: Scheduler

    /** `new PostAction(api)`. */
    constructor (api: DiscordApi)
      ensures userAgent == Agent(api)
      ensures fresh(scheduler) && scheduler.tasks == [] && !scheduler.shutDown && scheduler.awaited == []
    {
      userAgent := Agent(api);
      scheduler := new Scheduler();
    }

    /** `disableAutoPost()` and `disableAutoPost(null)`. */
    method DisableAutoPost()
      modifies scheduler
      ensures scheduler.shutDown
      ensures scheduler.tasks == old(scheduler.tasks) && scheduler.awaited == old(scheduler.awaited)
    {
      scheduler.Shutdown();
    }

    /** `disableAutoPost(time, unit)`. */
    method DisableAutoPostAfter(time: int) returns (r: Outcome)
      modifies scheduler
      ensures r.Fail? <==> time <= 0
      ensures r.Fail? ==> r.error == IllegalState("time may not be less or equal to 0!") && unchanged(scheduler)
      ensures r.Pass? ==> scheduler.shutDown && scheduler.awaited == old(scheduler.awaited) + [time]
      ensures scheduler.tasks == old(scheduler.tasks)
    {
      r := ShutdownAndWait(scheduler, time, "time may not be less or equal to 0!");
    }

    /** `disableAutoPost(botBlockAPI)`. */
    method DisableAutoPostFor(api: CoreConfig.BotBlockAPI?) returns (r: Outcome)
      modifies scheduler
      ensures api == null ==> r.Pass? && scheduler.awaited == old(scheduler.awaited)
      ensures api != null ==> (r.Fail? <==> api.updateDelay <= 0)
      ensures api != null && r.Pass? ==> scheduler.awaited == old(scheduler.awaited) + [api.updateDelay]
      ensures r.Pass? ==> scheduler.shutDown
      ensures scheduler.tasks == old(scheduler.tasks)
    {
      if api != null {
        r := DisableAutoPostAfter(api.updateDelay);
        return;
      }
      DisableAutoPost();
      r := Pass;
    }

    /** `enableAutoPost(botBlockAPI, apis...)`: at least one api is required;
        the first post follows after one minute. */
    method EnableAutoPost(api: CoreConfig.BotBlockAPI, apis: seq<DiscordApi>) returns (r: Outcome)
      modifies scheduler
      ensures r.Fail? <==> |apis| == 0
      ensures r.Fail? ==> r.error == IllegalState(NoApis) && unchanged(scheduler)
      ensures r.Pass? ==> scheduler.tasks == old(scheduler.tasks) + [Schedule(1, api.updateDelay)]
      ensures scheduler.shutDown == old(scheduler.shutDown) && scheduler.awaited == old(scheduler.awaited)
    {
      r := CheckUtil.Condition(|apis| <= 0, NoApis);
      if r.Pass? {
        scheduler.ScheduleAtFixedRate(1, api.updateDelay);
      }
    }

    /** `postGuilds(botBlockAPI, apis...)`: at least one api is required; the
        members of `JavacordFields`, then the tokens; `sites` is the token count. */
    method PostGuilds(api: CoreConfig.BotBlockAPI, apis: seq<DiscordApi>) returns (r: Result<Outgoing>)
      ensures r.Err? <==> |apis| == 0
      ensures r.Err? ==> r.error == IllegalState(NoApis)
      ensures r.Ok? ==> r.value == Outgoing(JavacordFields(apis) + TokenFields(api.tokens.entries), Some(|api.tokens.entries|))
    {
      var check := CheckUtil.Condition(|apis| <= 0, NoApis);
      if check.Fail? {
        return Err(check.error);
      }
      var json: Object := map["bot_id" := JInt(apis[0].selfId)];
      if |apis| > 1 {
        var guilds := WrappedSum(ServerCounts(apis));
        json := json["server_count" := JInt(guilds)]["shard_count" := JInt(|apis|)];
        var shards := CollectServerCounts(apis);
        json := json["shards" := JArr(shards)];
      } else {
        json := json["server_count" := JInt(apis[0].servers)];
      }
      var body := PutTokens(json, api.tokens.entries);
      return Ok(Outgoing(body, Some(|api.tokens.entries|)));
    }
  }
}
