/** The `jda` module's `PostAction`: posts the counts a JDA shard or a
    ShardManager reports. */
module JdaPostAction {
  import opened Errors
  import opened Payload
  import opened Scheduling
  import opened Discord
  import UserAgents
  import CoreConfig
  import CheckUtil

  /** The User-Agent for a bot: `<name>-<discriminator>/<version> (JDA) DBots/<id>`. */
  function Agent(jda: Jda): string {
    UserAgents.BotAgent(jda.name, jda.discriminator, UserAgents.Version, "JDA", jda.selfId)
  }

  class PostAction {
    /** The User-Agent its request handler sends. */
    const userAgent: string
    /** The request handler's scheduler. */
    const scheduler: Scheduler

    /** `new PostAction(jda)`. */
    constructor (jda: Jda)
      ensures userAgent == Agent(jda)
      ensures fresh(scheduler) && scheduler.tasks == [] && !scheduler.shutDown && scheduler.awaited == []
    {
      userAgent := Agent(jda);
      scheduler := new Scheduler();
    }

    /** `new PostAction(shardManager)`: shard 0 must exist (`requireNonNull`,
        no message) and names the bot. */
    static method ForShardManager(manager: ShardManager) returns (r: Result<PostAction>)
      ensures r.Err? <==> manager.shardZero.None?
      ensures r.Err? ==> r.error == NullPointer("")
      ensures r.Ok? ==> fresh(r.value) && r.value.userAgent == Agent(manager.shardZero.value)
    {
      if manager.shardZero.None? {
        return Err(NullPointer(""));
      }
      var action := new PostAction(manager.shardZero.value);
      return Ok(action);
    }

    /** `disableAutoPost()` and `disableAutoPost(null)`. */
    method DisableAutoPost()
      modifies scheduler
      ensures scheduler.shutDown
      ensures scheduler.tasks == old(scheduler.tasks) && scheduler.awaited == old(scheduler.awaited)
    {
      scheduler.Shutdown();
    }

    /** `disableAutoPost(time, unit)`. */
    method DisableAutoPostAfter(time: int) returns (r: Outcome)
      modifies scheduler
      ensures r.Fail? <==> time <= 0
      ensures r.Fail? ==> r.error == IllegalState("Time may not be less or equal to 0") && unchanged(scheduler)
      ensures r.Pass? ==> scheduler.shutDown && scheduler.awaited == old(scheduler.awaited) + [time]
      ensures scheduler.tasks == old(scheduler.tasks)
    {
      r := ShutdownAndWait(scheduler, time, "Time may not be less or equal to 0");
    }

    /** `disableAutoPost(botBlockAPI)`. */
    method DisableAutoPostFor(api: CoreConfig.BotBlockAPI?) returns (r: Outcome)
      modifies scheduler
      ensures api == null ==> r.Pass? && scheduler.awaited == old(scheduler.awaited)
      ensures api != null ==> (r.Fail? <==> api.updateDelay <= 0)
      ensures api != null && r.Pass? ==> scheduler.awaited == old(scheduler.awaited) + [api.updateDelay]
      ensures r.Pass? ==> scheduler.shutDown
      ensures scheduler.tasks == old(scheduler.tasks)
    {
      if api != null {
        r := DisableAutoPostAfter(api.updateDelay);
        return;
      }
      DisableAutoPost();
      r := Pass;
    }

    /** `enableAutoPost(jda, botBlockAPI)`: the first post after one minute. */
    method EnableAutoPost(api: CoreConfig.BotBlockAPI)
      modifies scheduler
      ensures scheduler.tasks == old(scheduler.tasks) + [Schedule(1, api.updateDelay)]
      ensures scheduler.shutDown == old(scheduler.shutDown) && scheduler.awaited == old(scheduler.awaited)
    {
      scheduler.ScheduleAtFixedRate(1, api.updateDelay);
    }

    /** `enableAutoPost(shardManager, botBlockAPI)`: the first post after a
        whole update delay. */
    method EnableAutoPostForShards(api: CoreConfig.BotBlockAPI)
      modifies scheduler
      ensures scheduler.tasks == old(scheduler.tasks) + [Schedule(api.updateDelay, api.updateDelay)]
      ensures scheduler.shutDown == old(scheduler.shutDown) && scheduler.awaited == old(scheduler.awaited)
    {
      scheduler.ScheduleAtFixedRate(api.updateDelay, api.updateDelay);
    }

    /** `postGuilds(jda, botBlockAPI)`: guild count and bot id, the shard
        members for a sharded bot, then the tokens; `sites` is the token count. */
    method PostGuilds(jda: Jda, api: CoreConfig.BotBlockAPI) returns (r: Outgoing)
      ensures r == Outgoing(JdaFields(jda) + TokenFields(api.tokens.entries), Some(|api.tokens.entries|))
    {
      var body := JdaBody(jda, api.tokens.entries);
      r := Outgoing(body, Some(|api.tokens.entries|));
    }

    /** `postGuilds(shardManager, botBlockAPI)`: a missing shard 0 is refused
        before anything is built. */
    method PostShardGuilds(manager: ShardManager, api: CoreConfig.BotBlockAPI) returns (r: Result<Outgoing>)
      ensures r.Err? <==> manager.shardZero.None?
      ensures r.Err? ==> r.error == IllegalState("Shard 0 of ShardManager was invalid (null).")
      ensures r.Ok? ==> r.value == Outgoing(ShardManagerFields(manager, manager.shardZero.value) + TokenFields(api.tokens.entries), Some(|api.tokens.entries|))
    {
      var check := CheckUtil.Condition(manager.shardZero.None?, "Shard 0 of ShardManager was invalid (null).");
      if check.Fail? {
        return Err(check.error);
      }
      var body := ShardManagerBody(manager, manager.shardZero.value, api.tokens.entries);
      return Ok(Outgoing(body, Some(|api.tokens.entries|)));
    }
  }
}
