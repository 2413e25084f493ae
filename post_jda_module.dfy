/** The `jda-module` `PostAction`, the predecessor of the `jda` module's:
    its User-Agent carries the placeholder text `API_VERSION`, it owns its
    scheduler, and a missing shard 0 is reported with its own message. */
module JdaModulePostAction {
  import opened Errors
  import opened Payload
  import opened Scheduling
  import opened Discord
  import UserAgents
  import CoreConfig
  import CheckUtil

  /** `<name>-<discriminator>/API_VERSION (JDA) DBots/<id>`: no version number. */
  function Agent(jda: Jda): (ua: string)
    ensures var head := jda.name + "-" + jda.discriminator + "/API_VERSION";
      |ua| >= |head| && ua[..|head|] == head
    ensures var tail := " (JDA) DBots/" + jda.selfId;
      |ua| >= |tail| && ua[|ua| - |tail|..] == tail
    ensures |ua| == |jda.name| + |jda.discriminator| + |jda.selfId| + 26
  {
    UserAgents.BotAgent(jda.name, jda.discriminator, "API_VERSION", "JDA", jda.selfId)
  }

  class PostAction {
    /** The User-Agent its request handler sends. */
    const userAgent: string
    /** Its own scheduler. */
    const scheduler: Scheduler

    /** `new PostAction(jda)`. */
    constructor (jda: Jda)
      ensures userAgent == Agent(jda)
      ensures fresh(scheduler) && scheduler.tasks == [] && !scheduler.shutDown && scheduler.awaited == []
    {
      userAgent := Agent(jda);
      scheduler := new Scheduler();
    }

    /** `new PostAction(shardManager)`: shard 0 must exist (`requireNonNull`). */
    static method ForShardManager(manager: ShardManager) returns (r: Result<PostAction>)
      ensures r.Err? <==> manager.shardZero.None?
      ensures r.Err? ==> r.error == NullPointer("")
      ensures r.Ok? ==> fresh(r.value) && r.value.userAgent == Agent(manager.shardZero.value)
    {
      if manager.shardZero.None? {
        return Err(NullPointer(""));
      }
      var action := new PostAction(manager.shardZero.value);
      return Ok(action);
    }

    /** `disableAutoPost()`: the only way to stop, shutting down without waiting. */
    method DisableAutoPost()
      modifies scheduler
      ensures scheduler.shutDown
      ensures scheduler.tasks == old(scheduler.tasks) && scheduler.awaited == old(scheduler.awaited)
    {
      scheduler.Shutdown();
    }

    /** `enableAutoPost(jda, botBlockAPI)`: the first post after one minute. */
    method EnableAutoPost(api: CoreConfig.BotBlockAPI)
      modifies scheduler
      ensures scheduler.tasks == old(scheduler.tasks) + [Schedule(1, api.updateDelay)]
      ensures scheduler.shutDown == old(scheduler.shutDown) && scheduler.awaited == old(scheduler.awaited)
    {
      scheduler.ScheduleAtFixedRate(1, api.updateDelay);
    }

    /** `enableAutoPost(shardManager, botBlockAPI)`: the first post after a
        whole update delay. */
    method EnableAutoPostForShards(api: CoreConfig.BotBlockAPI)
      modifies scheduler
      ensures scheduler.tasks == old(scheduler.tasks) + [Schedule(api.updateDelay, api.updateDelay)]
      ensures scheduler.shutDown == old(scheduler.shutDown) && scheduler.awaited == old(scheduler.awaited)
    {
      scheduler.ScheduleAtFixedRate(api.updateDelay, api.updateDelay);
    }

    /** `postGuilds(jda, botBlockAPI)`. */
    method PostGuilds(jda: Jda, api: CoreConfig.BotBlockAPI) returns (r: Outgoing)
      ensures r.body == JdaFields(jda) + TokenFields(api.tokens.entries)
      ensures r.sites == Some(|api.tokens.entries|)
    {
      var body := JdaBody(jda, api.tokens.entries);
      r := Outgoing(body, Some(|api.tokens.entries|));
    }

    /** `postGuilds(shardManager, botBlockAPI)`: a missing shard 0 is refused
        before anything is built. */
    method PostShardGuilds(manager: ShardManager, api: CoreConfig.BotBlockAPI) returns (r: Result<Outgoing>)
      ensures r.Err? <==> manager.shardZero.None?
      ensures r.Err? ==> r.error == IllegalState("Received invalid/null Shard (Shard ID: 0)")
      ensures r.Ok? ==> r.value.body == ShardManagerFields(manager, manager.shardZero.value) + TokenFields(api.tokens.entries)
      ensures r.Ok? ==> r.value.sites == Some(|api.tokens.entries|)
    {
      var check := CheckUtil.Condition(manager.shardZero.None?, "Received invalid/null Shard (Shard ID: 0)");
      if check.Fail? {
        return Err(check.error);
      }
      var body := ShardManagerBody(manager, manager.shardZero.value, api.tokens.entries);
      return Ok(Outgoing(body, Some(|api.tokens.entries|)));
    }
  }
}
