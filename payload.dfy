/** The Discord library handles the post actions read from, reduced to the
    values they read. */
module Discord {
  import opened Errors
  import opened Numbers

  /** A JDA shard: its bot user's id, name and discriminator, its guild count
      (`getGuildCache().size()`, equal to `getGuilds().size()`), and its shard info. */
  datatype Jda = Jda(selfId: string, name: string, discriminator: string, guilds: Size, shardId: int, shardTotal: int)

  /** A ShardManager: `getShardById(0)` (None for `null`), the shards in the
      order its shard cache and `getShards()` yield them, and its guild count. */
  datatype ShardManager = ShardManager(shardZero: Option<Jda>, shards: seq<Jda>, guilds: Size)

  /** A Javacord `DiscordApi`: the bot user's numeric id, name and discriminator,
      and the number of servers it sees. */
  datatype DiscordApi = DiscordApi(selfId: Long, name: string, discriminator: string, servers: Size)
}

/** The JSON object every post action sends to the count endpoint, and the
    steps that fill it. */
module Payload {
  import opened Numbers
  import opened Json
  import opened Discord
  import Errors

  /** The token map as JSON members: one string member per site. */
  function TokenFields(tokens: map<string, string>): (o: Object)
    ensures o.Keys == tokens.Keys
    ensures forall k :: k in tokens ==> o[k] == JStr(tokens[k])
  {
    map k | k in tokens :: JStr(tokens[k])
  }

  /** `tokens.forEach(json::put)`: every token is put after the fixed members,
      one key at a time. */
  method PutTokens(json: Object, tokens: map<string, string>) returns (r: Object)
    ensures r == json + TokenFields(tokens)
  {
    var remaining := tokens.Keys;
    r := json;
    while remaining != {}
      invariant remaining <= tokens.Keys
      invariant forall k :: k in r <==> k in json || (k in tokens && k !in remaining)
      invariant forall k :: k in r ==> r[k] == (if k in tokens && k !in remaining then JStr(tokens[k]) else json[k])
      decreases remaining
    {
      var key :| key in remaining;
      r := r[key := JStr(tokens[key])];
      remaining := remaining - {key};
    }
    assert r.Keys == (json + TokenFields(tokens)).Keys;
  }

  /** A token whose key equals a fixed member replaces it; every other fixed
      member reaches the body unchanged. */
  lemma TokensMergedLast(fields: Object, tokens: map<string, string>, k: string)
    ensures k in tokens ==> (fields + TokenFields(tokens))[k] == JStr(tokens[k])
    ensures k !in tokens && k in fields ==> (fields + TokenFields(tokens))[k] == fields[k]
    ensures (fields + TokenFields(tokens)).Keys == fields.Keys + tokens.Keys
  {
  }

  /** Putting `b` and then `c` into `a` is putting their merge into `a`. */
  lemma MergeInto(a: Object, b: Object, c: Object)
    ensures a + (b + c) == (a + b) + c
  {
    assert (a + (b + c)).Keys == ((a + b) + c).Keys;
  }

  /** The guild count of each shard, in shard order. */
  function GuildCounts(shards: seq<Jda>): (counts: seq<Json>)
    ensures |counts| == |shards|
    ensures forall i :: 0 <= i < |shards| ==> counts[i] == JInt(shards[i].guilds)
  {
    seq(|shards|, i requires 0 <= i < |shards| => JInt(shards[i].guilds))
  }

  /** `for (JDA jda : shards) counts.add(jda.getGuilds().size())`. */
  method CollectGuildCounts(shards: seq<Jda>) returns (counts: seq<Json>)
    ensures counts == GuildCounts(shards)
  {
    counts := [];
    for i := 0 to |shards|
      invariant |counts| == i
      invariant forall j :: 0 <= j < i ==> counts[j] == JInt(shards[j].guilds)
    {
      counts := counts + [JInt(shards[i].guilds)];
    }
  }

  /** The members a JDA post puts before the tokens: guild count and bot id, and
      the shard id and count only for a bot with more than one shard. */
  function JdaFields(jda: Jda): (o: Object)
    ensures "server_count" in o && o["server_count"] == JInt(jda.guilds)
    ensures "bot_id" in o && o["bot_id"] == JStr(jda.selfId)
    ensures ("shard_id" in o) <==> jda.shardTotal > 1
    ensures ("shard_count" in o) <==> jda.shardTotal > 1
    ensures jda.shardTotal > 1 ==> o["shard_id"] == JInt(jda.shardId) && o["shard_count"] == JInt(jda.shardTotal)
    ensures o.Keys <= {"server_count", "bot_id", "shard_id", "shard_count"}
  {
    var base := map["server_count" := JInt(jda.guilds), "bot_id" := JStr(jda.selfId)];
    if jda.shardTotal > 1 then base["shard_id" := JInt(jda.shardId)]["shard_count" := JInt(jda.shardTotal)]
    else base
  }

  /** The members a ShardManager post puts before the tokens: the manager's
      guild count, shard 0's bot id, the number of shards and their counts. */
  function ShardManagerFields(manager: ShardManager, shardZero: Jda): (o: Object)
    ensures o.Keys == {"server_count", "bot_id", "shard_count", "shards"}
    ensures o["server_count"] == JInt(manager.guilds) && o["bot_id"] == JStr(shardZero.selfId)
    ensures o["shards"].JArr? && o["shard_count"] == JInt(|o["shards"].items|)
    ensures o["shards"] == JArr(GuildCounts(manager.shards))
  {
    map["server_count" := JInt(manager.guilds), "bot_id" := JStr(shardZero.selfId),
        "shard_count" := JInt(|manager.shards|), "shards" := JArr(GuildCounts(manager.shards))]
  }

  /** The members of a post by bot id and guild count. */
  function CountFields(botId: string, guilds: int): (o: Object)
    ensures o.Keys == {"server_count", "bot_id"}
    ensures o["server_count"] == JInt(guilds) && o["bot_id"] == JStr(botId)
  {
    map["server_count" := JInt(guilds), "bot_id" := JStr(botId)]
  }

  /** What a post action hands to `performPOST`: the body, and `sites`, the
      number of tokens (None for the first generation, which passes no count). */
  datatype Outgoing = Outgoing(body: Object, sites: Errors.Option<int>)

  /** The body of a JDA post: its fixed members, then every token. */
  method JdaBody(jda: Jda, tokens: map<string, string>) returns (body: Object)
    ensures body == JdaFields(jda) + TokenFields(tokens)
  {
    var json := map["server_count" := JInt(jda.guilds), "bot_id" := JStr(jda.selfId)];
    if jda.shardTotal > 1 {
      json := json["shard_id" := JInt(jda.shardId)]["shard_count" := JInt(jda.shardTotal)];
    }
    body := PutTokens(json, tokens);
  }

  /** The body of a ShardManager post whose shard 0 is `shardZero`: the fixed
      members, the per-shard counts collected in shard order, then every token. */
  method ShardManagerBody(manager: ShardManager, shardZero: Jda, tokens: map<string, string>) returns (body: Object)
    ensures body == ShardManagerFields(manager, shardZero) + TokenFields(tokens)
  {
    var json := map["server_count" := JInt(manager.guilds), "bot_id" := JStr(shardZero.selfId),
                    "shard_count" := JInt(|manager.shards|)];
    var counts := CollectGuildCounts(manager.shards);
    json := json["shards" := JArr(counts)];
    body := PutTokens(json, tokens);
  }

  /** The body of a post by bot id and guild count. */
  method CountBody(botId: string, guilds: int, tokens: map<string, string>) returns (body: Object)
    ensures body == CountFields(botId, guilds) + TokenFields(tokens)
  {
    body := PutTokens(map["server_count" := JInt(guilds), "bot_id" := JStr(botId)], tokens);
  }

  /** The exact sum of `xs`. */
  function Sum(xs: seq<int>): int {
    if |xs| == 0 then 0 else Sum(xs[..|xs| - 1]) + xs[|xs| - 1]
  }

  /** `IntStream.sum()`: an `int` accumulator that wraps on every addition. */
  function WrappedSum(xs: seq<int>): (s: int)
    ensures IsInt32(s)
  {
    if |xs| == 0 then 0 else ToInt32(WrappedSum(xs[..|xs| - 1]) + xs[|xs| - 1])
  }

  /** Values that agree modulo 2^32 narrow to the same `int`. */
  lemma {:induction false} NarrowCongruent(x: int, y: int)
    requires (x - y) % TwoTo32 == 0
    ensures ToInt32(x) == ToInt32(y)
  {
    var k := (x - y) / TwoTo32;
    assert x == y + k * TwoTo32;
    assert x % TwoTo32 == y % TwoTo32;
  }

  /** Wrapping on every addition ends where wrapping once at the end does. */
  lemma {:induction false} WrappedSumIsNarrowedSum(xs: seq<int>)
    ensures WrappedSum(xs) == ToInt32(Sum(xs))
  {
    if |xs| > 0 {
      var init, last := xs[..|xs| - 1], xs[|xs| - 1];
      WrappedSumIsNarrowedSum(init);
      NarrowCongruent(WrappedSum(init) + last, Sum(init) + last);
    }
  }

  /** Each api's server count, in argument order. */
  function ServerCounts(apis: seq<DiscordApi>): (counts: seq<int>)
    ensures |counts| == |apis|
    ensures forall i :: 0 <= i < |apis| ==> counts[i] == apis[i].servers
  {
    seq(|apis|, i requires 0 <= i < |apis| => apis[i].servers as int)
  }

  /** Counts as JSON numbers, in order. */
  function CountsJson(counts: seq<int>): (items: seq<Json>)
    ensures |items| == |counts|
    ensures forall i :: 0 <= i < |counts| ==> items[i] == JInt(counts[i])
  {
    seq(|counts|, i requires 0 <= i < |counts| => JInt(counts[i]))
  }

  /** The members a Javacord post puts before the tokens: the first api's bot
      id; with several apis the wrapped total of their server counts, their
      number and the per-api counts, with one api only its server count. */
  function JavacordFields(apis: seq<DiscordApi>): (o: Object)
    requires |apis| >= 1
    ensures "bot_id" in o && o["bot_id"] == JInt(apis[0].selfId)
    ensures "server_count" in o && o["server_count"] == JInt(ToInt32(Sum(ServerCounts(apis))))
    ensures ("shard_count" in o) <==> |apis| > 1
    ensures ("shards" in o) <==> |apis| > 1
    ensures |apis| > 1 ==> o["shard_count"] == JInt(|apis|)
    ensures |apis| > 1 ==> o["shards"] == JArr(CountsJson(ServerCounts(apis)))
    ensures o.Keys <= {"bot_id", "server_count", "shard_count", "shards"}
  {
    var counts := ServerCounts(apis);
    WrappedSumIsNarrowedSum(counts);
    if |apis| > 1 then
      map["bot_id" := JInt(apis[0].selfId), "server_count" := JInt(WrappedSum(counts)),
          "shard_count" := JInt(|apis|), "shards" := JArr(CountsJson(counts))]
    else
      assert Sum(counts) == Sum([]) + counts[0];
      map["bot_id" := JInt(apis[0].selfId), "server_count" := JInt(apis[0].servers)]
  }

  /** Below 2^31 in total, the posted server count is the exact sum of the
      posted per-api counts. */
  lemma JavacordCountIsSumOfShards(apis: seq<DiscordApi>)
    requires |apis| > 1 && Sum(ServerCounts(apis)) < TwoTo31
    ensures JavacordFields(apis)["server_count"] == JInt(Sum(ServerCounts(apis)))
  {
    SumNonNegative(ServerCounts(apis));
  }

  lemma {:induction false} SumNonNegative(xs: seq<int>)
    requires forall i :: 0 <= i < |xs| ==> xs[i] >= 0
    ensures Sum(xs) >= 0
  {
    if |xs| > 0 {
      SumNonNegative(xs[..|xs| - 1]);
    }
  }

  /** Enough servers across the apis make the posted total negative. */
  lemma JavacordCountOverflows()
    ensures var api := DiscordApi(1, "bot", "0001", TwoTo31 - 1);
      JavacordFields([api, api])["server_count"] == JInt(-2)
  {
    var api := DiscordApi(1, "bot", "0001", TwoTo31 - 1);
    assert ServerCounts([api, api]) == [TwoTo31 - 1, TwoTo31 - 1];
    assert Sum([TwoTo31 - 1, TwoTo31 - 1]) == Sum([TwoTo31 - 1]) + (TwoTo31 - 1);
    assert Sum([TwoTo31 - 1]) == Sum([]) + (TwoTo31 - 1);
  }

  /** `for (DiscordApi api : apis) shards.add(api.getServers().size())`. */
  method CollectServerCounts(apis: seq<DiscordApi>) returns (counts: seq<Json>)
    ensures counts == CountsJson(ServerCounts(apis))
  {
    counts := [];
    for i := 0 to |apis|
      invariant |counts| == i
      invariant forall j :: 0 <= j < i ==> counts[j] == JInt(apis[j].servers)
    {
      counts := counts + [JInt(apis[i].servers)];
    }
  }
}
