/** The configuration of the second generation (`org.botblock.javabotblockapi.BotBlockAPI`).
    Its site enum is not part of this model: the builder takes the site's identifier. */
module V2Config {
  import opened Errors
  import opened TokenMaps

  const DefaultDelay: int := 30

  class BotBlockAPI {
    /** `getTokens()`. */
    var tokens: TokenMap
    /** `getUpdateDelay()`. */
    var updateDelay: int

    predicate Valid()
      reads this, tokens
    {
      |tokens.entries| > 0 && updateDelay >= 2
    }

    constructor Init(tokens: TokenMap, updateDelay: int)
      ensures this.tokens == tokens && this.updateDelay == updateDelay
    {
      this.tokens := tokens;
      this.updateDelay := updateDelay;
    }

    /** `new BotBlockAPI(tokens)`: refuses an empty map, uses the default delay. */
    static method Of(tokens: TokenMap) returns (r: Result<BotBlockAPI>)
      ensures r.Err? <==> |tokens.entries| == 0
      ensures r.Err? ==> r.error == IllegalArgument("Map may not be empty.")
      ensures r.Ok? ==> fresh(r.value) && r.value.tokens == tokens && r.value.updateDelay == DefaultDelay
      ensures r.Ok? ==> r.value.Valid()
    {
      if |tokens.entries| == 0 {
        return Err(IllegalArgument("Map may not be empty."));
      }
      var api := new BotBlockAPI.Init(tokens, DefaultDelay);
      return Ok(api);
    }

    /** `new BotBlockAPI(tokens, updateDelay)`: refuses an empty map, then a delay below 2. */
    static method OfDelay(tokens: TokenMap, updateDelay: int) returns (r: Result<BotBlockAPI>)
      ensures r.Err? <==> |tokens.entries| == 0 || updateDelay < 2
      ensures |tokens.entries| == 0 ==> r == Err(IllegalArgument("Map may not be empty."))
      ensures |tokens.entries| > 0 && updateDelay < 2 ==> r == Err(IllegalArgument("Update interval may not be less than 2."))
      ensures r.Ok? ==> fresh(r.value) && r.value.tokens == tokens && r.value.updateDelay == updateDelay
      ensures r.Ok? ==> r.value.Valid()
    {
      if |tokens.entries| == 0 {
        return Err(IllegalArgument("Map may not be empty."));
      }
      if updateDelay < 2 {
        return Err(IllegalArgument("Update interval may not be less than 2."));
      }
      var api := new BotBlockAPI.Init(tokens, updateDelay);
      return Ok(api);
    }
  }

  class Builder {
    var tokens: TokenMap
    var updateDelay: int

    predicate Valid()
      reads this
    {
      updateDelay >= 2
    }

    constructor ()
      ensures fresh(tokens) && tokens.entries == map[]
      ensures updateDelay == DefaultDelay && Valid()
    {
      tokens := new TokenMap(map[]);
      updateDelay := DefaultDelay;
    }

    /** `addAuthToken(Site, token)`: an empty token is refused; the site is not checked. */
    method AddAuthTokenForSite(siteId: string, token: string) returns (r: Outcome)
      modifies tokens
      ensures r.Fail? <==> |token| == 0
      ensures r.Fail? ==> r.error == NullPointer("Token may not be null.")
      ensures tokens.entries == if r.Pass? then old(tokens.entries)[siteId := token] else old(tokens.entries)
    {
      if |token| == 0 {
        return Fail(NullPointer("Token may not be null."));
      }
      tokens.Put(siteId, token);
      return Pass;
    }

    /** `addAuthToken(String, String)`: one check for both arguments. */
    method AddAuthToken(site: string, token: string) returns (r: Outcome)
      modifies tokens
      ensures r.Fail? <==> |site| == 0 || |token| == 0
      ensures r.Fail? ==> r.error == NullPointer("Site and/or token may not be null.")
      ensures tokens.entries == if r.Pass? then old(tokens.entries)[site := token] else old(tokens.entries)
    {
      if |site| == 0 || |token| == 0 {
        return Fail(NullPointer("Site and/or token may not be null."));
      }
      tokens.Put(site, token);
      return Pass;
    }

    /** `setAuthTokens(map)`. */
    method SetAuthTokens(newTokens: TokenMap) returns (r: Outcome)
      modifies this
      ensures r.Fail? <==> |newTokens.entries| == 0
      ensures r.Fail? ==> r.error == NullPointer("Tokens may not be null.")
      ensures tokens == (if r.Pass? then newTokens else old(tokens))
      ensures updateDelay == old(updateDelay)
    {
      if |newTokens.entries| == 0 {
        return Fail(NullPointer("Tokens may not be null."));
      }
      tokens := newTokens;
      return Pass;
    }

    /** `setUpdateDelay(delay)`: a delay below 2 is refused with IllegalArgumentException. */
    method SetUpdateDelay(delay: int) returns (r: Outcome)
      requires Valid()
      modifies this
      ensures r.Fail? <==> delay < 2
      ensures r.Fail? ==> r.error == IllegalArgument("Update interval may not be less than 2.")
      ensures updateDelay == (if r.Pass? then delay else old(updateDelay))
      ensures tokens == old(tokens) && Valid()
    {
      if delay < 2 {
        return Fail(IllegalArgument("Update interval may not be less than 2."));
      }
      updateDelay := delay;
      return Pass;
    }

    /** `build()`: delegates to the two-argument constructor, so an empty map is
        refused with IllegalArgumentException. */
    method Build() returns (r: Result<BotBlockAPI>)
      requires Valid()
      ensures r.Err? <==> |tokens.entries| == 0
      ensures r.Err? ==> r.error == IllegalArgument("Map may not be empty.")
      ensures r.Ok? ==> fresh(r.value) && r.value.tokens == tokens && r.value.updateDelay == updateDelay
      ensures r.Ok? ==> r.value.Valid()
    {
      r := BotBlockAPI.OfDelay(tokens, updateDelay);
    }
  }
}
