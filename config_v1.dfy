/** The configuration of the first generation (`com.andre601.javabotblockapi.BotBlockAPI`).
    Its site enum is not part of this model: the builder takes the site's identifier. */
module V1Config {
  import opened Errors
  import Check
  import opened TokenMaps

  const DefaultDelay: int := 30

  class BotBlockAPI {
    /** `getAuthTokens()`. */
    var authTokens: TokenMap
    /** `getUpdateInterval()`. */
    var updateInterval: int

    /** `new BotBlockAPI(authTokens)`: no check at all, not even for an empty map. */
    constructor (authTokens: TokenMap)
      ensures this.authTokens == authTokens && updateInterval == DefaultDelay
    {
      this.authTokens := authTokens;
      this.updateInterval := DefaultDelay;
    }

    constructor Init(authTokens: TokenMap, updateInterval: int)
      ensures this.authTokens == authTokens && this.updateInterval == updateInterval
    {
      this.authTokens := authTokens;
      this.updateInterval := updateInterval;
    }

    /** `new BotBlockAPI(authTokens, updateInterval)`: only the interval is checked. */
    static method OfInterval(authTokens: TokenMap, updateInterval: int) returns (r: Result<BotBlockAPI>)
      ensures r.Err? <==> updateInterval < 2
      ensures r.Err? ==> r.error == IllegalArgument("Update interval may not be less than 2.")
      ensures r.Ok? ==> fresh(r.value) && r.value.authTokens == authTokens && r.value.updateInterval == updateInterval
    {
      if updateInterval < 2 {
        return Err(IllegalArgument("Update interval may not be less than 2."));
      }
      var api := new BotBlockAPI.Init(authTokens, updateInterval);
      return Ok(api);
    }
  }

  class Builder {
    var authTokens: TokenMap
    var updateInterval: int

    predicate Valid()
      reads this
    {
      updateInterval >= 2
    }

    constructor ()
      ensures fresh(authTokens) && authTokens.entries == map[]
      ensures updateInterval == DefaultDelay && Valid()
    {
      authTokens := new TokenMap(map[]);
      updateInterval := DefaultDelay;
    }

    /** `addAuthToken(Site, token)`. */
    method AddAuthTokenForSite(siteId: string, token: string) returns (r: Outcome)
      modifies authTokens
      ensures r.Fail? <==> |token| == 0
      ensures r.Fail? ==> r.error == NullPointer("Token may not be empty.")
      ensures authTokens.entries == if r.Pass? then old(authTokens.entries)[siteId := token] else old(authTokens.entries)
    {
      r := Check.NotEmpty(Some(token), "Token may not be empty.");
      if r.Pass? {
        authTokens.Put(siteId, token);
      }
    }

    /** `addAuthToken(String, String)`: checks the site, then the token. */
    method AddAuthToken(site: string, token: string) returns (r: Outcome)
      modifies authTokens
      ensures r.Fail? <==> |site| == 0 || |token| == 0
      ensures |site| == 0 ==> r == Fail(NullPointer("Site may not be empty."))
      ensures |site| > 0 && |token| == 0 ==> r == Fail(NullPointer("Token may not be empty."))
      ensures authTokens.entries == if r.Pass? then old(authTokens.entries)[site := token] else old(authTokens.entries)
    {
      r := Then(Check.NotEmpty(Some(site), "Site may not be empty."), Check.NotEmpty(Some(token), "Token may not be empty."));
      if r.Pass? {
        authTokens.Put(site, token);
      }
    }

    /** `setAuthTokens(map)`: an empty map is refused with a message that speaks of null. */
    method SetAuthTokens(newTokens: TokenMap) returns (r: Outcome)
      modifies this
      ensures r.Fail? <==> |newTokens.entries| == 0
      ensures r.Fail? ==> r.error == NullPointer("AuthTokens may not be null.")
      ensures authTokens == (if r.Pass? then newTokens else old(authTokens))
      ensures updateInterval == old(updateInterval)
    {
      r := Check.NotEmptyMap(Some(newTokens.entries), "AuthTokens may not be null.");
      if r.Pass? {
        authTokens := newTokens;
      }
    }

    /** `setUpdateInteval(interval)` (so spelled in the source). */
    method SetUpdateInterval(interval: int) returns (r: Outcome)
      requires Valid()
      modifies this
      ensures r.Fail? <==> interval < 2
      ensures r.Fail? ==> r.error == IllegalArgument("Update interval may not be less than 2.")
      ensures updateInterval == (if r.Pass? then interval else old(updateInterval))
      ensures authTokens == old(authTokens) && Valid()
    {
      if interval < 2 {
        return Fail(IllegalArgument("Update interval may not be less than 2."));
      }
      updateInterval := interval;
      return Pass;
    }

    /** `build()`: never fails, and a builder without any token still builds. */
    method Build() returns (r: Result<BotBlockAPI>)
      requires Valid()
      ensures r.Ok?
      ensures fresh(r.value) && r.value.authTokens == authTokens && r.value.updateInterval == updateInterval
    {
      r := BotBlockAPI.OfInterval(authTokens, updateInterval);
    }
  }

  /** A fresh builder with no token at all yields a configuration with an empty map. */
  method BuildWithoutTokens() returns (api: BotBlockAPI)
    ensures api.authTokens.entries == map[] && api.updateInterval == DefaultDelay
  {
    var b := new Builder();
    var r := b.Build();
    api := r.value;
  }
}
