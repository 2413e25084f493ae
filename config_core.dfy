/** The configuration of the current modules (`core` module `BotBlockAPI`):
    the site tokens and the minutes between automatic posts, and the builder
    that collects them. */
module CoreConfig {
  import opened Errors
  import CheckUtil
  import Sites
  import opened TokenMaps

  /** Minutes between two automatic posts unless configured otherwise. */
  const DefaultDelay: int := 30

  class BotBlockAPI {
    /** `getTokens()`: the map handed over by the builder, not a copy. */
    const tokens: TokenMap
    /** `getUpdateDelay()`. */
    const updateDelay: int

    /** What the constructor's checks establish. */
    predicate Valid()
      reads this, tokens
    {
      |tokens.entries| > 0 && updateDelay >= 2
    }

    constructor Init(tokens: TokenMap, updateDelay: int)
      ensures this.tokens == tokens && this.updateDelay == updateDelay
    {
      this.tokens := tokens;
      this.updateDelay := updateDelay;
    }

    /** The private constructor: refuses an empty map, then a delay below 2. */
    static method New(tokens: TokenMap, updateDelay: int) returns (r: Result<BotBlockAPI>)
      ensures r.Err? <==> |tokens.entries| == 0 || updateDelay < 2
      ensures |tokens.entries| == 0 ==> r == Err(NullPointer("Tokens" + " may not be empty."))
      ensures |tokens.entries| > 0 && updateDelay < 2 ==> r == Err(IllegalArgument("UpdateDelay may not be less than 2."))
      ensures r.Ok? ==> fresh(r.value) && r.value.tokens == tokens && r.value.updateDelay == updateDelay
      ensures r.Ok? ==> r.value.Valid()
    {
      if |tokens.entries| == 0 {
        return Err(NullPointer("Tokens" + " may not be empty."));
      }
      if updateDelay < 2 {
        return Err(IllegalArgument("UpdateDelay may not be less than 2."));
      }
      var api := new BotBlockAPI.Init(tokens, updateDelay);
      return Ok(api);
    }
  }

  class Builder {
    var tokens: TokenMap
    var updateDelay: int

    /** The delay never drops below 2: the setter refuses smaller values. */
    predicate Valid()
      reads this
    {
      updateDelay >= 2
    }

    /** An empty map and the default delay. */
    constructor ()
      ensures fresh(tokens) && tokens.entries == map[]
      ensures updateDelay == DefaultDelay && Valid()
    {
      tokens := new TokenMap(map[]);
      updateDelay := DefaultDelay;
    }

    /** `addAuthToken(Site, token)`: checks the token, then that the site accepts
        POST, and stores the token under the site's identifier. */
    method AddAuthTokenForSite(site: Sites.Site, token: string) returns (r: Outcome)
      modifies tokens
      ensures r.Pass? <==> |token| > 0 && Sites.Post in Sites.Methods(site)
      ensures r == Then(CheckUtil.NotEmpty(token, "Token"), CheckUtil.SupportsPost(site))
      ensures r.Pass? ==> tokens.entries == old(tokens.entries)[Sites.Name(site) := token]
      ensures r.Fail? ==> tokens.entries == old(tokens.entries)
    {
      r := Then(CheckUtil.NotEmpty(token, "Token"), CheckUtil.SupportsPost(site));
      if r.Pass? {
        tokens.Put(Sites.Name(site), token);
      }
    }

    /** `addAuthToken(String, String)`: checks the site, then the token. */
    method AddAuthToken(site: string, token: string) returns (r: Outcome)
      modifies tokens
      ensures r.Pass? <==> |site| > 0 && |token| > 0
      ensures r == Then(CheckUtil.NotEmpty(site, "Site"), CheckUtil.NotEmpty(token, "Token"))
      ensures r.Pass? ==> tokens.entries == old(tokens.entries)[site := token]
      ensures r.Fail? ==> tokens.entries == old(tokens.entries)
    {
      r := Then(CheckUtil.NotEmpty(site, "Site"), CheckUtil.NotEmpty(token, "Token"));
      if r.Pass? {
        tokens.Put(site, token);
      }
    }

    /** `setAuthTokens(map)`: a non-empty map replaces the builder's map (by reference). */
    method SetAuthTokens(newTokens: TokenMap) returns (r: Outcome)
      modifies this
      ensures r == CheckUtil.NotEmptyMap(newTokens.entries, "Tokens")
      ensures tokens == (if r.Pass? then newTokens else old(tokens))
      ensures updateDelay == old(updateDelay)
    {
      r := CheckUtil.NotEmptyMap(newTokens.entries, "Tokens");
      if r.Pass? {
        tokens := newTokens;
      }
    }

    /** `setUpdateDelay(delay)`: a delay below 2 is refused with IllegalStateException. */
    method SetUpdateDelay(delay: int) returns (r: Outcome)
      requires Valid()
      modifies this
      ensures r.Fail? <==> delay < 2
      ensures r.Fail? ==> r.error == IllegalState("UpdateDelay may not be less than 2.")
      ensures updateDelay == (if r.Pass? then delay else old(updateDelay))
      ensures tokens == old(tokens) && Valid()
    {
      r := CheckUtil.Condition(delay < 2, "UpdateDelay may not be less than 2.");
      if r.Pass? {
        updateDelay := delay;
      }
    }

    /** `build()`: refuses an empty map; otherwise the configuration shares the
        builder's map. The delay check of the constructor can no longer fail. */
    method Build() returns (r: Result<BotBlockAPI>)
      requires Valid()
      ensures r.Err? <==> |tokens.entries| == 0
      ensures r.Err? ==> r.error == NullPointer("Tokens" + " may not be empty.")
      ensures r.Ok? ==> fresh(r.value) && r.value.tokens == tokens && r.value.updateDelay == updateDelay
      ensures r.Ok? ==> r.value.Valid()
    {
      var check := CheckUtil.NotEmptyMap(tokens.entries, "Tokens");
      if check.Fail? {
        return Err(check.error);
      }
      r := BotBlockAPI.New(tokens, updateDelay);
    }
  }

  /** Because `build()` hands over the builder's own map, a token added to the
      builder afterwards is visible through the configuration already built. */
  method AddAfterBuild(b: Builder, site: string, token: string)
    returns (built: Result<BotBlockAPI>, added: Outcome)
    requires b.Valid()
    modifies b.tokens
    ensures built.Ok? && added.Pass? ==> built.value.tokens.entries == old(b.tokens.entries)[site := token]
    ensures built.Ok? ==> built.value.Valid()
  {
    built := b.Build();
    added := b.AddAuthToken(site, token);
  }
}
