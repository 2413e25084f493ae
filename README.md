# JavaBotBlockAPI, modelled in Dafny

JavaBotBlockAPI is a Java client for the BotBlock API (`https://botblock.org/api/`), a
service that forwards a Discord bot's guild count to many bot-list sites at once and
answers lookups about bots and about the lists themselves. The library exists in three
generations:

- the first, `com.andre601.javabotblockapi`;
- the second, `org.botblock.javabotblockapi` in one artifact;
- the current modules: `core`, `request`, `jda`, `javacord`, and their predecessors `jda-module` and `request-module`.

This project models every generation as written, side by side, in Dafny 4.11, except where "## Left out" says otherwise.

| area | files | form |
|---|---|---|
| exceptions and wrappers (`Option`, `Result`, `Outcome`) | `errors.dfy` | datatypes |
| Java integer widths, decimal rendering, `String` operations | `numbers.dfy`, `strings.dfy` | functions and lemmas |
| the org.json values and accessors the code uses | `json.dfy` | functions, one loop as a method |
| an HTTP response as the handlers see it | `http.dfy` | datatypes and one loop |
| the site registry and the guard helpers | `sites.dfy`, `checks.dfy` | functions, lemmas, a `HashMap` class |
| configuration objects and their builders | `config_core.dfy`, `config_v2.dfy`, `config_v1.dfy` | classes with `modifies` clauses |
| rate-limit exceptions: parsing and messages | `rate_limits.dfy` | functions and lemmas |
| the three request handlers | `handler_core.dfy`, `handler_v2.dfy`, `handler_v1.dfy` | pure classification functions; classes holding the caches, the shared post body and the scheduler |
| User-Agent strings | `user_agents.dfy` | functions and lemmas |
| POST bodies | `payload.dfy` | functions, the loops as methods proved against them |
| the seven post actions and their scheduler | `post_*.dfy`, `scheduling.dfy` | classes |
| lookups of bots and lists | `get_bot.dfy`, `get_list_module.dfy`, `get_list_v2.dfy` | a class over the handler's cache (bots); the list actions as values that carry their cache |

The model's main parts:

- **Response.** An HTTP response is a value: status code, message, and an optional body (its text plus the object org.json would parse from it). Each handler's GET and POST turns it into one of four outcomes: `null`, an object, a rate-limit exception or an `IOException`, following that generation's own rules.
- **Caches.** The Caffeine caches are maps keyed by the bot id alone. A lookup is a `Fetch`: the URL it would request (none when the cache answers), its result, and the new cache.
- **Post actions.** A post action's method returns the body and the site count it hands to `performPOST`. The first generation instead keeps one body and one id in the handler's fields and reuses them across posts.

## Model


| member | source | states |
|---|---|---|
| CheckUtil.NotEmpty | core/src/main/java/org/botblock/javabotblockapi/core/CheckUtil.java:40-43 | fails exactly on the empty string, with NullPointerException "<name> may not be empty." |
| CheckUtil.NotEmptyMap | core/src/main/java/org/botblock/javabotblockapi/core/CheckUtil.java:53-56 | fails exactly on the empty map, with the same message shape |
| CheckUtil.Condition | core/src/main/java/org/botblock/javabotblockapi/core/CheckUtil.java:66-69 | fails exactly when the expression holds, with IllegalStateException carrying the message |
| CheckUtil.SupportsPost | core/src/main/java/org/botblock/javabotblockapi/core/CheckUtil.java:79-83 | passes exactly when the site was declared with POST; otherwise "<name> does not support POST!" |
| CheckUtil.SupportsGet | core/src/main/java/org/botblock/javabotblockapi/core/CheckUtil.java:93-97 | passes exactly when the site was declared with GET; otherwise "<name> does not support GET!" |
| Check.NotNull | src/main/java/com/andre601/javabotblockapi/Check.java:7-10 | fails exactly on null, with the caller's message |
| Check.NotEmpty | src/main/java/com/andre601/javabotblockapi/Check.java:12-16 | passes exactly on a non-null, non-empty text; null and empty share one message |
| Check.NotEmptyMap | src/main/java/com/andre601/javabotblockapi/Check.java:18-22 | passes exactly on a non-null, non-empty map |
| Sites.Name | core/src/main/java/org/botblock/javabotblockapi/core/Site.java:380-382 | every site has a non-empty identifier |
| Sites.NameRoundTrip | core/src/main/java/org/botblock/javabotblockapi/core/Site.java:47-359 | the identifier leads back to its site |
| Sites.NamesDistinct | core/src/main/java/org/botblock/javabotblockapi/core/Site.java:47-359 | two sites share an identifier only if they are the same site, so tokens keyed by identifier never collide |
| Sites.SupportIsMembership | core/src/main/java/org/botblock/javabotblockapi/core/Site.java:389-400 | support for GET/POST is exactly membership of the method in the declared list |
| Sites.SitesWithoutMethods | core/src/main/java/org/botblock/javabotblockapi/core/Site.java:121-148 | exactly bots.distop.xyz and bots.idledev.org are declared without methods, and they support neither GET nor POST |
| Sites.OneWaySites | core/src/main/java/org/botblock/javabotblockapi/core/Site.java:47-359 | names exactly the POST-only and GET-only sites |
| UserAgents.CheckAgentAndId | request/src/main/java/org/botblock/javabotblockapi/requests/GetBotAction.java:116-118 | passes exactly when agent and id are both non-empty; the agent is checked first |
| UserAgents.TemplateEndsWithId | request/src/main/java/org/botblock/javabotblockapi/requests/GetBotAction.java:89-93 | the default template becomes its fixed text followed by the bot id |
| UserAgents.TemplateWithoutPlaceholder | request/src/main/java/org/botblock/javabotblockapi/requests/GetBotAction.java:121 | a template without "{id}" is sent unchanged |
| UserAgents.BotAgent | jda/src/main/java/org/botblock/javabotblockapi/jda/PostAction.java:80-87 | the agent is exactly name-discriminator/version, then " (<library>) DBots/<id>": both ends and the total length are fixed |
| Strings.ReplaceAbsent | request/src/main/java/org/botblock/javabotblockapi/requests/GetBotAction.java:121 | `replace` leaves a text without the pattern unchanged |
| Strings.ReplaceAfterPlainPrefix | request/src/main/java/org/botblock/javabotblockapi/requests/GetBotAction.java:121 | `replace` copies a pattern-free prefix and continues on the rest |
| Strings.ToLower | src/main/java/org/botblock/javabotblockapi/requests/GetListAction.java:74 | lower-casing keeps the length, leaves no upper-case ASCII letter, moves each upper-case letter to its lower-case one and leaves every other character alone |
| Strings.ToLowerIdempotent | src/main/java/org/botblock/javabotblockapi/requests/GetListAction.java:74 | lower-casing an already lower-cased name changes nothing |
| Numbers.IntToStringRoundTrip | request/src/main/java/org/botblock/javabotblockapi/requests/GetBotAction.java:170-172 | the decimal text of a Long id reads back to the same number |
| Numbers.IntToStringInjective | request/src/main/java/org/botblock/javabotblockapi/requests/GetBotAction.java:170-172 | two different Long ids never become the same String id |
| Numbers.NatToStringRoundTrip | request/src/main/java/org/botblock/javabotblockapi/requests/GetBotAction.java:170-172 | the digits of a natural number read back to it |
| Json.StringItems | request/src/main/java/org/botblock/javabotblockapi/requests/GetBotAction.java:768-770 | the owners read item by item: success exactly when every item is a string, the strings in order; otherwise the first bad index |
| Json.FirstErrorStands | request/src/main/java/org/botblock/javabotblockapi/requests/GetBotAction.java:768-770 | once a prefix fails, the whole array fails with the same error |
| Json.ReadStrings | request/src/main/java/org/botblock/javabotblockapi/requests/GetBotAction.java:768-770 | the loop returns exactly what StringItems specifies |
| Http.ForEachKey | request/src/main/java/org/botblock/javabotblockapi/requests/handler/RequestHandler.java:181-188 | visits every key of the failure object exactly once and maps each entry in visiting order |
| TokenMaps.TokenMap.Put | core/src/main/java/org/botblock/javabotblockapi/core/BotBlockAPI.java:114-120 | adds or overwrites one entry and keeps every other key |
| RateLimits.ParseLenient | core/src/main/java/org/botblock/javabotblockapi/core/exceptions/RateLimitedException.java:40-43 | never fails; an int delay and string fields are read as they are, a missing or non-numeric delay gives -1, a missing or null string gives null, and a number or boolean in a string field gives its text |
| RateLimits.ParseStrict | core/src/main/java/org/botblock/javabotblockapi/core/exceptions/RatelimitedException.java:33-40 | succeeds exactly on a body with an int delay and three strings and then carries exactly those values; otherwise the JSONException names the first bad field |
| RateLimits.StrictRoundTrip | src/main/java/org/botblock/javabotblockapi/exceptions/RatelimitedException.java:33-40 | the strict reader recovers every field the API sends |
| RateLimits.LenientRoundTrip | core/src/main/java/org/botblock/javabotblockapi/core/exceptions/RateLimitedException.java:40-43 | the lenient reader recovers the same fields, as non-null strings |
| RateLimits.StrictAgreesWithLenient | core/src/main/java/org/botblock/javabotblockapi/core/exceptions/RateLimitedException.java:40-43 | wherever the strict reader succeeds, the lenient one reads the same values |
| RateLimits.EmptyBody | core/src/main/java/org/botblock/javabotblockapi/core/exceptions/RateLimitedException.java:40-52 | an empty object: the lenient reader yields -1 and three nulls; the strict one throws on "retry_after" |
| RateLimits.LenientMessageEndsWithDelay | core/src/main/java/org/botblock/javabotblockapi/core/exceptions/RateLimitedException.java:116-119 | the message ends with the delay's decimal text |
| RateLimits.ToStringEndings | core/src/main/java/org/botblock/javabotblockapi/core/exceptions/RateLimitedException.java:100-108 | both core renderings end in ", }"; the second generation's ends with the route and "}" |
| RateLimits.RouteSeparation | core/src/main/java/org/botblock/javabotblockapi/core/exceptions/RatelimitedException.java:99-102 | the strict core message glues the route onto "route"; the lenient one separates them |
| CoreConfig.BotBlockAPI.New | core/src/main/java/org/botblock/javabotblockapi/core/BotBlockAPI.java:39-48 | refuses an empty token map, then a delay below 2; otherwise keeps both |
| CoreConfig.Builder.constructor | core/src/main/java/org/botblock/javabotblockapi/core/BotBlockAPI.java:62-68 | an empty map and the default delay of 30 |
| CoreConfig.Builder.AddAuthTokenForSite | core/src/main/java/org/botblock/javabotblockapi/core/BotBlockAPI.java:90-96 | succeeds exactly for a non-empty token and a site with POST support, storing the token under the site's identifier; a failure changes nothing |
| CoreConfig.Builder.AddAuthToken | core/src/main/java/org/botblock/javabotblockapi/core/BotBlockAPI.java:114-120 | succeeds exactly for non-empty site and token; stores the token; a failure changes nothing |
| CoreConfig.Builder.SetAuthTokens | core/src/main/java/org/botblock/javabotblockapi/core/BotBlockAPI.java:134-139 | a non-empty map replaces the builder's map; an empty one is refused |
| CoreConfig.Builder.SetUpdateDelay | core/src/main/java/org/botblock/javabotblockapi/core/BotBlockAPI.java:153-158 | a delay below 2 is refused; otherwise it is stored; the delay never drops below 2 |
| CoreConfig.Builder.Build | core/src/main/java/org/botblock/javabotblockapi/core/BotBlockAPI.java:168-172 | fails exactly on an empty map; the configuration shares the builder's map and delay |
| CoreConfig.AddAfterBuild | core/src/main/java/org/botblock/javabotblockapi/core/BotBlockAPI.java:168-172 | a token added to the builder after `build()` shows up in the built configuration |
| V1Config.BotBlockAPI.constructor | src/main/java/com/andre601/javabotblockapi/BotBlockAPI.java:43-46 | keeps the map unchecked, with the default interval |
| V1Config.BotBlockAPI.OfInterval | src/main/java/com/andre601/javabotblockapi/BotBlockAPI.java:57-63 | refuses an interval below 2 and nothing else |
| V1Config.Builder.constructor | src/main/java/com/andre601/javabotblockapi/BotBlockAPI.java:76-83 | an empty map and the default interval |
| V1Config.Builder.AddAuthTokenForSite | src/main/java/com/andre601/javabotblockapi/BotBlockAPI.java:102-108 | fails exactly on an empty token; otherwise stores it under the site's identifier |
| V1Config.Builder.AddAuthToken | src/main/java/com/andre601/javabotblockapi/BotBlockAPI.java:126-133 | fails exactly when site or token is empty, the site checked first |
| V1Config.Builder.SetAuthTokens | src/main/java/com/andre601/javabotblockapi/BotBlockAPI.java:147-153 | an empty map is refused with "AuthTokens may not be null." |
| V1Config.Builder.SetUpdateInterval | src/main/java/com/andre601/javabotblockapi/BotBlockAPI.java:167-174 | an interval below 2 is refused; otherwise stored |
| V1Config.Builder.Build | src/main/java/com/andre601/javabotblockapi/BotBlockAPI.java:181-183 | never fails, whatever the map holds |
| V1Config.BuildWithoutTokens | src/main/java/com/andre601/javabotblockapi/BotBlockAPI.java:181-183 | a builder without tokens yields a configuration with an empty map |
| V2Config.BotBlockAPI.Of | src/main/java/org/botblock/javabotblockapi/BotBlockAPI.java:49-55 | refuses an empty map; uses the default delay |
| V2Config.BotBlockAPI.OfDelay | src/main/java/org/botblock/javabotblockapi/BotBlockAPI.java:69-78 | refuses an empty map, then a delay below 2 |
| V2Config.Builder.constructor | src/main/java/org/botblock/javabotblockapi/BotBlockAPI.java:91-98 | an empty map and the default delay |
| V2Config.Builder.AddAuthTokenForSite | src/main/java/org/botblock/javabotblockapi/BotBlockAPI.java:117-124 | fails exactly on an empty token; the site is not checked |
| V2Config.Builder.AddAuthToken | src/main/java/org/botblock/javabotblockapi/BotBlockAPI.java:142-149 | one check for both site and token |
| V2Config.Builder.SetAuthTokens | src/main/java/org/botblock/javabotblockapi/BotBlockAPI.java:163-170 | an empty map is refused; otherwise it replaces the builder's |
| V2Config.Builder.SetUpdateDelay | src/main/java/org/botblock/javabotblockapi/BotBlockAPI.java:184-191 | a delay below 2 is refused with IllegalArgumentException |
| V2Config.Builder.Build | src/main/java/org/botblock/javabotblockapi/BotBlockAPI.java:198-200 | fails exactly on an empty map, through the two-argument constructor |
| CoreHandler.BotUrl | request/src/main/java/org/botblock/javabotblockapi/requests/handler/RequestHandler.java:60 | the bot URL is the base URL, "bots/" and the id |
| CoreHandler.BotUrlInjective | request/src/main/java/org/botblock/javabotblockapi/requests/handler/RequestHandler.java:60 | different ids are fetched from different URLs |
| CoreHandler.ListUrlShape | request/src/main/java/org/botblock/javabotblockapi/requests/handler/RequestHandler.java:88-91 | the list URL names the site exactly when one is given and ends in "?filter=true" exactly when filtered |
| CoreHandler.Get | request/src/main/java/org/botblock/javabotblockapi/requests/handler/RequestHandler.java:200-250 | a missing or empty body gives null; success parses the body; 429 throws the lenient rate-limit exception read from the body; any other failure throws IOException with the code and status message |
| CoreHandler.Catch | request/src/main/java/org/botblock/javabotblockapi/requests/handler/RequestHandler.java:62-77 | IOException becomes null; the rate-limit exception only when asked; everything else passes through |
| CoreHandler.Cached | request/src/main/java/org/botblock/javabotblockapi/requests/handler/RequestHandler.java:62-77 | caching off: load and leave the cache alone; a cached id is answered without a request; a loaded non-null value is cached under the id |
| CoreHandler.RateLimitSwallowedOnlyWithCache | request/src/main/java/org/botblock/javabotblockapi/requests/handler/RequestHandler.java:62-77 | a 429 lookup gives null with the cache on and throws with it off |
| CoreHandler.ListCacheKeyedById | request/src/main/java/org/botblock/javabotblockapi/requests/handler/RequestHandler.java:93-102 | once an id is cached, every site and filter gets the same cached list without a request |
| CoreHandler.DisabledCacheUntouched | request/src/main/java/org/botblock/javabotblockapi/requests/handler/RequestHandler.java:72-77 | a lookup with caching off neither reads nor fills the cache |
| CoreHandler.IOFailureIsNull | request/src/main/java/org/botblock/javabotblockapi/requests/handler/RequestHandler.java:59-111 | an error status other than 429 makes a bot or list lookup return null and leaves the cache as it was, unless the id is already cached |
| CoreHandler.FailureEntry | request/src/main/java/org/botblock/javabotblockapi/requests/handler/RequestHandler.java:252-258 | one entry keyed by the site, with code and message or "?" for both |
| CoreHandler.PostAnswer | request/src/main/java/org/botblock/javabotblockapi/requests/handler/RequestHandler.java:134-177 | a missing or empty body is ignored; 429 throws the lenient rate-limit exception; another failure throws IOException with the code and status message; a success yields the "failure" object exactly when there is one |
| CoreHandler.RequestHandler.constructor | request/src/main/java/org/botblock/javabotblockapi/requests/handler/RequestHandler.java:55-57 | keeps the agent; both caches empty |
| CoreHandler.RequestHandler.PerformGetBot | request/src/main/java/org/botblock/javabotblockapi/requests/handler/RequestHandler.java:59-78 | result and new bot cache are those of the cached lookup |
| CoreHandler.RequestHandler.PerformGetList | request/src/main/java/org/botblock/javabotblockapi/requests/handler/RequestHandler.java:88-112 | result and new list cache are those of the cached list lookup |
| CoreHandler.RequestHandler.PerformGetListAll | request/src/main/java/org/botblock/javabotblockapi/requests/handler/RequestHandler.java:80-82 | the general lookup without a site |
| CoreHandler.RequestHandler.PerformGetListForSite | request/src/main/java/org/botblock/javabotblockapi/requests/handler/RequestHandler.java:84-86 | the general lookup, unfiltered |
| CoreHandler.RequestHandler.PerformPost | request/src/main/java/org/botblock/javabotblockapi/requests/handler/RequestHandler.java:114-194 | fewer than 1 site is refused before sending; otherwise posts to "count" with a timeout of 10 s per site and reports one entry per failed site |
| V2Handler.BotUrl | src/main/java/org/botblock/javabotblockapi/requests/RequestHandler.java:50 | the same bot URL as the current handler |
| V2Handler.ListUrl | src/main/java/org/botblock/javabotblockapi/requests/RequestHandler.java:79-81 | the same list URL as the current handler |
| V2Handler.RateLimit | src/main/java/org/botblock/javabotblockapi/requests/RequestHandler.java:118-127 | a 429 body becomes the strict rate-limit exception with the values the strict reader read, or the JSON error it throws |
| V2Handler.Get | src/main/java/org/botblock/javabotblockapi/requests/RequestHandler.java:104-131 | a missing or empty body throws NullPointerException; success parses; 429 throws the rate-limit exception, other failures IOException |
| V2Handler.Catch | src/main/java/org/botblock/javabotblockapi/requests/RequestHandler.java:49-68 | IOException becomes null; the rate-limit exception only when asked |
| V2Handler.EmptyBodyEscapes | src/main/java/org/botblock/javabotblockapi/requests/RequestHandler.java:49-68 | an empty body throws out of every lookup not answered from the cache |
| V2Handler.RateLimitSwallowedOnlyWithCache | src/main/java/org/botblock/javabotblockapi/requests/RequestHandler.java:49-68 | a well-formed 429 is null with the cache on and thrown with it off |
| V2Handler.IOFailureIsNull | src/main/java/org/botblock/javabotblockapi/requests/RequestHandler.java:49-101 | an error status other than 429 makes a bot or list lookup return null and leaves the cache as it was, unless the id is already cached |
| V2Handler.Timeout | src/main/java/org/botblock/javabotblockapi/requests/RequestHandler.java:138 | `sites * 10` in int arithmetic: exact while it fits, wrapped otherwise |
| V2Handler.TimeoutOverflow | src/main/java/org/botblock/javabotblockapi/requests/RequestHandler.java:138 | 214748365 sites give a negative timeout |
| V2Handler.FailureLine | src/main/java/org/botblock/javabotblockapi/requests/RequestHandler.java:174-196 | one failed site as "key{code=C, message=M}", or "unknown{}" for any entry that is not an array of an int and a string |
| V2Handler.PostAnswer | src/main/java/org/botblock/javabotblockapi/requests/RequestHandler.java:133-173 | an empty body throws NullPointerException; 429 throws the strict rate-limit exception; another failure throws IOException with the code and status message; a success yields the "failure" object when there is one |
| V2Handler.PerformPost | src/main/java/org/botblock/javabotblockapi/requests/RequestHandler.java:133-198 | fewer than 1 site is refused; otherwise posts to "count" with the wrapped timeout and throws one line per failed site |
| V2Handler.RequestHandler.constructor | src/main/java/org/botblock/javabotblockapi/requests/RequestHandler.java:42-47 | both caches empty |
| V2Handler.RequestHandler.PerformGetBot | src/main/java/org/botblock/javabotblockapi/requests/RequestHandler.java:49-68 | result and new bot cache are those of the cached lookup |
| V2Handler.RequestHandler.PerformGetList | src/main/java/org/botblock/javabotblockapi/requests/RequestHandler.java:78-102 | result and new list cache are those of the cached list lookup |
| V2Handler.RequestHandler.PerformGetListAll | src/main/java/org/botblock/javabotblockapi/requests/RequestHandler.java:70-72 | the general lookup without a site |
| V2Handler.RequestHandler.PerformGetListForSite | src/main/java/org/botblock/javabotblockapi/requests/RequestHandler.java:74-76 | the general lookup, unfiltered |
| V1Handler.Classify | src/main/java/com/andre601/javabotblockapi/RequestHandler.java:834-849 | succeeds exactly on a present, non-empty, successful body; null and empty bodies have their two messages; 429 throws with the raw text; any other failure throws IOException naming the action, code and status message |
| V1Handler.GetAll | src/main/java/com/andre601/javabotblockapi/RequestHandler.java:826-853 | the parsed body of `bots/<id>` exactly when the response is successful and parses |
| V1Handler.GetBotlists | src/main/java/com/andre601/javabotblockapi/RequestHandler.java:923-949 | the parsed body of `lists` exactly when the response is successful and parses |
| V1Handler.GetBotlist | src/main/java/com/andre601/javabotblockapi/RequestHandler.java:883-885 | when the lists were read: a success exactly when the name maps to an object, which is returned; otherwise JSONException naming the key; a failed read passes through |
| V1Handler.GetBotInfos | src/main/java/com/andre601/javabotblockapi/RequestHandler.java:480-482 | when the bot was read: a success exactly when "list_data" is an object, which is returned; otherwise JSONException naming "list_data"; a failed read passes through |
| V1Handler.GetBotInfo | src/main/java/com/andre601/javabotblockapi/RequestHandler.java:605-607 | when "list_data" was read: a success exactly when the site maps to an array, which is returned; otherwise JSONException naming the site |
| V1Handler.GetOwners | src/main/java/com/andre601/javabotblockapi/RequestHandler.java:335-345 | the "owners" strings in order, or the first error |
| V1Handler.ShardZeroId | src/main/java/com/andre601/javabotblockapi/RequestHandler.java:79-81 | fails exactly when shard 0 is missing; otherwise its bot id |
| V1Handler.FailureLine | src/main/java/com/andre601/javabotblockapi/RequestHandler.java:987-999 | "Name: K, Error code: C, Error Message: M" for a well-formed entry, otherwise "Errors: " and the map's text |
| V1Handler.PostAnswer | src/main/java/com/andre601/javabotblockapi/RequestHandler.java:965-1006 | failures throw as classified; a success yields the "failure" object exactly when there is one |
| V1Handler.RequestHandler.constructor | src/main/java/com/andre601/javabotblockapi/RequestHandler.java:50-62 | no id, an empty body, a fresh scheduler |
| V1Handler.RequestHandler.PostRequest | src/main/java/com/andre601/javabotblockapi/RequestHandler.java:951-1008 | a missing or empty id is refused before sending; otherwise posts the accumulated body to "count" with the id as User-Agent |
| V1Handler.RequestHandler.PostShardGuilds | src/main/java/com/andre601/javabotblockapi/RequestHandler.java:79-96 | shard 0 must exist; the manager's fields and tokens are merged into the shared body; an empty shard id is refused, otherwise the body is posted to "count" and the answer decides the outcome as for PostRequest |
| V1Handler.RequestHandler.PostGuilds | src/main/java/com/andre601/javabotblockapi/RequestHandler.java:115-128 | the id becomes the JDA's; the JDA fields and tokens are merged into the shared body; an empty id is refused, otherwise the body is posted to "count" and the answer decides the outcome |
| V1Handler.RequestHandler.PostCountGuilds | src/main/java/com/andre601/javabotblockapi/RequestHandler.java:164-175 | an empty id is refused and changes nothing; otherwise id and count are merged into the shared body, which is posted to "count", and the answer decides the outcome |
| V1Handler.RequestHandler.PostCountGuildsById | src/main/java/com/andre601/javabotblockapi/RequestHandler.java:145-147 | the String overload on the decimal id: the body is always posted to "count" and the answer decides the outcome |
| V1Handler.RequestHandler.StartAutoPosting | src/main/java/com/andre601/javabotblockapi/RequestHandler.java:186-252 | schedules one task with the interval as both first delay and period |
| V1Handler.RequestHandler.StopAutoPosting | src/main/java/com/andre601/javabotblockapi/RequestHandler.java:257-259 | shuts the scheduler down and changes nothing else |
| V1Handler.ShardsOutliveTheirPost | src/main/java/com/andre601/javabotblockapi/RequestHandler.java:57 | after a ShardManager post, a post by id still sends the old "shards" array, because the body is never cleared |
| Payload.TokenFields | jda/src/main/java/org/botblock/javabotblockapi/jda/PostAction.java:249 | one string member per token, under the site key |
| Payload.PutTokens | jda/src/main/java/org/botblock/javabotblockapi/jda/PostAction.java:249 | putting every token yields the body merged with the token members |
| Payload.TokensMergedLast | jda/src/main/java/org/botblock/javabotblockapi/jda/PostAction.java:249 | a token wins over a fixed member of the same key; every other member stays |
| Payload.MergeInto | src/main/java/com/andre601/javabotblockapi/RequestHandler.java:93 | putting two maps in turn equals putting their merge |
| Payload.GuildCounts | jda/src/main/java/org/botblock/javabotblockapi/jda/PostAction.java:282-284 | one count per shard, in shard order |
| Payload.CollectGuildCounts | jda/src/main/java/org/botblock/javabotblockapi/jda/PostAction.java:282-284 | the loop collects exactly the counts GuildCounts specifies |
| Payload.JdaFields | jda/src/main/java/org/botblock/javabotblockapi/jda/PostAction.java:241-247 | guild count and bot id; shard id and count exactly when there is more than one shard |
| Payload.ShardManagerFields | jda/src/main/java/org/botblock/javabotblockapi/jda/PostAction.java:277-286 | exactly the four members; "shard_count" equals the length of "shards" |
| Payload.CountFields | request/src/main/java/org/botblock/javabotblockapi/requests/PostAction.java:261-263 | exactly guild count and bot id |
| Payload.JdaBody | jda/src/main/java/org/botblock/javabotblockapi/jda/PostAction.java:241-249 | the JDA members, then every token |
| Payload.ShardManagerBody | jda/src/main/java/org/botblock/javabotblockapi/jda/PostAction.java:277-287 | the ShardManager members, then every token |
| Payload.CountBody | request/src/main/java/org/botblock/javabotblockapi/requests/PostAction.java:261-265 | id and count, then every token |
| Payload.WrappedSum | javacord/src/main/java/org/botblock/javabotblockapi/javacord/PostAction.java:212 | the int sum of the stream is always an int |
| Payload.NarrowCongruent | javacord/src/main/java/org/botblock/javabotblockapi/javacord/PostAction.java:212 | values equal modulo 2^32 narrow to the same int |
| Payload.WrappedSumIsNarrowedSum | javacord/src/main/java/org/botblock/javabotblockapi/javacord/PostAction.java:212 | wrapping on each addition equals wrapping the exact sum once |
| Payload.ServerCounts | javacord/src/main/java/org/botblock/javabotblockapi/javacord/PostAction.java:216-218 | one server count per api, in order |
| Payload.CountsJson | javacord/src/main/java/org/botblock/javabotblockapi/javacord/PostAction.java:220 | the counts as JSON numbers, in order |
| Payload.JavacordFields | javacord/src/main/java/org/botblock/javabotblockapi/javacord/PostAction.java:206-223 | the first api's id; the wrapped total; shard members exactly when there are several apis |
| Payload.JavacordCountIsSumOfShards | javacord/src/main/java/org/botblock/javabotblockapi/javacord/PostAction.java:212-213 | below 2^31 the posted count is the exact sum |
| Payload.SumNonNegative | javacord/src/main/java/org/botblock/javabotblockapi/javacord/PostAction.java:212 | counts that are sizes sum to a non-negative number |
| Payload.JavacordCountOverflows | javacord/src/main/java/org/botblock/javabotblockapi/javacord/PostAction.java:211-213 | two apis of 2^31-1 servers post a negative count |
| Payload.CollectServerCounts | javacord/src/main/java/org/botblock/javabotblockapi/javacord/PostAction.java:216-218 | the loop collects exactly the counts CountsJson specifies |
| Scheduling.ShutdownAndWait | jda/src/main/java/org/botblock/javabotblockapi/jda/PostAction.java:157-167 | a time of 0 or less is refused and touches nothing; otherwise shut down and wait with that limit |
| JdaPostAction.PostAction.constructor | jda/src/main/java/org/botblock/javabotblockapi/jda/PostAction.java:80-89 | the agent built from the bot user; a fresh scheduler |
| JdaPostAction.PostAction.ForShardManager | jda/src/main/java/org/botblock/javabotblockapi/jda/PostAction.java:68-70 | refuses a missing shard 0; otherwise the agent of shard 0 |
| JdaPostAction.PostAction.DisableAutoPost | jda/src/main/java/org/botblock/javabotblockapi/jda/PostAction.java:102-104 | shuts down without waiting |
| JdaPostAction.PostAction.DisableAutoPostAfter | jda/src/main/java/org/botblock/javabotblockapi/jda/PostAction.java:157-167 | refuses a time of 0 or less; otherwise shuts down and waits |
| JdaPostAction.PostAction.DisableAutoPostFor | jda/src/main/java/org/botblock/javabotblockapi/jda/PostAction.java:127-134 | null shuts down only; a configuration waits its update delay |
| JdaPostAction.PostAction.EnableAutoPost | jda/src/main/java/org/botblock/javabotblockapi/jda/PostAction.java:187-195 | one task, first after 1 minute, then every delay |
| JdaPostAction.PostAction.EnableAutoPostForShards | jda/src/main/java/org/botblock/javabotblockapi/jda/PostAction.java:213-221 | one task with the delay as first delay and period |
| JdaPostAction.PostAction.PostGuilds | jda/src/main/java/org/botblock/javabotblockapi/jda/PostAction.java:240-252 | the JDA body plus tokens, sent with the token count as site count |
| JdaPostAction.PostAction.PostShardGuilds | jda/src/main/java/org/botblock/javabotblockapi/jda/PostAction.java:273-290 | refuses a missing shard 0; otherwise the ShardManager body plus tokens |
| JavacordPostAction.PostAction.constructor | javacord/src/main/java/org/botblock/javabotblockapi/javacord/PostAction.java:65-74 | the Javacord agent; a fresh scheduler |
| JavacordPostAction.PostAction.DisableAutoPost | javacord/src/main/java/org/botblock/javabotblockapi/javacord/PostAction.java:87-89 | shuts down without waiting |
| JavacordPostAction.PostAction.DisableAutoPostAfter | javacord/src/main/java/org/botblock/javabotblockapi/javacord/PostAction.java:138-148 | refuses a time of 0 or less; otherwise shuts down and waits |
| JavacordPostAction.PostAction.DisableAutoPostFor | javacord/src/main/java/org/botblock/javabotblockapi/javacord/PostAction.java:110-117 | null shuts down only; a configuration waits its update delay |
| JavacordPostAction.PostAction.EnableAutoPost | javacord/src/main/java/org/botblock/javabotblockapi/javacord/PostAction.java:171-181 | refuses no apis; otherwise one task, first after 1 minute |
| JavacordPostAction.PostAction.PostGuilds | javacord/src/main/java/org/botblock/javabotblockapi/javacord/PostAction.java:205-228 | refuses no apis; otherwise the Javacord body plus tokens |
| RequestPostAction.PostAction.New | request/src/main/java/org/botblock/javabotblockapi/requests/PostAction.java:81-87 | refuses an empty agent, then an empty id; the agent has "{id}" replaced |
| RequestPostAction.PostAction.WithDefaultAgent | request/src/main/java/org/botblock/javabotblockapi/requests/PostAction.java:63-65 | refuses an empty id; the default template with the id |
| RequestPostAction.PostAction.DisableAutoPost | request/src/main/java/org/botblock/javabotblockapi/requests/PostAction.java:100-102 | shuts down without waiting |
| RequestPostAction.PostAction.DisableAutoPostAfter | request/src/main/java/org/botblock/javabotblockapi/requests/PostAction.java:150-159 | refuses a time of 0 or less; otherwise shuts down and waits |
| RequestPostAction.PostAction.DisableAutoPostFor | request/src/main/java/org/botblock/javabotblockapi/requests/PostAction.java:122-129 | null shuts down only; a configuration waits its update delay |
| RequestPostAction.PostAction.EnableAutoPost | request/src/main/java/org/botblock/javabotblockapi/requests/PostAction.java:180-217 | one task with the delay as first delay and period |
| RequestPostAction.PostAction.PostGuilds | request/src/main/java/org/botblock/javabotblockapi/requests/PostAction.java:258-268 | refuses an empty id; otherwise id, count and tokens |
| RequestPostAction.PostAction.PostGuildsById | request/src/main/java/org/botblock/javabotblockapi/requests/PostAction.java:234-236 | always succeeds, on the decimal id |
| JdaModulePostAction.Agent | jda-module/src/main/java/org/botblock/javabotblockapi/jda/PostAction.java:70-77 | the agent is exactly name-discriminator/API_VERSION (JDA) DBots/<id>: both ends and the total length are fixed |
| JdaModulePostAction.PostAction.constructor | jda-module/src/main/java/org/botblock/javabotblockapi/jda/PostAction.java:70-77 | the agent of the bot user; its own fresh scheduler |
| JdaModulePostAction.PostAction.ForShardManager | jda-module/src/main/java/org/botblock/javabotblockapi/jda/PostAction.java:58-60 | refuses a missing shard 0 |
| JdaModulePostAction.PostAction.DisableAutoPost | jda-module/src/main/java/org/botblock/javabotblockapi/jda/PostAction.java:85-87 | shuts down without waiting |
| JdaModulePostAction.PostAction.EnableAutoPost | jda-module/src/main/java/org/botblock/javabotblockapi/jda/PostAction.java:107-115 | one task, first after 1 minute |
| JdaModulePostAction.PostAction.EnableAutoPostForShards | jda-module/src/main/java/org/botblock/javabotblockapi/jda/PostAction.java:133-141 | one task with the delay as first delay and period |
| JdaModulePostAction.PostAction.PostGuilds | jda-module/src/main/java/org/botblock/javabotblockapi/jda/PostAction.java:160-172 | the JDA body plus tokens |
| JdaModulePostAction.PostAction.PostShardGuilds | jda-module/src/main/java/org/botblock/javabotblockapi/jda/PostAction.java:193-210 | refuses a missing shard 0; otherwise the ShardManager body plus tokens |
| RequestModulePostAction.PostAction.New | request-module/src/main/java/org/botblock/javabotblockapi/requests/PostAction.java:70-75 | refuses an empty agent, then an empty id |
| RequestModulePostAction.PostAction.WithDefaultAgent | request-module/src/main/java/org/botblock/javabotblockapi/requests/PostAction.java:52-54 | refuses an empty id; the default template |
| RequestModulePostAction.PostAction.DisableAutoPost | request-module/src/main/java/org/botblock/javabotblockapi/requests/PostAction.java:80-82 | shuts down without waiting |
| RequestModulePostAction.PostAction.EnableAutoPost | request-module/src/main/java/org/botblock/javabotblockapi/requests/PostAction.java:97-128 | one task with the delay as first delay and period |
| RequestModulePostAction.PostAction.PostGuilds | request-module/src/main/java/org/botblock/javabotblockapi/requests/PostAction.java:164-172 | no id check: exactly count, id and the tokens |
| RequestModulePostAction.PostAction.PostGuildsById | request-module/src/main/java/org/botblock/javabotblockapi/requests/PostAction.java:145-147 | the String overload on the decimal id |
| V2PostAction.PostAction.constructor | src/main/java/org/botblock/javabotblockapi/requests/PostAction.java:51 | its own fresh scheduler |
| V2PostAction.PostAction.DisableAutoPost | src/main/java/org/botblock/javabotblockapi/requests/PostAction.java:57-59 | shuts down without waiting |
| V2PostAction.PostAction.EnableAutoPost | src/main/java/org/botblock/javabotblockapi/requests/PostAction.java:72-147 | one task with the delay as first delay and period |
| V2PostAction.PostAction.PostGuilds | src/main/java/org/botblock/javabotblockapi/requests/PostAction.java:166-178 | the JDA body plus tokens |
| V2PostAction.PostAction.PostShardGuilds | src/main/java/org/botblock/javabotblockapi/requests/PostAction.java:213-231 | refuses a missing shard 0; otherwise the ShardManager body plus tokens |
| V2PostAction.PostAction.PostCountGuilds | src/main/java/org/botblock/javabotblockapi/requests/PostAction.java:248-256 | no id check: count, id and tokens |
| V2PostAction.PostAction.PostCountGuildsById | src/main/java/org/botblock/javabotblockapi/requests/PostAction.java:195-197 | the String overload on the decimal id |
| V1PostAction.PostAction.constructor | src/main/java/com/andre601/javabotblockapi/requests/PostAction.java:39-45 | keeps the flag, which nothing reads |
| V1PostAction.PostAction.PostGuilds | src/main/java/com/andre601/javabotblockapi/requests/PostAction.java:64-76 | the JDA body plus tokens, sent without a site count |
| V1PostAction.PostAction.PostShardGuilds | src/main/java/com/andre601/javabotblockapi/requests/PostAction.java:111-129 | refuses a missing shard 0 |
| V1PostAction.PostAction.PostCountGuilds | src/main/java/com/andre601/javabotblockapi/requests/PostAction.java:146-154 | no id check: count, id and tokens |
| V1PostAction.PostAction.PostCountGuildsById | src/main/java/com/andre601/javabotblockapi/requests/PostAction.java:93-95 | the String overload on the decimal id |
| GetBot.Key | request/src/main/java/org/botblock/javabotblockapi/requests/GetBotAction.java:470-1000 | every getter reads a non-empty key |
| GetBot.KeysDistinct | request/src/main/java/org/botblock/javabotblockapi/requests/GetBotAction.java:470-1000 | no two getters read the same key, and none reads "server_count", "owners" or "list_data" |
| GetBot.Project | request/src/main/java/org/botblock/javabotblockapi/requests/GetBotAction.java:279-283 | null stays null, an error stays that error, an object is read |
| GetBot.SiteData | request/src/main/java/org/botblock/javabotblockapi/requests/GetBotAction.java:378-382 | JSONException naming "list_data" unless it is an object; then the site's array, or JSONException naming the site when it is not an array |
| GetBot.GetBotAction.Init | request/src/main/java/org/botblock/javabotblockapi/requests/GetBotAction.java:116-122 | keeps the flag; a fresh handler with empty caches |
| GetBot.GetBotAction.New | request/src/main/java/org/botblock/javabotblockapi/requests/GetBotAction.java:116-122 | refuses an empty agent, then an empty id; the agent has "{id}" replaced |
| GetBot.GetBotAction.WithDefaultAgent | request/src/main/java/org/botblock/javabotblockapi/requests/GetBotAction.java:65-94 | refuses an empty id; the versioned default template |
| GetBot.GetBotAction.GetBotInfo | request/src/main/java/org/botblock/javabotblockapi/requests/GetBotAction.java:227-231 | refuses an empty id without a lookup; otherwise the cached lookup |
| GetBot.GetBotAction.GetBotInfoById | request/src/main/java/org/botblock/javabotblockapi/requests/GetBotAction.java:170-172 | the cached lookup on the decimal id |
| GetBot.GetBotAction.GetBotListInfo | request/src/main/java/org/botblock/javabotblockapi/requests/GetBotAction.java:276-284 | "list_data" of the lookup, null if the lookup was |
| GetBot.GetBotAction.GetBotListInfoForSite | request/src/main/java/org/botblock/javabotblockapi/requests/GetBotAction.java:374-383 | the id check, then the GET check, both before any lookup; then the site's array |
| GetBot.GetBotAction.GetBotListInfoByIdForSite | request/src/main/java/org/botblock/javabotblockapi/requests/GetBotAction.java:311-315 | the GET check first |
| GetBot.GetBotAction.GetBotListInfoForName | request/src/main/java/org/botblock/javabotblockapi/requests/GetBotAction.java:410-419 | id and site must be non-empty; then the named array |
| GetBot.GetBotAction.GetText | request/src/main/java/org/botblock/javabotblockapi/requests/GetBotAction.java:470-478 | the field's string, null if the lookup was |
| GetBot.GetBotAction.GetServerCount | request/src/main/java/org/botblock/javabotblockapi/requests/GetBotAction.java:879-887 | the count read as an int, null if the lookup was |
| GetBot.GetBotAction.GetOwners | request/src/main/java/org/botblock/javabotblockapi/requests/GetBotAction.java:761-773 | an empty list for a null lookup; otherwise the owners in order |
| GetList.ApiKey | request-module/src/main/java/org/botblock/javabotblockapi/requests/GetListAction.java:893-960 | every constant's key starts with "api_" |
| GetList.ApiKeysDistinct | request-module/src/main/java/org/botblock/javabotblockapi/requests/GetListAction.java:893-960 | two constants share a key only if they are the same |
| GetList.KeysDistinct | request-module/src/main/java/org/botblock/javabotblockapi/requests/GetListAction.java:181-781 | the list getters read pairwise different keys, none of them a flag, API or "features"/"added" key |
| GetList.Checks | request-module/src/main/java/org/botblock/javabotblockapi/requests/GetListAction.java:130-162 | the id check, then for a site name the name check |
| GetList.New | request-module/src/main/java/org/botblock/javabotblockapi/requests/GetListAction.java:103-109 | refuses an empty agent, then an empty id; the agent has "{id}" replaced; an empty cache |
| GetList.WithDefaultAgent | request-module/src/main/java/org/botblock/javabotblockapi/requests/GetListAction.java:59-83 | refuses an empty id; the default template |
| GetList.GetList | request-module/src/main/java/org/botblock/javabotblockapi/requests/GetListAction.java:542-569 | refused checks make no request; a cached id is answered from the cache; otherwise the site's URL is fetched and the cache only grows |
| GetList.Lists | request-module/src/main/java/org/botblock/javabotblockapi/requests/GetListAction.java:375-379 | refuses an empty id; otherwise all lists, filtered on request |
| GetList.Read | request-module/src/main/java/org/botblock/javabotblockapi/requests/GetListAction.java:130-135 | null throws NullPointerException; an error stays; an object is read |
| GetList.Field | request-module/src/main/java/org/botblock/javabotblockapi/requests/GetListAction.java:130-162 | a getter's value: checks, lookup, then the read |
| GetList.FlagValue | request-module/src/main/java/org/botblock/javabotblockapi/requests/GetListAction.java:800-805 | true exactly when the number read is 1; fails exactly when there is no number |
| GetList.ValueAt | request-module/src/main/java/org/botblock/javabotblockapi/requests/GetListAction.java:130-135 | the value under a key of a fetched list |
| GetList.ApiFieldValue | request-module/src/main/java/org/botblock/javabotblockapi/requests/GetListAction.java:130-162 | the string under the constant's key, or the error |
| GetList.Text | request-module/src/main/java/org/botblock/javabotblockapi/requests/GetListAction.java:181-781 | the string under the field's key, or the error |
| GetList.Features | request-module/src/main/java/org/botblock/javabotblockapi/requests/GetListAction.java:328-358 | the "features" array, or the error |
| GetList.TimeAdded | request-module/src/main/java/org/botblock/javabotblockapi/requests/GetListAction.java:705-734 | the "added" number read as an int, or the error |
| GetList.IsSet | request-module/src/main/java/org/botblock/javabotblockapi/requests/GetListAction.java:800-877 | a flag holds exactly when it reads 1 |
| GetList.DiscordOnlyNamesTheId | request-module/src/main/java/org/botblock/javabotblockapi/requests/GetListAction.java:848-853 | the site overload of `isDiscordOnly` reports an empty id as "name may not be empty." |
| GetList.OverloadsAgree | request-module/src/main/java/org/botblock/javabotblockapi/requests/GetListAction.java:542-569 | a site and its identifier give the same lookup and value |
| GetList.CachedListAnswersEverySite | request-module/src/main/java/org/botblock/javabotblockapi/requests/GetListAction.java:542-589 | a cached id answers every site and `getFilteredLists` alike, without a request |
| V2GetList.ApiKey | src/main/java/org/botblock/javabotblockapi/requests/GetListAction.java:74 | the key is the lower-cased constant name |
| V2GetList.ApiKeysAgree | src/main/java/org/botblock/javabotblockapi/requests/GetListAction.java:641-685 | every constant reads the same key as its counterpart in the later module, and keys are distinct |
| V2GetList.LowerMatches | src/main/java/org/botblock/javabotblockapi/requests/GetListAction.java:641-685 | the lower-cased name of each constant is its key |
| V2GetList.Checks | src/main/java/org/botblock/javabotblockapi/requests/GetListAction.java:70-96 | the id check, then for a site name the name check |
| V2GetList.GetList | src/main/java/org/botblock/javabotblockapi/requests/GetListAction.java:380-401 | refused checks make no request; cached ids answer from the cache; otherwise the site URL is fetched |
| V2GetList.Lists | src/main/java/org/botblock/javabotblockapi/requests/GetListAction.java:255-259 | refuses an empty id; otherwise all lists |
| V2GetList.Field | src/main/java/org/botblock/javabotblockapi/requests/GetListAction.java:70-96 | a getter's value: checks, lookup, then the read |
| V2GetList.ApiFieldValue | src/main/java/org/botblock/javabotblockapi/requests/GetListAction.java:70-96 | the string under the lower-cased constant name |
| V2GetList.Text | src/main/java/org/botblock/javabotblockapi/requests/GetListAction.java:109-561 | the string under the field's key, or the error |
| V2GetList.Features | src/main/java/org/botblock/javabotblockapi/requests/GetListAction.java:220-244 | the "features" array, or the error |
| V2GetList.TimeAdded | src/main/java/org/botblock/javabotblockapi/requests/GetListAction.java:502-526 | the "added" number read as an int |
| V2GetList.IsSet | src/main/java/org/botblock/javabotblockapi/requests/GetListAction.java:574-633 | a flag holds exactly when it reads 1 |
| V2GetList.EmptyBodyThrows | src/main/java/org/botblock/javabotblockapi/requests/GetListAction.java:146-151 | an empty body throws out of a getter not answered from the cache |

## Left out

- HTTP transport (OkHttp): request building, headers, timeouts as clock behaviour, and reading the body. The response is a parameter of every operation that would send a request. What a request would carry is recorded only in part: a core or second-generation POST records its URL, body and timeout (`Http.PostCall`); a first-generation POST records its URL, User-Agent and body (`V1Handler.Request`); a core or second-generation lookup records only its URL (`Fetch.requested`); a first-generation lookup records nothing, so the id it sends as User-Agent does not appear. The core handler's User-Agent is its `userAgent` field, which is not copied into each request.
- Reading the body twice: the first generation calls `responseBody.string()` twice (`src/main/java/com/andre601/javabotblockapi/RequestHandler.java:838,842,851`, `:934,938,947` and `:969,973`). OkHttp closes the body after the first `string()`, so the second call throws `IllegalStateException("closed")`: as written, every successful first-generation lookup and every first-generation 429 throws that exception instead of returning the object or the rate-limit exception. The model follows the evident intent and reads the body text once.
- Building a JSON object from the body bean: `new JSONObject(responseBody)` is built from the `ResponseBody` object rather than its text, in the second generation (`src/main/java/org/botblock/javabotblockapi/requests/RequestHandler.java:173`) and the first (`src/main/java/com/andre601/javabotblockapi/RequestHandler.java:982`). The model takes the "failure" object from the parsed body text instead.
- Caffeine cache expiry after two minutes: it is time-based. The caches never evict, and concurrent loads are not modelled.
- Scheduler threads: the executor's threads, `TimeUnit`, `RejectedExecutionException` and the periodic runs themselves are left out. The scheduler records the `(initialDelay, period)` pairs it was given, whether it was shut down, and the limits it was asked to wait for. The logging inside scheduled tasks is left out.
- Logging and `printStackTrace`: left out, including the core handler's warning that lists the failed sites. The model exposes that list as the handler's result instead.
- Json.GetInt, Json.OptInt, Json.OptString: org.json is simplified. Numbers are integers narrowed to `int`, and floating-point values are not modelled. org.json's `getInt`/`optInt` also accept a string holding a number; here a string member is an error for `GetInt` and gives the fallback for `OptInt`. org.json's `optString(key, null)` returns the JSON text of an array or object member; here such a member gives `None`. Round-tripping the shard counts through `Arrays.deepToString` and `new JSONArray(String)` is taken to yield the list of counts.
- The order of a JSON object's members is not modelled, because a `JSONObject` is a hash map. Only the order of `keySet()` iteration in the failure loops is kept, as a parameter.
- V1Handler.FailureLine: `failure.toMap().toString()` is a parameter (`failureText`) and is not computed.
- CheckUtil.SupportsPost, CheckUtil.SupportsGet: the reflection lookup of the `@Get`/`@Post` annotations on the site's field is modelled by the list of methods each site was declared with. The core module calls `site.getSite()` and `site.name()` (`core/src/main/java/org/botblock/javabotblockapi/core/CheckUtil.java:82,101` and `core/src/main/java/org/botblock/javabotblockapi/core/BotBlockAPI.java:94`), but core `Site` is a class with `getName()` (`core/src/main/java/org/botblock/javabotblockapi/core/Site.java:380-382`). The model uses the one site-name function `Sites.Name` everywhere.
- The `CheckUtil` classes that `request-module` and the second generation import are not part of this model. They are taken to behave like the core module's `CheckUtil`.
- GetList.GetList, GetList.Lists: the request handler that `request-module` uses is not part of this model. Its lookups go through the `request` module's handler (`CoreHandler`), which reads a 429 body leniently and throws `RateLimitedException` (`RateLimited(ParseLenient(..))` in the model). `request-module` instead documents the strict `core.exceptions.RatelimitedException` for a rate limit (`request-module/src/main/java/org/botblock/javabotblockapi/requests/GetListAction.java:117,143,170` and `PostAction.java:22`). For a 429 body that lacks one of the four fields, that strict exception would fail to build with a JSONException; the model does not capture this.
- The older `Site` enums (`src/main/java/org/botblock/javabotblockapi/Site.java`, `src/main/java/com/andre601/javabotblockapi/Site.java`) are not part of this model. Code that takes one of them is modelled on the site's identifier string.
- The first generation's `requests.RequestHandler`, which its `PostAction` calls, is not part of this model. The first generation's post actions therefore pass no site count (`sites` is `None`).
- `Objects.requireNonNull` without a message, and a method called on a null `JSONObject` (as in `GetList.Read` when the lookup returned null): the resulting NullPointerException is modelled with the empty message "".
- The thin first- and second-generation GET classes (`GetAction`, `GetBotAction`, `GetBotActionImpl`) are not part of this model.
- GetBot.GetBotAction: of the `Long` overloads, only `getBotInfo(Long)` and `getBotListInfo(Long, Site)` have their own member. Every other `Long` overload is the String overload applied to `String.valueOf(id)`, as `Numbers.IntToString` renders it. `getBotListInfo(Long, String)` checks the site before the id, and a decimal id is never empty, so it behaves exactly like `GetBotListInfoForName`.
- GetBot.GetBotAction.GetOwners: the source fetches `getJSONArray("owners")` twice per iteration; the model reads it once, which gives the same values.
- The rate-limit exceptions' getters return the parsed fields unchanged. They are the fields of `RateLimitInfo`/`RatelimitInfo` and have no members of their own.
- RequestPostAction.PostAction.EnableAutoPost: the method's documentation promises a first post after one minute. The code uses the update delay as both the first delay and the period, and the model follows the code.
- The jda module's `enableAutoPost(jda, …)` and the Javacord module's task wrap `postGuilds`. The model records only their schedule parameters, not the posts the tasks would later make.
- Strings.ToLower: `String.toLowerCase()` uses the default locale, so under a Turkish locale "API_ALL" becomes "apı_all" (dotless ı). The model lower-cases ASCII letters only, as in a locale such as English.
