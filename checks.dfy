/** The guard helpers of the core module (`CheckUtil`). Each returns normally
    or throws the exception a caller propagates. */
module CheckUtil {
  import opened Errors
  import Sites

  /** `notEmpty(String, name)`: an empty string is refused with a NullPointerException. */
  function NotEmpty(value: string, name: string): (r: Outcome)
    ensures r.Fail? <==> |value| == 0
    ensures r.Fail? ==> r.error == NullPointer(name + " may not be empty.")
  {
    if |value| == 0 then Fail(NullPointer(name + " may not be empty.")) else Pass
  }

  /** `notEmpty(Map, name)`. */
  function NotEmptyMap<K, V>(value: map<K, V>, name: string): (r: Outcome)
    ensures r.Fail? <==> |value| == 0
    ensures r.Fail? ==> r.error == NullPointer(name + " may not be empty.")
  {
    if |value| == 0 then Fail(NullPointer(name + " may not be empty.")) else Pass
  }

  /** `condition(expression, message)`: a true expression throws IllegalStateException. */
  function Condition(expression: bool, message: string): (r: Outcome)
    ensures r.Fail? <==> expression
    ensures r.Fail? ==> r.error == IllegalState(message)
  {
    if expression then Fail(IllegalState(message)) else Pass
  }

  /** `supportsPost(site)`: a site without POST support is refused. */
  function SupportsPost(site: Sites.Site): (r: Outcome)
    ensures r.Pass? <==> Sites.Post in Sites.Methods(site)
    ensures r.Fail? ==> r.error == IllegalState(Sites.Name(site) + " does not support POST!")
  {
    Condition(!Sites.SupportsPost(site), Sites.Name(site) + " does not support POST!")
  }

  /** `supportsGet(site)`: a site without GET support is refused. */
  function SupportsGet(site: Sites.Site): (r: Outcome)
    ensures r.Pass? <==> Sites.Get in Sites.Methods(site)
    ensures r.Fail? ==> r.error == IllegalState(Sites.Name(site) + " does not support GET!")
  {
    Condition(!Sites.SupportsGet(site), Sites.Name(site) + " does not support GET!")
  }
}

/** The guard helpers of the first generation (`Check`), which also reject a
    `null` argument; `None` stands for `null`. */
module Check {
  import opened Errors

  /** `notNull(target, msg)`. */
  function NotNull<T>(target: Option<T>, msg: string): (r: Outcome)
    ensures r.Fail? <==> target.None?
    ensures r.Fail? ==> r.error == NullPointer(msg)
  {
    if target.None? then Fail(NullPointer(msg)) else Pass
  }

  /** `notEmpty(CharSequence, msg)`: null and empty are refused with the same message. */
  function NotEmpty(arguments: Option<string>, msg: string): (r: Outcome)
    ensures r.Pass? <==> arguments.Some? && |arguments.value| > 0
    ensures r.Fail? ==> r.error == NullPointer(msg)
  {
    if arguments.None? then NotNull(arguments, msg)
    else if |arguments.value| == 0 then Fail(NullPointer(msg))
    else Pass
  }

  /** `notEmpty(Map, msg)`. */
  function NotEmptyMap<K, V>(m: Option<map<K, V>>, msg: string): (r: Outcome)
    ensures r.Pass? <==> m.Some? && |m.value| > 0
    ensures r.Fail? ==> r.error == NullPointer(msg)
  {
    if m.None? then NotNull(m, msg)
    else if |m.value| == 0 then Fail(NullPointer(msg))
    else Pass
  }
}

/** A `java.util.HashMap<String, String>` of bot-list tokens, keyed by site
    identifier. It is a heap object because the builders hand the same map to
    the configuration they build. */
module TokenMaps {

  class TokenMap {
    var entries: map<string, string>

    /** `new HashMap<>()` filled with `entries`. */
    constructor (entries: map<string, string>)
      ensures this.entries == entries
    {
      this.entries := entries;
    }

    /** `put(key, value)`: adds the entry or overwrites the key's old value. */
    method Put(key: string, value: string)
      modifies this
      ensures entries == old(entries)[key := value]
      ensures key in entries && entries[key] == value
      ensures forall k :: k in old(entries) ==> k in entries
    {
      entries := entries[key := value];
    }
  }
}
