/** What the request handlers see of an HTTP exchange, and the loop that walks
    the "failure" object of a POST answer. */
module Http {
  import opened Errors
  import opened Json

  const BaseUrl: string := "https://botblock.org/api/"

  /** A response body: its text, and the object org.json builds from that text
      (None when the text is not a JSON object). */
  datatype Body = Body(text: string, parsed: Option<Object>)

  /** A response: status code, status message and body (None for a null body). */
  datatype Response = Response(code: int, message: string, body: Option<Body>)

  /** OkHttp's `isSuccessful()`. */
  predicate IsSuccessful(response: Response) {
    200 <= response.code < 300
  }

  /** The body is present and its text is not empty. */
  predicate HasContent(response: Response) {
    response.body.Some? && |response.body.value.text| > 0
  }

  /** `new JSONObject(text)`. */
  function ParseBody(body: Body): (r: Result<Object>)
    ensures r.Ok? <==> body.parsed.Some?
    ensures r.Ok? ==> r.value == body.parsed.value
  {
    if body.parsed.Some? then Ok(body.parsed.value) else Err(JsonError("text"))
  }

  /** A POST as sent: target, JSON body and the timeout (seconds) of the call. */
  datatype PostCall = PostCall(url: string, body: Object, timeout: int)

  /** `order` lists every key of `m` exactly once. */
  predicate Enumerates<V>(order: seq<string>, m: map<string, V>) {
    |order| == |m|
    && (forall i :: 0 <= i < |order| ==> order[i] in m)
    && (forall k :: k in m ==> k in order)
    && (forall i, j :: 0 <= i < j < |order| ==> order[i] != order[j])
  }

  /** `for (String key : failure.keySet()) out.add(entry(key, failure[key]))`:
      `order` is the order in which `keySet()` happened to yield the keys. */
  method ForEachKey<T>(failure: Object, entry: (string, Json) -> T) returns (order: seq<string>, out: seq<T>)
    ensures Enumerates(order, failure)
    ensures |out| == |order|
    ensures forall i :: 0 <= i < |order| ==> out[i] == entry(order[i], failure[order[i]])
  {
    var remaining := failure.Keys;
    order, out := [], [];
    while remaining != {}
      invariant remaining <= failure.Keys
      invariant forall k :: k in failure ==> (k in remaining <==> k !in order)
      invariant forall i :: 0 <= i < |order| ==> order[i] in failure
      invariant forall i, j :: 0 <= i < j < |order| ==> order[i] != order[j]
      invariant |order| + |remaining| == |failure.Keys|
      invariant |out| == |order|
      invariant forall i :: 0 <= i < |order| ==> out[i] == entry(order[i], failure[order[i]])
      decreases remaining
    {
      var k :| k in remaining;
      order := order + [k];
      out := out + [entry(k, failure[k])];
      remaining := remaining - {k};
    }
    assert |failure.Keys| == |failure|;
  }
}
