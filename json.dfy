/** The slice of org.json the client uses: JSON values and the throwing
    (`getX`) and lenient (`optX`) accessors of `JSONObject` and `JSONArray`. */
module Json {
  import opened Errors
  import opened Numbers

  datatype Json =
    | JNull
    | JBool(b: bool)
    | JInt(i: int)
    | JStr(s: string)
    | JArr(items: seq<Json>)
    | JObj(fields: map<string, Json>)

  /** The members of a `JSONObject`. */
  type Object = map<string, Json>

  /** `getString(key)`: only a string value is accepted. */
  function GetString(o: Object, key: string): (r: Result<string>)
    ensures r.Ok? <==> key in o && o[key].JStr?
    ensures r.Ok? ==> o[key] == JStr(r.value)
    ensures r.Err? ==> r.error == JsonError(key)
  {
    if key in o && o[key].JStr? then Ok(o[key].s) else Err(JsonError(key))
  }

  /** `getInt(key)`: a number narrowed to `int` by `intValue()`. */
  function GetInt(o: Object, key: string): (r: Result<int>)
    ensures r.Ok? <==> key in o && o[key].JInt?
    ensures r.Ok? ==> r.value == ToInt32(o[key].i)
    ensures r.Err? ==> r.error == JsonError(key)
  {
    if key in o && o[key].JInt? then Ok(ToInt32(o[key].i)) else Err(JsonError(key))
  }

  /** `getJSONArray(key)`. */
  function GetArray(o: Object, key: string): (r: Result<seq<Json>>)
    ensures r.Ok? <==> key in o && o[key].JArr?
    ensures r.Ok? ==> o[key] == JArr(r.value)
    ensures r.Err? ==> r.error == JsonError(key)
  {
    if key in o && o[key].JArr? then Ok(o[key].items) else Err(JsonError(key))
  }

  /** `getJSONObject(key)`. */
  function GetObject(o: Object, key: string): (r: Result<Object>)
    ensures r.Ok? <==> key in o && o[key].JObj?
    ensures r.Ok? ==> o[key] == JObj(r.value)
    ensures r.Err? ==> r.error == JsonError(key)
  {
    if key in o && o[key].JObj? then Ok(o[key].fields) else Err(JsonError(key))
  }

  /** `optInt(key, fallback)`: a number narrowed to `int`, otherwise the fallback. */
  function OptInt(o: Object, key: string, fallback: int): (r: int)
    ensures key in o && o[key].JInt? ==> r == ToInt32(o[key].i)
    ensures !(key in o && o[key].JInt?) ==> r == fallback
  {
    if key in o && o[key].JInt? then ToInt32(o[key].i) else fallback
  }

  /** `optString(key, null)`: a missing key or JSON null gives `null`; scalars
      are rendered as text. */
  function OptString(o: Object, key: string): (r: Option<string>)
    ensures key !in o ==> r == None
    ensures key in o && o[key].JStr? ==> r == Some(o[key].s)
    ensures key in o && o[key].JInt? ==> r == Some(IntToString(o[key].i))
    ensures key in o && o[key].JBool? ==> r == Some(if o[key].b then "true" else "false")
    ensures key in o && (o[key].JNull? || o[key].JArr? || o[key].JObj?) ==> r == None
    ensures r.Some? ==> key in o && !o[key].JNull?
  {
    if key !in o then None
    else match o[key]
      case JStr(s) => Some(s)
      case JInt(i) => Some(IntToString(i))
      case JBool(b) => Some(if b then "true" else "false")
      case _ => None
  }

  /** `JSONArray.getString(index)`. */
  function ArrayGetString(a: seq<Json>, index: int): (r: Result<string>)
    ensures r.Ok? <==> 0 <= index < |a| && a[index].JStr?
    ensures r.Ok? ==> a[index] == JStr(r.value)
  {
    if 0 <= index < |a| && a[index].JStr? then Ok(a[index].s) else Err(JsonError(IntToString(index)))
  }

  /** `JSONArray.getInt(index)`. */
  function ArrayGetInt(a: seq<Json>, index: int): (r: Result<int>)
    ensures r.Ok? <==> 0 <= index < |a| && a[index].JInt?
    ensures r.Ok? ==> r.value == ToInt32(a[index].i)
  {
    if 0 <= index < |a| && a[index].JInt? then Ok(ToInt32(a[index].i)) else Err(JsonError(IntToString(index)))
  }

  /** The elements of an array read with `getString(i)` from the first on:
      the first element that is not a string throws. */
  function StringItems(items: seq<Json>): (r: Result<seq<string>>)
    ensures r.Ok? <==> forall i :: 0 <= i < |items| ==> items[i].JStr?
    ensures r.Ok? ==> |r.value| == |items| && forall i :: 0 <= i < |items| ==> items[i] == JStr(r.value[i])
    ensures r.Err? ==> exists i :: 0 <= i < |items| && !items[i].JStr? && r.error == JsonError(IntToString(i))
  {
    if |items| == 0 then Ok([])
    else
      var init := StringItems(items[..|items| - 1]);
      if init.Err? then init
      else if items[|items| - 1].JStr? then Ok(init.value + [items[|items| - 1].s])
      else Err(JsonError(IntToString(|items| - 1)))
  }

  /** Once a prefix fails, the whole array fails with the same error. */
  lemma {:induction false} FirstErrorStands(items: seq<Json>, n: nat)
    requires n <= |items| && StringItems(items[..n]).Err?
    ensures StringItems(items) == StringItems(items[..n])
    decreases |items| - n
  {
    if n < |items| {
      assert items[..n + 1][..n] == items[..n];
      FirstErrorStands(items, n + 1);
    } else {
      assert items[..n] == items;
    }
  }

  /** `for (int i = 0; i < array.length(); i++) list.add(array.getString(i))`. */
  method ReadStrings(items: seq<Json>) returns (r: Result<seq<string>>)
    ensures r == StringItems(items)
  {
    var strings := [];
    var i := 0;
    while i < |items|
      invariant 0 <= i <= |items|
      invariant StringItems(items[..i]) == Ok(strings)
    {
      var item := ArrayGetString(items, i);
      assert items[..i + 1][..i] == items[..i];
      if item.Err? {
        FirstErrorStands(items, i + 1);
        return Err(item.error);
      }
      strings := strings + [item.value];
      i := i + 1;
    }
    assert items[..i] == items;
    return Ok(strings);
  }
}
