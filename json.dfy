/**
  The parsed JSON document handed to the catalog code, and the four org.json
  accessors it uses. Each accessor either yields a value or raises a
  JSONException, modelled as the Err case of Result.
 */
module Json {

  import Numbers

  datatype JValue =
    | JNull
    | JBool(b: bool)
    | JInt(n: int)
    | JString(s: string)
    | JArray(elems: seq<JValue>)
    | JObject(fields: JsonObject)

  /** A JSONObject: names mapped to values. */
  type JsonObject = map<string, JValue>

  /** Why an accessor raised a JSONException. */
  datatype JsonException =
    | NoValue(name: string)
    | TypeMismatch(name: string)
    | IndexOutOfRange(index: int)

  datatype Result<+T> = Ok(value: T) | Err(error: JsonException) {

    predicate IsFailure() {
      Err?
    }

    function PropagateFailure<U>(): Result<U>
      requires Err?
    {
      Err(error)
    }

    function Extract(): T
      requires Ok?
    {
      value
    }
  }

  /** JSONObject.getString, restricted to string values. */
  function GetString(obj: JsonObject, name: string): Result<string>
  {
    if name !in obj then Err(NoValue(name))
    else if obj[name].JString? then Ok(obj[name].s)
    else Err(TypeMismatch(name))
  }

  /** JSONObject.getInt: the number narrowed to a Java int as Number.intValue() does. */
  function GetInt(obj: JsonObject, name: string): (r: Result<int>)
    ensures r.Ok? <==> name in obj && obj[name].JInt?
    ensures r.Ok? ==> Numbers.IsInt32(r.value)
    ensures r.Ok? && Numbers.IsInt32(obj[name].n) ==> r.value == obj[name].n
  {
    if name !in obj then Err(NoValue(name))
    else if obj[name].JInt? then Ok(Numbers.IntValue(obj[name].n))
    else Err(TypeMismatch(name))
  }

  /** JSONObject.getJSONObject. */
  function GetJsonObject(obj: JsonObject, name: string): Result<JsonObject>
  {
    if name !in obj then Err(NoValue(name))
    else if obj[name].JObject? then Ok(obj[name].fields)
    else Err(TypeMismatch(name))
  }

  /** JSONObject.getJSONArray. */
  function GetJsonArray(obj: JsonObject, name: string): Result<seq<JValue>>
  {
    if name !in obj then Err(NoValue(name))
    else if obj[name].JArray? then Ok(obj[name].elems)
    else Err(TypeMismatch(name))
  }

  /** JSONArray.getJSONObject: fails on an index out of range or a non-object element. */
  function GetJsonObjectAt(arr: seq<JValue>, index: int): Result<JsonObject>
  {
    if !(0 <= index < |arr|) then Err(IndexOutOfRange(index))
    else if arr[index].JObject? then Ok(arr[index].fields)
    else Err(TypeMismatch(""))
  }
}
