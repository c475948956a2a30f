/** org.json values: the JSON objects the source builds with JSONHelper, and the opt* readers. */
module Json {
  import opened Wrappers

  /** A JSON value; an object is an unordered map from member names to values, as in JSONObject. */
  datatype Json =
    | JNull
    | JBool(b: bool)
    | JInt(i: int)
    | JString(s: string)
    | JArray(items: seq<Json>)
    | JObject(members: map<string, Json>)

  /** new JSONObject() */
  const EmptyObject: Json := JObject(map[])

  /**
   * JSONHelper.putValue(object, key, value): the key now holds the value and
   * every other member is kept.
   */
  function Put(obj: Json, key: string, value: Json): (r: Json)
    requires obj.JObject?
    ensures r.JObject? && r.members.Keys == obj.members.Keys + {key} && r.members[key] == value
    ensures forall k :: k in obj.members && k != key ==> k in r.members && r.members[k] == obj.members[k]
  {
    JObject(obj.members[key := value])
  }

  /** JSONObject.optJSONArray(key): the array held by the key, null if absent or not an array. */
  function OptArray(j: Json, key: string): (r: Option<seq<Json>>)
    ensures r.Some? <==> j.JObject? && key in j.members && j.members[key].JArray?
    ensures r.Some? ==> j.members[key] == JArray(r.value)
  {
    if j.JObject? && key in j.members && j.members[key].JArray? then Some(j.members[key].items) else None
  }

  /** JSONObject.optJSONObject(key): the object held by the key, null if absent or not an object. */
  function OptObject(j: Json, key: string): (r: Option<Json>)
    ensures r.Some? <==> j.JObject? && key in j.members && j.members[key].JObject?
    ensures r.Some? ==> r.value == j.members[key]
  {
    if j.JObject? && key in j.members && j.members[key].JObject? then Some(j.members[key]) else None
  }

  /** JSONArray.optJSONObject(index): the object at the index, null if out of range or not an object. */
  function OptObjectAt(items: seq<Json>, index: int): (r: Option<Json>)
    ensures r.Some? <==> 0 <= index < |items| && items[index].JObject?
    ensures r.Some? ==> r.value == items[index]
  {
    if 0 <= index < |items| && items[index].JObject? then Some(items[index]) else None
  }
}
