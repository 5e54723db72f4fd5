/** JSON values and the merge of section 2 of RFC 7396. */
module MergePatch {

  datatype Json =
    | JNull
    | JBool(b: bool)
    | JNumber(n: int)
    | JString(text: string)
    | JArray(items: seq<Json>)
    | JObject(fields: map<string, Json>)

  /** A null in the patch removes a field, another value is merged into the field of that name, and a patch
      that is not an object replaces the target. */
  function Merge(target: Json, patch: Json): Json
    decreases patch
  {
    if patch.JObject? then
      var fields := if target.JObject? then target.fields else map[];
      JObject(map name | name in fields.Keys + patch.fields.Keys && !(name in patch.fields && patch.fields[name].JNull?) ::
        if name in patch.fields then
          Merge(if name in fields then fields[name] else JNull, patch.fields[name])
        else
          fields[name])
    else
      patch
  }
}
