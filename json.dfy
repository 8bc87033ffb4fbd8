/**
 * The value `json.load` produces from the sites file: the parse itself is not
 * modelled, only its result. A JSON object becomes a Python dict, so it is a
 * map from keys to values (a repeated key keeps its last value, as in Python).
 */
module Json {

  datatype Value =
    | Null
    | Bool(b: bool)
    | Number(n: int)
    | Str(s: string)
    | Array(items: seq<Value>)
    | Object(members: map<string, Value>)

  /** An object that holds both a `name` key and a `url` key. */
  predicate IsSiteObject(v: Value) {
    v.Object? && "name" in v.members && "url" in v.members
  }

  /** The value under the `name` key of an entry that passed the shape check. */
  function Name(v: Value): Value
    requires IsSiteObject(v)
  {
    v.members["name"]
  }

  /** The value under the `url` key of an entry that passed the shape check. */
  function Url(v: Value): Value
    requires IsSiteObject(v)
  {
    v.members["url"]
  }

  /** The dict `{"name": name, "url": url}` that the add rule appends. */
  function SiteEntry(name: string, url: string): (v: Value)
    ensures IsSiteObject(v) && Name(v) == Str(name) && Url(v) == Str(url)
    ensures v.members.Keys == {"name", "url"}
  {
    Object(map["name" := Str(name), "url" := Str(url)])
  }
}
