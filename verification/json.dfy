/** Decoded JSON values, as `json.loads` hands them to Python, with the two
    operations the server-reply decoder applies to the top-level value:
    `key in root` and `root[key]`. */
module Json {
  import opened Wrappers
  import opened Text

  /** A decoded JSON value. `null` decodes to Python's `None`, so `JNull` also
      stands for an attribute the decoder sets to `None`. */
  datatype Json =
    | JNull
    | JBool(b: bool)
    | JNumber(n: real)
    | JString(s: string)
    | JArray(items: seq<Json>)
    | JObject(fields: map<string, Json>)

  /** Python's `key in root`: a dictionary tests its keys, a list its
      elements, a string its substrings; numbers, booleans and `None` raise
      a TypeError. */
  function HasKey(root: Json, key: string): (r: Result<bool, Exception>)
    requires |key| > 0
    ensures r.Failure? <==> root.JNull? || root.JBool? || root.JNumber?
    ensures r.Failure? ==> r.error == TypeError
    ensures root.JObject? ==> r == Success(key in root.fields)
    ensures root.JArray? ==> r == Success(JString(key) in root.items)
    ensures root.JString? ==> (r == Success(true) <==> exists j :: 0 <= j <= |root.s| && OccursAt(root.s, key, j))
  {
    match root
    case JObject(fields) => Success(key in fields)
    case JArray(items) => Success(JString(key) in items)
    case JString(s) => Success(Find(s, key) < |s|)
    case _ => Failure(TypeError)
  }

  /** Python's `root[key]` with a string key: a dictionary yields the value
      or raises a KeyError naming the key; every other value raises a
      TypeError (lists and strings need integer indices). */
  function Lookup(root: Json, key: string): (r: Result<Json, Exception>)
    ensures r.Success? <==> root.JObject? && key in root.fields
    ensures r.Success? ==> r.value == root.fields[key]
    ensures r.Failure? && root.JObject? ==> r.error == KeyError(key)
    ensures r.Failure? && !root.JObject? ==> r.error == TypeError
  {
    match root
    case JObject(fields) => if key in fields then Success(fields[key]) else Failure(KeyError(key))
    case _ => Failure(TypeError)
  }
}
