/**
 * An abstract JSON document tree. Objects are maps from member names to
 * values, so a member name occurs at most once; numbers are kept abstract.
 */
module Json {

  datatype Json =
    | Null
    | Bool(b: bool)
    | Num(n: int)
    | Str(s: string)
    | Arr(items: seq<Json>)
    | Obj(fields: map<string, Json>)

  /** A schema-flexible record payload: the members of one JSON object. */
  type Record = map<string, Json>

  /** `j` is an object whose member names are exactly `names`. */
  predicate HasExactly(j: Json, names: set<string>) {
    j.Obj? && j.fields.Keys == names
  }
}
