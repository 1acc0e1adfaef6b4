/**
 * The logical transaction operation shared by all four clients, and a strict
 * reference reader for the tagged-union wire form. The clients agree on the
 * outer tags "Create", "Update" and "Delete" but not on the member names
 * inside them; a `Schema` records one client's choice of names.
 */
module Wire {
  import opened Wrappers
  import opened Json

  /** One operation of a transaction, scoped to the record API `apiName`. */
  datatype Op =
    | Create(apiName: string, value: Record)
    | Update(apiName: string, recordId: string, value: Record)
    | Delete(apiName: string, recordId: string)

  const CreateTag := "Create"
  const UpdateTag := "Update"
  const DeleteTag := "Delete"

  /** The wire tag of an operation's variant. */
  function Tag(op: Op): string {
    match op
    case Create(_, _) => CreateTag
    case Update(_, _, _) => UpdateTag
    case Delete(_, _) => DeleteTag
  }

  /** Member names used inside the tag object by one client. */
  datatype Schema = Schema(
    apiName: string,
    createValue: string,
    updateId: string,
    updateValue: string,
    deleteId: string)

  /** Within each variant the member names differ, so no member hides another. */
  predicate Distinct(k: Schema) {
    && k.apiName != k.createValue
    && k.apiName != k.updateId && k.apiName != k.updateValue && k.updateId != k.updateValue
    && k.apiName != k.deleteId
  }

  /** The names an encoding of `op` under `k` carries inside its tag object. */
  function InnerNames(k: Schema, op: Op): set<string> {
    match op
    case Create(_, _) => {k.apiName, k.createValue}
    case Update(_, _, _) => {k.apiName, k.updateId, k.updateValue}
    case Delete(_, _) => {k.apiName, k.deleteId}
  }

  function StrAt(inner: Json, name: string): Option<string> {
    if inner.Obj? && name in inner.fields && inner.fields[name].Str?
    then Some(inner.fields[name].s) else None
  }

  function ObjAt(inner: Json, name: string): Option<Record> {
    if inner.Obj? && name in inner.fields && inner.fields[name].Obj?
    then Some(inner.fields[name].fields) else None
  }

  /**
   * Strict reader: exactly one tag, and inside it exactly the schema's member
   * names with a string for names and ids and an object for values.
   */
  function Decode(k: Schema, j: Json): (r: Option<Op>)
    ensures r.Some? ==> HasExactly(j, {Tag(r.value)})
    ensures r.Some? ==> HasExactly(j.fields[Tag(r.value)], InnerNames(k, r.value))
  {
    if HasExactly(j, {CreateTag}) then
      var inner := j.fields[CreateTag];
      if HasExactly(inner, {k.apiName, k.createValue})
         && StrAt(inner, k.apiName).Some? && ObjAt(inner, k.createValue).Some?
      then Some(Create(StrAt(inner, k.apiName).value, ObjAt(inner, k.createValue).value))
      else None
    else if HasExactly(j, {UpdateTag}) then
      var inner := j.fields[UpdateTag];
      if HasExactly(inner, {k.apiName, k.updateId, k.updateValue})
         && StrAt(inner, k.apiName).Some? && StrAt(inner, k.updateId).Some?
         && ObjAt(inner, k.updateValue).Some?
      then Some(Update(StrAt(inner, k.apiName).value, StrAt(inner, k.updateId).value,
                       ObjAt(inner, k.updateValue).value))
      else None
    else if HasExactly(j, {DeleteTag}) then
      var inner := j.fields[DeleteTag];
      if HasExactly(inner, {k.apiName, k.deleteId})
         && StrAt(inner, k.apiName).Some? && StrAt(inner, k.deleteId).Some?
      then Some(Delete(StrAt(inner, k.apiName).value, StrAt(inner, k.deleteId).value))
      else None
    else None
  }

  /** The encoding of `op` that `Decode(k, ·)` reads back: the reference writer. */
  function Encode(k: Schema, op: Op): Json {
    match op
    case Create(a, v) =>
      Obj(map[CreateTag := Obj(map[k.apiName := Str(a), k.createValue := Obj(v)])])
    case Update(a, id, v) =>
      Obj(map[UpdateTag := Obj(map[k.apiName := Str(a), k.updateId := Str(id), k.updateValue := Obj(v)])])
    case Delete(a, id) =>
      Obj(map[DeleteTag := Obj(map[k.apiName := Str(a), k.deleteId := Str(id)])])
  }

  /** Reading back the reference encoding is lossless whenever the schema's names are distinct. */
  lemma DecodeEncode(k: Schema, op: Op)
    requires Distinct(k)
    ensures Decode(k, Encode(k, op)) == Some(op)
  {
  }

  /** The reader accepts only reference encodings: `Encode` is its exact inverse on what it accepts. */
  lemma EncodeDecode(k: Schema, j: Json)
    requires Decode(k, j).Some?
    ensures Encode(k, Decode(k, j).value) == j
  {
    var op := Decode(k, j).value;
    var inner := j.fields[Tag(op)];
    match op
    case Create(a, v) =>
      assert inner.fields == map[k.apiName := Str(a), k.createValue := Obj(v)];
      assert j.fields == map[CreateTag := inner];
    case Update(a, id, v) =>
      assert inner.fields == map[k.apiName := Str(a), k.updateId := Str(id), k.updateValue := Obj(v)];
      assert j.fields == map[UpdateTag := inner];
    case Delete(a, id) =>
      assert inner.fields == map[k.apiName := Str(a), k.deleteId := Str(id)];
      assert j.fields == map[DeleteTag := inner];
  }
}
