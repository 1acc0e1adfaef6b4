/**
 * The C# client's transaction batch (client/dotnet/trailbase/TransactionApi.cs).
 * The abstract `Operation` with its three concrete subclasses is exactly the
 * logical `Wire.Op`; its static factories `Operation.Create`, `Update` and
 * `Delete` are the datatype's constructors. `OperationJsonConverter` gives the
 * wire form: `Write` emits it, `Read` reads it back.
 */
module DotnetTransaction {
  import opened Wrappers
  import opened Json
  import Wire
  import Seqs

  type Operation = Wire.Op

  /** Member names from the `JsonPropertyName` attributes and from `Write`. */
  const Keys := Wire.Schema("api_name", "value", "record_id", "value", "record_id")

  /** The `JsonException`s `Read` and the response decoding can throw. */
  datatype JsonException = NotAnObject | UnknownOperationType | PropertyTypeMismatch | MalformedJson

  /**
   * `OperationJsonConverter.Write`: one outer property named after the concrete
   * subclass, holding that subclass's members in the order `Write` writes them.
   */
  function Write(op: Operation): (j: Json)
    ensures HasExactly(j, {Wire.Tag(op)})
    ensures HasExactly(j.fields[Wire.Tag(op)], Wire.InnerNames(Keys, op))
  {
    match op
    case Create(a, v) =>
      Obj(map["Create" := Obj(map["api_name" := Str(a), "value" := Obj(v)])])
    case Update(a, id, v) =>
      Obj(map["Update" := Obj(map["api_name" := Str(a), "record_id" := Str(id), "value" := Obj(v)])])
    case Delete(a, id) =>
      Obj(map["Delete" := Obj(map["api_name" := Str(a), "record_id" := Str(id)])])
  }

  /**
   * A string property of a class deserialized by `JsonSerializer`: missing
   * keeps the initializer's default, a string is taken, anything else throws.
   */
  function StringProperty(fields: map<string, Json>, name: string): Result<string, JsonException> {
    if name !in fields then Success("")
    else if fields[name].Str? then Success(fields[name].s)
    else Failure(PropertyTypeMismatch)
  }

  /** The `Dictionary<string, object>` property `value`, defaulting to an empty dictionary. */
  function RecordProperty(fields: map<string, Json>, name: string): Result<Record, JsonException> {
    if name !in fields then Success(map[])
    else if fields[name].Obj? then Success(fields[name].fields)
    else Failure(PropertyTypeMismatch)
  }

  /**
   * `JsonSerializer.Deserialize<CreateOperation>` (and its two siblings) on the
   * element under the tag: `null` gives a null operation, an object gives the
   * subclass with unknown members ignored, any other token throws.
   */
  function DeserializeVariant(tag: string, elem: Json): Result<Option<Operation>, JsonException> {
    match elem
    case Null => Success(None)
    case Obj(fields) =>
      var api := StringProperty(fields, "api_name");
      if api.Failure? then Failure(api.error)
      else if tag == Wire.CreateTag then
        var value := RecordProperty(fields, "value");
        if value.Failure? then Failure(value.error)
        else Success(Some(Wire.Create(api.value, value.value)))
      else
        var id := StringProperty(fields, "record_id");
        if id.Failure? then Failure(id.error)
        else if tag == Wire.UpdateTag then
          var value := RecordProperty(fields, "value");
          if value.Failure? then Failure(value.error)
          else Success(Some(Wire.Update(api.value, id.value, value.value)))
        else Success(Some(Wire.Delete(api.value, id.value)))
    case _ => Failure(NotAnObject)
  }

  /**
   * `OperationJsonConverter.Read`: a non-object token throws; otherwise the
   * first of "Create", "Update", "Delete" present decides the variant, and
   * none of them present throws "Unknown operation type".
   */
  function Read(j: Json): (r: Result<Option<Operation>, JsonException>)
    ensures !j.Obj? ==> r == Failure(NotAnObject)
    ensures r.Success? && r.value.Some? ==>
      j.Obj? && Wire.Tag(r.value.value) in j.fields
      && (r.value.value.Update? ==> Wire.CreateTag !in j.fields)
      && (r.value.value.Delete? ==> Wire.CreateTag !in j.fields && Wire.UpdateTag !in j.fields)
    ensures r.Success? && r.value.None? ==>
      j.Obj? && exists t :: t in j.fields && t in {Wire.CreateTag, Wire.UpdateTag, Wire.DeleteTag} && j.fields[t] == Null
  {
    if !j.Obj? then Failure(NotAnObject)
    else if Wire.CreateTag in j.fields then DeserializeVariant(Wire.CreateTag, j.fields[Wire.CreateTag])
    else if Wire.UpdateTag in j.fields then DeserializeVariant(Wire.UpdateTag, j.fields[Wire.UpdateTag])
    else if Wire.DeleteTag in j.fields then DeserializeVariant(Wire.DeleteTag, j.fields[Wire.DeleteTag])
    else Failure(UnknownOperationType)
  }

  /** `Read(Write(op))` gives back the same kind, `ApiName`, `RecordId` and `Value`. */
  lemma ReadWrite(op: Operation)
    ensures Read(Write(op)) == Success(Some(op))
  {
  }

  /** `Read` throws on every token that does not start an object, and on an object carrying no known tag. */
  lemma ReadRejects(j: Json)
    ensures !j.Obj? ==> Read(j) == Failure(NotAnObject)
    ensures j.Obj? && Wire.CreateTag !in j.fields && Wire.UpdateTag !in j.fields && Wire.DeleteTag !in j.fields
      ==> Read(j) == Failure(UnknownOperationType)
  {
  }

  /**
   * Key priority: "Create" wins over "Update", which wins over "Delete"; the
   * other members of the outer object play no part.
   */
  lemma ReadPriority(j: Json)
    requires j.Obj?
    ensures Wire.CreateTag in j.fields ==>
      Read(j) == Read(Obj(map[Wire.CreateTag := j.fields[Wire.CreateTag]]))
    ensures Wire.CreateTag !in j.fields && Wire.UpdateTag in j.fields ==>
      Read(j) == Read(Obj(map[Wire.UpdateTag := j.fields[Wire.UpdateTag]]))
    ensures Wire.CreateTag !in j.fields && Wire.UpdateTag !in j.fields && Wire.DeleteTag in j.fields ==>
      Read(j) == Read(Obj(map[Wire.DeleteTag := j.fields[Wire.DeleteTag]]))
  {
  }

  /** Every document the strict reference reader accepts under the C# names, `Read` reads the same way. */
  lemma ReadAgreesWithReference(j: Json)
    requires Wire.Decode(Keys, j).Some?
    ensures Read(j) == Success(Some(Wire.Decode(Keys, j).value))
  {
    Wire.EncodeDecode(Keys, j);
    ReadWrite(Wire.Decode(Keys, j).value);
    WriteIsReference(Wire.Decode(Keys, j).value);
  }

  /** `Write` emits the reference encoding under the C# names. */
  lemma WriteIsReference(op: Operation)
    ensures Write(op) == Wire.Encode(Keys, op)
  {
  }

  /** The batch: `_operations` is the list `AddOperation` appends to. */
  class TransactionBatch {
    var operations: seq<Operation>

    constructor ()
      ensures operations == []
    {
      operations := [];
    }

    method Api(apiName: string) returns (ab: ApiBatch)
      ensures fresh(ab) && ab.batch == this && ab.apiName == apiName
    {
      ab := new ApiBatch(this, apiName);
    }

    /** `AddOperation`: `_operations.Add`, at the end. */
    method AddOperation(op: Operation)
      modifies this
      ensures operations == old(operations) + [op]
    {
      operations := operations + [op];
    }

    /** The `TransactionRequest` that `SendAsync` posts: `_operations` in order. */
    function RequestBody(): (j: Json)
      reads this
      ensures HasExactly(j, {"operations"}) && j.fields["operations"].Arr?
      ensures |j.fields["operations"].items| == |operations|
      ensures forall i :: 0 <= i < |operations| ==> j.fields["operations"].items[i] == Write(operations[i])
    {
      Obj(map["operations" := Arr(Seqs.Map(Write, operations))])
    }
  }

  /**
   * `ApiBatch`. `Update` and `Delete` take `recordId.ToString()`; the
   * `RecordId` type itself is not part of this model, so they take the string.
   */
  class ApiBatch {
    const batch: TransactionBatch
    const apiName: string

    constructor (batch: TransactionBatch, apiName: string)
      ensures this.batch == batch && this.apiName == apiName
    {
      this.batch := batch;
      this.apiName := apiName;
    }

    method Create(value: Record) returns (tb: TransactionBatch)
      modifies batch
      ensures tb == batch
      ensures batch.operations == old(batch.operations) + [Wire.Create(apiName, value)]
    {
      batch.AddOperation(Wire.Create(apiName, value));
      tb := batch;
    }

    method Update(recordId: string, value: Record) returns (tb: TransactionBatch)
      modifies batch
      ensures tb == batch
      ensures batch.operations == old(batch.operations) + [Wire.Update(apiName, recordId, value)]
    {
      batch.AddOperation(Wire.Update(apiName, recordId, value));
      tb := batch;
    }

    method Delete(recordId: string) returns (tb: TransactionBatch)
      modifies batch
      ensures tb == batch
      ensures batch.operations == old(batch.operations) + [Wire.Delete(apiName, recordId)]
    {
      batch.AddOperation(Wire.Delete(apiName, recordId));
      tb := batch;
    }
  }

  /** `List<string>` from a JSON array; every element must be a string. */
  function DecodeStrings(items: seq<Json>): (r: Option<seq<string>>)
    ensures r.Some? <==> forall i :: 0 <= i < |items| ==> items[i].Str?
    ensures r.Some? ==> |r.value| == |items| && forall i :: 0 <= i < |items| ==> items[i] == Str(r.value[i])
  {
    if items == [] then Some([])
    else if !items[0].Str? then None
    else match DecodeStrings(items[1..])
      case None => None
      case Some(rest) => Some([items[0].s] + rest)
  }

  /**
   * `SendAsync`'s handling of the response text: `result?.Ids ?? new List<string>()`.
   * A `null` document or a `null` / missing `ids` gives the empty list; other
   * members are ignored. `body` is `None` when the text is not JSON.
   */
  function SendResult(body: Option<Json>): (r: Result<seq<string>, JsonException>)
    ensures body.None? ==> r == Failure(MalformedJson)
    ensures body == Some(Null) ==> r == Success([])
    ensures body.Some? && !body.value.Null? && !body.value.Obj? ==> r == Failure(NotAnObject)
    ensures body.Some? && body.value.Obj? && ("ids" !in body.value.fields || body.value.fields["ids"] == Null)
      ==> r == Success([])
    ensures (body.Some? && body.value.Obj? && "ids" in body.value.fields
             && !body.value.fields["ids"].Null? && !body.value.fields["ids"].Arr?) ==> r.Failure?
    ensures body.Some? && body.value.Obj? && "ids" in body.value.fields && body.value.fields["ids"].Arr? ==>
      (r.Success? <==> forall i :: 0 <= i < |body.value.fields["ids"].items| ==> body.value.fields["ids"].items[i].Str?)
    ensures body.Some? && body.value.Obj? && "ids" in body.value.fields && body.value.fields["ids"].Arr? && r.Success? ==>
      |r.value| == |body.value.fields["ids"].items|
      && forall i :: 0 <= i < |r.value| ==> body.value.fields["ids"].items[i] == Str(r.value[i])
  {
    match body
    case None => Failure(MalformedJson)
    case Some(Null) => Success([])
    case Some(Obj(fields)) =>
      if "ids" !in fields || fields["ids"] == Null then Success([])
      else if !fields["ids"].Arr? then Failure(PropertyTypeMismatch)
      else
        (match DecodeStrings(fields["ids"].items)
         case None => Failure(PropertyTypeMismatch)
         case Some(ids) => Success(ids))
    case Some(_) => Failure(NotAnObject)
  }
}
