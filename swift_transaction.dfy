/**
 * The Swift client's transaction batch
 * (client/swift/trailbase/Sources/TrailBase/Transaction.swift): an `Operation`
 * struct with three optional variants, each variant struct with its own
 * coding keys, the batch class and the per-API handle. Record values, which
 * the source holds as `AnyCodable`, are abstract JSON here.
 */
module SwiftTransaction {
  import opened Wrappers
  import opened Json
  import Wire
  import Seqs

  datatype CreateOperation = CreateOperation(apiName: string, record: Record)
  datatype UpdateOperation = UpdateOperation(apiName: string, id: string, record: Record)
  datatype DeleteOperation = DeleteOperation(apiName: string, recordId: string)

  /** `Operation`: nothing prevents several variants (or none) from being set at once. */
  datatype Operation = Operation(
    create: Option<CreateOperation>,
    update: Option<UpdateOperation>,
    delete: Option<DeleteOperation>)

  /** Member names from the variant structs' `CodingKeys`. */
  const Keys := Wire.Schema("api_name", "record", "id", "record", "record_id")

  function EncodeCreate(c: CreateOperation): Json {
    Obj(map["api_name" := Str(c.apiName), "record" := Obj(c.record)])
  }

  function EncodeUpdate(u: UpdateOperation): Json {
    Obj(map["api_name" := Str(u.apiName), "id" := Str(u.id), "record" := Obj(u.record)])
  }

  function EncodeDelete(d: DeleteOperation): Json {
    Obj(map["api_name" := Str(d.apiName), "record_id" := Str(d.recordId)])
  }

  /** The variants that are set, and nothing else. */
  function PresentTags(o: Operation): set<string> {
    (if o.create.Some? then {Wire.CreateTag} else {})
    + (if o.update.Some? then {Wire.UpdateTag} else {})
    + (if o.delete.Some? then {Wire.DeleteTag} else {})
  }

  /**
   * The synthesized `Encodable` conformance of `Operation`: each optional is
   * written under its coding key only when it is set, so nil variants are
   * absent rather than `null`.
   */
  function Encode(o: Operation): (j: Json)
    ensures HasExactly(j, PresentTags(o))
    ensures o.create.Some? ==> j.fields[Wire.CreateTag] == EncodeCreate(o.create.value)
    ensures o.update.Some? ==> j.fields[Wire.UpdateTag] == EncodeUpdate(o.update.value)
    ensures o.delete.Some? ==> j.fields[Wire.DeleteTag] == EncodeDelete(o.delete.value)
  {
    Obj((if o.create.Some? then map[Wire.CreateTag := EncodeCreate(o.create.value)] else map[])
      + (if o.update.Some? then map[Wire.UpdateTag := EncodeUpdate(o.update.value)] else map[])
      + (if o.delete.Some? then map[Wire.DeleteTag := EncodeDelete(o.delete.value)] else map[]))
  }

  /** Exactly one variant is set. */
  predicate SingleVariant(o: Operation) {
    |PresentTags(o)| == 1
  }

  /** The struct that `ApiBatch.create`/`update`/`delete` builds for a logical operation. */
  function FromOp(op: Wire.Op): (o: Operation)
    ensures PresentTags(o) == {Wire.Tag(op)}
  {
    match op
    case Create(a, v) => Operation(Some(CreateOperation(a, v)), None, None)
    case Update(a, id, v) => Operation(None, Some(UpdateOperation(a, id, v)), None)
    case Delete(a, id) => Operation(None, None, Some(DeleteOperation(a, id)))
  }

  /**
   * An operation built by `ApiBatch` encodes under a single tag with the Swift
   * member names, and reads back losslessly under those names.
   */
  lemma EncodeRoundTrip(op: Wire.Op)
    ensures HasExactly(Encode(FromOp(op)), {Wire.Tag(op)})
    ensures Encode(FromOp(op)) == Wire.Encode(Keys, op)
    ensures Wire.Decode(Keys, Encode(FromOp(op))) == Some(op)
  {
    Wire.DecodeEncode(Keys, op);
  }

  /** The inner member names of each variant. */
  lemma InnerKeys(c: CreateOperation, u: UpdateOperation, d: DeleteOperation)
    ensures HasExactly(EncodeCreate(c), {"api_name", "record"})
    ensures HasExactly(EncodeUpdate(u), {"api_name", "id", "record"})
    ensures HasExactly(EncodeDelete(d), {"api_name", "record_id"})
  {
  }

  /** `TransactionBatch`: `operations` is the array `addOperation` appends to. */
  class TransactionBatch {
    var operations: seq<Operation>

    constructor ()
      ensures operations == []
    {
      operations := [];
    }

    method Api(apiName: string) returns (ab: ApiBatch)
      ensures fresh(ab) && ab.batch == this && ab.apiName == apiName
    {
      ab := new ApiBatch(this, apiName);
    }

    method AddOperation(op: Operation)
      modifies this
      ensures operations == old(operations) + [op]
    {
      operations := operations + [op];
    }

    /** The `TransactionRequest` that `send` encodes: the operations in append order. */
    function RequestBody(): (j: Json)
      reads this
      ensures HasExactly(j, {"operations"}) && j.fields["operations"].Arr?
      ensures |j.fields["operations"].items| == |operations|
      ensures forall i :: 0 <= i < |operations| ==> j.fields["operations"].items[i] == Encode(operations[i])
    {
      Obj(map["operations" := Arr(Seqs.Map(Encode, operations))])
    }
  }

  class ApiBatch {
    const batch: TransactionBatch
    const apiName: string

    constructor (batch: TransactionBatch, apiName: string)
      ensures this.batch == batch && this.apiName == apiName
    {
      this.batch := batch;
      this.apiName := apiName;
    }

    method Create(record: Record) returns (tb: TransactionBatch)
      modifies batch
      ensures tb == batch
      ensures batch.operations == old(batch.operations) + [FromOp(Wire.Create(apiName, record))]
      ensures SingleVariant(batch.operations[|batch.operations| - 1])
    {
      batch.AddOperation(Operation(Some(CreateOperation(apiName, record)), None, None));
      tb := batch;
    }

    method Update(recordId: string, record: Record) returns (tb: TransactionBatch)
      modifies batch
      ensures tb == batch
      ensures batch.operations == old(batch.operations) + [FromOp(Wire.Update(apiName, recordId, record))]
      ensures SingleVariant(batch.operations[|batch.operations| - 1])
    {
      batch.AddOperation(Operation(None, Some(UpdateOperation(apiName, recordId, record)), None));
      tb := batch;
    }

    method Delete(recordId: string) returns (tb: TransactionBatch)
      modifies batch
      ensures tb == batch
      ensures batch.operations == old(batch.operations) + [FromOp(Wire.Delete(apiName, recordId))]
      ensures SingleVariant(batch.operations[|batch.operations| - 1])
    {
      batch.AddOperation(Operation(None, None, Some(DeleteOperation(apiName, recordId))));
      tb := batch;
    }
  }

  /** The `DecodingError` cases `JSONDecoder` raises for `TransactionResponse`. */
  datatype DecodingError = DataCorrupted | KeyNotFound | ValueNotFound | TypeMismatch

  function DecodeStrings(items: seq<Json>): (r: Result<seq<string>, DecodingError>)
    ensures r.Success? <==> forall i :: 0 <= i < |items| ==> items[i].Str?
    ensures r.Success? ==> |r.value| == |items| && forall i :: 0 <= i < |items| ==> items[i] == Str(r.value[i])
  {
    if items == [] then Success([])
    else if items[0].Null? then Failure(ValueNotFound)
    else if !items[0].Str? then Failure(TypeMismatch)
    else match DecodeStrings(items[1..])
      case Failure(e) => Failure(e)
      case Success(rest) => Success([items[0].s] + rest)
  }

  /**
   * `send` after the request: a `null` document has no keyed container, the
   * synthesized decoding of `TransactionResponse` requires the key `ids` (its default value plays no part in decoding),
   * ignores other members, and the ids are returned unchanged. `body` is
   * `None` when the data is not JSON.
   */
  function SendResult(body: Option<Json>): (r: Result<seq<string>, DecodingError>)
    ensures body.None? ==> r == Failure(DataCorrupted)
    ensures body == Some(Null) ==> r == Failure(ValueNotFound)
    ensures body.Some? && !body.value.Null? && !body.value.Obj? ==> r == Failure(TypeMismatch)
    ensures body.Some? && body.value.Obj? && "ids" !in body.value.fields ==> r == Failure(KeyNotFound)
    ensures body.Some? && body.value.Obj? && "ids" in body.value.fields && body.value.fields["ids"] == Null
      ==> r == Failure(ValueNotFound)
    ensures r.Success? ==>
      (body.Some? && body.value.Obj? && "ids" in body.value.fields
       && body.value.fields["ids"] == Arr(Seqs.Map(s => Str(s), r.value)))
  {
    match body
    case None => Failure(DataCorrupted)
    case Some(Obj(fields)) =>
      if "ids" !in fields then Failure(KeyNotFound)
      else if fields["ids"].Null? then Failure(ValueNotFound)
      else if !fields["ids"].Arr? then Failure(TypeMismatch)
      else DecodeStrings(fields["ids"].items)
    case Some(Null) => Failure(ValueNotFound)
    case Some(_) => Failure(TypeMismatch)
  }

  /** A response whose `ids` is an array of strings yields exactly those ids. */
  lemma SendReturnsIds(ids: seq<string>, others: map<string, Json>)
    ensures SendResult(Some(Obj(others["ids" := Arr(Seqs.Map(s => Str(s), ids))]))) == Success(ids)
  {
    var items := Seqs.Map(s => Str(s), ids);
    var r := DecodeStrings(items);
    assert r.Success?;
    assert r.value == ids;
  }
}
