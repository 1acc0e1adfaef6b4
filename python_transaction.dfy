/**
 * The Python client's transaction batch (client/python/trailbase/transaction.py).
 * Operations are plain dictionaries, so the batch stores JSON values; the
 * request and response are dictionaries too.
 */
module PythonTransaction {
  import opened Wrappers
  import opened Json
  import Wire

  /** Member names of the `CreateOperation`/`UpdateOperation`/`DeleteOperation` typed dicts. */
  const Keys := Wire.Schema("ApiName", "Record", "Id", "Record", "RecordId")

  /** The dict literal `ApiBatch.create` builds. */
  function CreateDict(apiName: string, record: Record): Json {
    Obj(map["Create" := Obj(map["ApiName" := Str(apiName), "Record" := Obj(record)])])
  }

  /** The dict literal `ApiBatch.update` builds. */
  function UpdateDict(apiName: string, recordId: string, record: Record): Json {
    Obj(map["Update" := Obj(map["ApiName" := Str(apiName), "Id" := Str(recordId), "Record" := Obj(record)])])
  }

  /** The dict literal `ApiBatch.delete` builds. */
  function DeleteDict(apiName: string, recordId: string): Json {
    Obj(map["Delete" := Obj(map["ApiName" := Str(apiName), "RecordId" := Str(recordId)])])
  }

  /** The dict for a logical operation. */
  function OpDict(op: Wire.Op): Json {
    match op
    case Create(a, v) => CreateDict(a, v)
    case Update(a, id, v) => UpdateDict(a, id, v)
    case Delete(a, id) => DeleteDict(a, id)
  }

  /**
   * Each dict has the single key of its variant, the Python member names
   * inside, and reads back losslessly under those names.
   */
  lemma DictRoundTrip(op: Wire.Op)
    ensures HasExactly(OpDict(op), {Wire.Tag(op)})
    ensures HasExactly(OpDict(op).fields[Wire.Tag(op)], Wire.InnerNames(Keys, op))
    ensures Wire.Decode(Keys, OpDict(op)) == Some(op)
  {
    assert OpDict(op) == Wire.Encode(Keys, op);
    Wire.DecodeEncode(Keys, op);
  }

  /** `TransactionBatch`: `_operations` is the list `_add_operation` appends to. */
  class TransactionBatch {
    var operations: seq<Json>

    /** `__init__`: a new batch has no operations. */
    constructor ()
      ensures operations == []
    {
      operations := [];
    }

    method Api(apiName: string) returns (ab: ApiBatch)
      ensures fresh(ab) && ab.batch == this && ab.apiName == apiName
    {
      ab := new ApiBatch(this, apiName);
    }

    /** `_add_operation`: `list.append`, at the end. */
    method AddOperation(op: Json)
      modifies this
      ensures operations == old(operations) + [op]
    {
      operations := operations + [op];
    }

    /** The request `send` posts, `{"Operations": _operations}`: the same list, so the same order. */
    function Request(): (j: Json)
      reads this
      ensures HasExactly(j, {"Operations"}) && j.fields["Operations"] == Arr(operations)
    {
      Obj(map["Operations" := Arr(operations)])
    }
  }

  class ApiBatch {
    const batch: TransactionBatch
    const apiName: string

    constructor (batch: TransactionBatch, apiName: string)
      ensures this.batch == batch && this.apiName == apiName
    {
      this.batch := batch;
      this.apiName := apiName;
    }

    method Create(record: Record) returns (tb: TransactionBatch)
      modifies batch
      ensures tb == batch
      ensures batch.operations == old(batch.operations) + [OpDict(Wire.Create(apiName, record))]
    {
      batch.AddOperation(CreateDict(apiName, record));
      tb := batch;
    }

    method Update(recordId: string, record: Record) returns (tb: TransactionBatch)
      modifies batch
      ensures tb == batch
      ensures batch.operations == old(batch.operations) + [OpDict(Wire.Update(apiName, recordId, record))]
    {
      batch.AddOperation(UpdateDict(apiName, recordId, record));
      tb := batch;
    }

    method Delete(recordId: string) returns (tb: TransactionBatch)
      modifies batch
      ensures tb == batch
      ensures batch.operations == old(batch.operations) + [OpDict(Wire.Delete(apiName, recordId))]
    {
      batch.AddOperation(DeleteDict(apiName, recordId));
      tb := batch;
    }
  }

  const StatusOK := 200

  /**
   * What `send` raises: the exception for a status other than 200, a body
   * that `response.json()` cannot parse, and the `AttributeError` of calling
   * `.get` on a parsed value that is not a dict.
   */
  datatype SendError = TransactionFailed(status: int) | JsonDecodeError | NoGetAttribute

  /**
   * `send` after the request: raise unless the status is 200; otherwise
   * `result.get("Ids", [])`, whatever JSON value sits under `Ids`.
   */
  function SendResult(status: int, body: Option<Json>): (r: Result<Json, SendError>)
    ensures status != StatusOK ==> r == Failure(TransactionFailed(status))
    ensures r.Success? <==> status == StatusOK && body.Some? && body.value.Obj?
    ensures r.Success? ==>
      r.value == (if "Ids" in body.value.fields then body.value.fields["Ids"] else Arr([]))
  {
    if status != StatusOK then Failure(TransactionFailed(status))
    else match body
      case None => Failure(JsonDecodeError)
      case Some(Obj(fields)) => Success(if "Ids" in fields then fields["Ids"] else Arr([]))
      case Some(_) => Failure(NoGetAttribute)
  }
}
