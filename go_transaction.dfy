/**
 * The Go client's transaction batch (client/go/trailbase/transaction_api.go):
 * the `Operation` struct with its `MarshalJSON` wrapper, the batch that
 * appends operations in call order, the per-API handle, and the handling of
 * the response that `Send` receives.
 */
module GoTransaction {
  import opened Wrappers
  import opened Json
  import Wire
  import Seqs

  /**
   * Go's `Operation` struct. `opType` is the `Type` field, which is not
   * serialized itself but selects the wrapper variant; a nil `Value` map is `None`.
   */
  datatype Operation = Operation(opType: string, apiName: string, recordId: string, value: Option<Record>)

  /** Member names inside the Go wrapper's variants. */
  const Keys := Wire.Schema("api_name", "value", "record_id", "value", "record_id")

  /** The anonymous inner structs of `MarshalJSON`'s wrapper. */
  datatype CreateBody = CreateBody(apiName: string, value: Option<Record>)
  datatype UpdateBody = UpdateBody(apiName: string, recordId: string, value: Option<Record>)
  datatype DeleteBody = DeleteBody(apiName: string, recordId: string)

  /** The wrapper struct: three pointers, each tagged `omitempty`, so a nil one is left out. */
  datatype Wrapper = Wrapper(create: Option<CreateBody>, update: Option<UpdateBody>, delete: Option<DeleteBody>)

  /** `value` has no `omitempty` inside the wrapper, so a nil map marshals as `null`. */
  function ValueJson(v: Option<Record>): Json {
    match v
    case None => Null
    case Some(m) => Obj(m)
  }

  function MarshalCreate(b: CreateBody): Json {
    Obj(map["api_name" := Str(b.apiName), "value" := ValueJson(b.value)])
  }

  function MarshalUpdate(b: UpdateBody): Json {
    Obj(map["api_name" := Str(b.apiName), "record_id" := Str(b.recordId), "value" := ValueJson(b.value)])
  }

  function MarshalDelete(b: DeleteBody): Json {
    Obj(map["api_name" := Str(b.apiName), "record_id" := Str(b.recordId)])
  }

  /** `json.Marshal(wrapper)`: every non-nil pointer becomes one member. */
  function MarshalWrapper(w: Wrapper): Json {
    Obj((if w.create.Some? then map[Wire.CreateTag := MarshalCreate(w.create.value)] else map[])
      + (if w.update.Some? then map[Wire.UpdateTag := MarshalUpdate(w.update.value)] else map[])
      + (if w.delete.Some? then map[Wire.DeleteTag := MarshalDelete(w.delete.value)] else map[]))
  }

  /** The `switch o.Type` of `MarshalJSON`: at most one pointer is set. */
  function WrapperFor(o: Operation): Wrapper {
    if o.opType == Wire.CreateTag then
      Wrapper(Some(CreateBody(o.apiName, o.value)), None, None)
    else if o.opType == Wire.UpdateTag then
      Wrapper(None, Some(UpdateBody(o.apiName, o.recordId, o.value)), None)
    else if o.opType == Wire.DeleteTag then
      Wrapper(None, None, Some(DeleteBody(o.apiName, o.recordId)))
    else
      Wrapper(None, None, None)
  }

  predicate KnownType(t: string) {
    t == Wire.CreateTag || t == Wire.UpdateTag || t == Wire.DeleteTag
  }

  /**
   * `Operation.MarshalJSON`: an object with the single member named by `Type`,
   * or the empty object when `Type` is none of the three.
   */
  function MarshalJSON(o: Operation): (j: Json)
    ensures j.Obj?
    ensures KnownType(o.opType) ==> HasExactly(j, {o.opType})
    ensures !KnownType(o.opType) ==> j == Obj(map[])
  {
    MarshalWrapper(WrapperFor(o))
  }

  /** The members inside the single tag, for each of the three types. */
  lemma MarshalInner(o: Operation)
    ensures o.opType == Wire.CreateTag ==>
      HasExactly(MarshalJSON(o).fields[Wire.CreateTag], {"api_name", "value"})
    ensures o.opType == Wire.UpdateTag ==>
      HasExactly(MarshalJSON(o).fields[Wire.UpdateTag], {"api_name", "record_id", "value"})
    ensures o.opType == Wire.DeleteTag ==>
      HasExactly(MarshalJSON(o).fields[Wire.DeleteTag], {"api_name", "record_id"})
    ensures KnownType(o.opType) ==> MarshalJSON(o).fields[o.opType].fields["api_name"] == Str(o.apiName)
    ensures o.opType != Wire.CreateTag && KnownType(o.opType) ==>
      MarshalJSON(o).fields[o.opType].fields["record_id"] == Str(o.recordId)
    ensures o.opType != Wire.DeleteTag && KnownType(o.opType) ==>
      MarshalJSON(o).fields[o.opType].fields["value"] == ValueJson(o.value)
  {
  }

  /** The struct that `ApiBatch.Create`/`Update`/`Delete` builds for a logical operation. */
  function FromOp(op: Wire.Op): Operation {
    match op
    case Create(a, v) => Operation(Wire.CreateTag, a, "", Some(v))
    case Update(a, id, v) => Operation(Wire.UpdateTag, a, id, Some(v))
    case Delete(a, id) => Operation(Wire.DeleteTag, a, id, None)
  }

  /** What the Go client sends for an operation built by `ApiBatch` reads back losslessly under its own names. */
  lemma MarshalRoundTrip(op: Wire.Op)
    ensures MarshalJSON(FromOp(op)) == Wire.Encode(Keys, op)
    ensures Wire.Decode(Keys, MarshalJSON(FromOp(op))) == Some(op)
  {
    Wire.DecodeEncode(Keys, op);
  }

  /** A batch of operations; `operations` is the slice `addOperation` appends to. */
  class TransactionBatch {
    var operations: seq<Operation>

    constructor ()
      ensures operations == []
    {
      operations := [];
    }

    /** `API`: a handle that forwards to this very batch. */
    method API(apiName: string) returns (ab: ApiBatch)
      ensures fresh(ab) && ab.batch == this && ab.apiName == apiName
    {
      ab := new ApiBatch(this, apiName);
    }

    /** `addOperation`: appends one operation at the end. */
    method AddOperation(op: Operation)
      modifies this
      ensures operations == old(operations) + [op]
    {
      operations := operations + [op];
    }

    /** The `TransactionRequest` that `Send` marshals: the operations, in stored order. */
    function RequestBody(): (j: Json)
      reads this
      ensures HasExactly(j, {"operations"}) && j.fields["operations"].Arr?
      ensures |j.fields["operations"].items| == |operations|
      ensures forall i :: 0 <= i < |operations| ==> j.fields["operations"].items[i] == MarshalJSON(operations[i])
    {
      Obj(map["operations" := Arr(Seqs.Map(MarshalJSON, operations))])
    }
  }

  /** `ApiBatch`: the parent batch and the API name every operation it appends carries. */
  class ApiBatch {
    const batch: TransactionBatch
    const apiName: string

    constructor (batch: TransactionBatch, apiName: string)
      ensures this.batch == batch && this.apiName == apiName
    {
      this.batch := batch;
      this.apiName := apiName;
    }

    method Create(value: Option<Record>) returns (tb: TransactionBatch)
      modifies batch
      ensures tb == batch
      ensures batch.operations == old(batch.operations) + [Operation(Wire.CreateTag, apiName, "", value)]
    {
      batch.AddOperation(Operation(Wire.CreateTag, apiName, "", value));
      tb := batch;
    }

    method Update(recordId: string, value: Option<Record>) returns (tb: TransactionBatch)
      modifies batch
      ensures tb == batch
      ensures batch.operations == old(batch.operations) + [Operation(Wire.UpdateTag, apiName, recordId, value)]
    {
      batch.AddOperation(Operation(Wire.UpdateTag, apiName, recordId, value));
      tb := batch;
    }

    method Delete(recordId: string) returns (tb: TransactionBatch)
      modifies batch
      ensures tb == batch
      ensures batch.operations == old(batch.operations) + [Operation(Wire.DeleteTag, apiName, recordId, None)]
    {
      batch.AddOperation(Operation(Wire.DeleteTag, apiName, recordId, None));
      tb := batch;
    }
  }

  /**
   * Appends through API handles, as the multiple-operations test does: three
   * calls give three operations tagged Create, Update, Delete in call order,
   * even when the handles name different APIs.
   */
  method InterleavedAppends(tb: TransactionBatch, api1: string, api2: string, value: Record, id1: string, id2: string)
    modifies tb
    ensures |tb.operations| == |old(tb.operations)| + 3
    ensures tb.operations[..|old(tb.operations)|] == old(tb.operations)
    ensures tb.operations[|old(tb.operations)|..] == [
      Operation(Wire.CreateTag, api1, "", Some(value)),
      Operation(Wire.UpdateTag, api2, id1, Some(value)),
      Operation(Wire.DeleteTag, api1, id2, None)]
  {
    var a := tb.API(api1);
    var b := tb.API(api2);
    var t1 := a.Create(Some(value));
    var t2 := b.Update(id1, Some(value));
    var t3 := a.Delete(id2);
    assert t1 == t2 == t3 == tb;
  }

  const StatusOK := 200

  datatype SendError = UnexpectedStatus(code: int) | DecodeFailed

  /**
   * Elements of a JSON array decoded into `[]string`: a string is taken as is,
   * `null` leaves the element's zero value "", anything else is an error.
   */
  function DecodeStrings(items: seq<Json>): (r: Option<seq<string>>)
    ensures r.Some? <==> forall i :: 0 <= i < |items| ==> items[i].Str? || items[i].Null?
    ensures r.Some? ==> |r.value| == |items|
    ensures r.Some? ==> forall i :: 0 <= i < |items| ==>
      r.value[i] == (if items[i].Str? then items[i].s else "")
  {
    if items == [] then Some([])
    else
      var head := if items[0].Str? then Some(items[0].s) else if items[0].Null? then Some("") else None;
      match (head, DecodeStrings(items[1..]))
      case (Some(h), Some(rest)) => Some([h] + rest)
      case _ => None
  }

  /** The `ids` member decoded into a `[]string`, `None` standing for a nil slice. */
  function DecodeIds(j: Json): Result<Option<seq<string>>, SendError> {
    match j
    case Null => Success(None)
    case Arr(items) =>
      (match DecodeStrings(items)
       case Some(ids) => Success(Some(ids))
       case None => Failure(DecodeFailed))
    case _ => Failure(DecodeFailed)
  }

  /**
   * Strict decoding of `TransactionResponse` (`DisallowUnknownFields`): only the
   * member `ids` is allowed; `null` decodes to the zero value.
   */
  function DecodeResponse(body: Json): (r: Result<Option<seq<string>>, SendError>)
    ensures body.Obj? && !(body.fields.Keys <= {"ids"}) ==> r == Failure(DecodeFailed)
    ensures r == Success(None) <==>
      body.Null? || (body.Obj? && (body.fields.Keys == {} || body.fields == map["ids" := Null]))
    ensures r.Success? && r.value.Some? ==>
      body.Obj? && body.fields.Keys == {"ids"} && body.fields["ids"].Arr?
      && DecodeStrings(body.fields["ids"].items) == r.value
  {
    match body
    case Null => Success(None)
    case Obj(fields) =>
      if !(fields.Keys <= {"ids"}) then Failure(DecodeFailed)
      else if "ids" in fields then DecodeIds(fields["ids"])
      else Success(None)
    case _ => Failure(DecodeFailed)
  }

  /**
   * What `Send` returns once the request has been answered: an error on any
   * status except 200 or on a body that does not strictly decode, and
   * otherwise the ids, a nil list becoming the empty one. `body` is `None`
   * when the response is not a JSON document at all.
   */
  function SendResult(status: int, body: Option<Json>): (r: Result<seq<string>, SendError>)
    ensures status != StatusOK ==> r == Failure(UnexpectedStatus(status))
    ensures r.Success? <==> status == StatusOK && body.Some? && DecodeResponse(body.value).Success?
    ensures r.Success? ==> r.value == DecodeResponse(body.value).value.GetOr([])
  {
    if status != StatusOK then Failure(UnexpectedStatus(status))
    else if body.None? then Failure(DecodeFailed)
    else match DecodeResponse(body.value)
      case Failure(e) => Failure(e)
      case Success(ids) => Success(ids.GetOr([]))
  }

  /** A 200 response carrying an array of strings yields exactly those ids, in order. */
  lemma SendReturnsIds(ids: seq<string>)
    ensures SendResult(StatusOK, Some(Obj(map["ids" := Arr(Seqs.Map(s => Str(s), ids))])))
         == Success(ids)
  {
    var items := Seqs.Map(s => Str(s), ids);
    var r := DecodeStrings(items);
    assert r.Some?;
    assert r.value == ids;
  }

  /** Missing or null ids decode to the empty list, never to an error. */
  lemma SendNilIdsIsEmpty()
    ensures SendResult(StatusOK, Some(Obj(map[]))) == Success([])
    ensures SendResult(StatusOK, Some(Obj(map["ids" := Null]))) == Success([])
  {
  }

  /** Any member besides `ids` makes the whole response fail, with no ids. */
  lemma SendRejectsUnknownField(fields: map<string, Json>, name: string)
    requires name in fields && name != "ids"
    ensures SendResult(StatusOK, Some(Obj(fields))) == Failure(DecodeFailed)
  {
  }
}
