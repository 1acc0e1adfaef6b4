/**
 * How the four clients' wire forms relate. Go and C# emit the same document
 * for every operation; Swift agrees with them only on Delete; the Python
 * member names agree with none of the others.
 */
module WireCompat {
  import opened Wrappers
  import opened Json
  import Wire
  import GoTransaction
  import DotnetTransaction
  import SwiftTransaction
  import PythonTransaction

  /** Go's `MarshalJSON` and C#'s `Write` produce identical documents. */
  lemma GoMatchesDotnet(op: Wire.Op)
    ensures GoTransaction.MarshalJSON(GoTransaction.FromOp(op)) == DotnetTransaction.Write(op)
  {
    GoTransaction.MarshalRoundTrip(op);
    DotnetTransaction.WriteIsReference(op);
  }

  /** A reader using the Go/C# names accepts a Swift document exactly when it is a Delete. */
  lemma SwiftReadableAsGo(op: Wire.Op)
    ensures Wire.Decode(GoTransaction.Keys, SwiftTransaction.Encode(SwiftTransaction.FromOp(op))).Some?
        <==> op.Delete?
  {
    SwiftTransaction.EncodeRoundTrip(op);
    if op.Delete? {
      Wire.DecodeEncode(GoTransaction.Keys, op);
    } else {
      var j := SwiftTransaction.Encode(SwiftTransaction.FromOp(op));
      var inner := j.fields[Wire.Tag(op)];
      assert "record" in inner.fields && "record" !in Wire.InnerNames(GoTransaction.Keys, op);
    }
  }

  /** No Python dict is readable with the Go/C# names. */
  lemma PythonNotReadableAsGo(op: Wire.Op)
    ensures Wire.Decode(GoTransaction.Keys, PythonTransaction.OpDict(op)).None?
  {
    var j := PythonTransaction.OpDict(op);
    var inner := j.fields[Wire.Tag(op)];
    assert "ApiName" in inner.fields && "ApiName" !in Wire.InnerNames(GoTransaction.Keys, op);
  }
}
