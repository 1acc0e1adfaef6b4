/**
 * Record ids as text (crates/core/src/util.rs): 16-byte ids and UUIDs are
 * written in base64 with the URL- and filename-safe alphabet of section 5 of
 * RFC 4648, padded with '='. Decoding is canonical: padding is required and
 * the unused bits of the last symbol must be zero.
 */
module IdCodec {
  import opened Wrappers
  import opened Bytes

  /** A 6-bit value, the payload of one base64 symbol. */
  type sextet = x: int | 0 <= x < 64

  /** `[u8; 16]`. */
  type Id = s: seq<byte> | |s| == 16 witness [0, 0, 0, 0, 0, 0, 0, 0, 0, 0, 0, 0, 0, 0, 0, 0]

  /** `Uuid`, with `into_bytes` as the field and `from_bytes` as the constructor. */
  datatype Uuid = Uuid(bytes: Id)

  const Pad := '='

  /** The URL-safe alphabet: `A-Z a-z 0-9 - _`. */
  predicate IsUrlSafeSymbol(c: char) {
    ('A' <= c <= 'Z') || ('a' <= c <= 'z') || ('0' <= c <= '9') || c == '-' || c == '_'
  }

  function Symbol(v: sextet): (c: char)
    ensures IsUrlSafeSymbol(c)
  {
    if v < 26 then ('A' as int + v) as char
    else if v < 52 then ('a' as int + (v - 26)) as char
    else if v < 62 then ('0' as int + (v - 52)) as char
    else if v == 62 then '-'
    else '_'
  }

  function SymbolValue(c: char): (r: Option<sextet>)
    ensures r.Some? <==> IsUrlSafeSymbol(c)
    ensures r.Some? ==> Symbol(r.value) == c
  {
    if 'A' <= c <= 'Z' then Some(c as int - 'A' as int)
    else if 'a' <= c <= 'z' then Some(c as int - 'a' as int + 26)
    else if '0' <= c <= '9' then Some(c as int - '0' as int + 52)
    else if c == '-' then Some(62)
    else if c == '_' then Some(63)
    else None
  }

  lemma SymbolValueOfSymbol(v: sextet)
    ensures SymbolValue(Symbol(v)) == Some(v)
  {
  }

  /** Three bytes as four symbols. */
  function EncodeGroup(b0: byte, b1: byte, b2: byte): string {
    [Symbol(b0 / 4), Symbol(b0 % 4 * 16 + b1 / 16), Symbol(b1 % 16 * 4 + b2 / 64), Symbol(b2 % 64)]
  }

  /** Padded base64url encoding (the `encode` of the `BASE64_URL_SAFE` engine). */
  function Base64Encode(b: seq<byte>): (r: string)
    ensures |r| == (|b| + 2) / 3 * 4
    decreases |b|
  {
    if |b| == 0 then ""
    else if |b| == 1 then [Symbol(b[0] / 4), Symbol(b[0] % 4 * 16), Pad, Pad]
    else if |b| == 2 then [Symbol(b[0] / 4), Symbol(b[0] % 4 * 16 + b[1] / 16), Symbol(b[1] % 16 * 4), Pad]
    else
      GroupCount(|b|);
      EncodeGroup(b[0], b[1], b[2]) + Base64Encode(b[3..])
  }

  /** One more group of three bytes adds four characters. */
  lemma GroupCount(n: nat)
    requires n >= 3
    ensures (n + 2) / 3 * 4 == (n - 3 + 2) / 3 * 4 + 4
  {
  }

  /** Four symbol values as three bytes. */
  function DecodeValues(v0: sextet, v1: sextet, v2: sextet, v3: sextet): seq<byte> {
    [v0 * 4 + v1 / 16, v1 % 16 * 16 + v2 / 4, v2 % 4 * 64 + v3]
  }

  /** A quad with no padding. */
  function DecodeFullQuad(c0: char, c1: char, c2: char, c3: char): Option<seq<byte>> {
    var v0, v1, v2, v3 := SymbolValue(c0), SymbolValue(c1), SymbolValue(c2), SymbolValue(c3);
    if v0.Some? && v1.Some? && v2.Some? && v3.Some?
    then Some(DecodeValues(v0.value, v1.value, v2.value, v3.value))
    else None
  }

  /** The last quad: "xxxx", "xxx=" or "xx==", the bits that padding drops being zero. */
  function DecodeLastQuad(c0: char, c1: char, c2: char, c3: char): Option<seq<byte>> {
    var v0, v1 := SymbolValue(c0), SymbolValue(c1);
    if v0.None? || v1.None? then None
    else if c2 == Pad && c3 == Pad then
      if v1.value % 16 == 0 then Some([v0.value * 4 + v1.value / 16]) else None
    else if c2 == Pad then None
    else
      var v2 := SymbolValue(c2);
      if v2.None? then None
      else if c3 == Pad then
        if v2.value % 4 == 0 then Some([v0.value * 4 + v1.value / 16, v1.value % 16 * 16 + v2.value / 4])
        else None
      else DecodeFullQuad(c0, c1, c2, c3)
  }

  /**
   * Canonical padded base64url decoding; `None` is the crate's `DecodeError`
   * (bad symbol, bad length, bad padding or non-zero trailing bits).
   */
  function Base64Decode(s: string): (r: Option<seq<byte>>)
    ensures r.Some? ==> |s| % 4 == 0 && 4 * |r.value| <= 3 * |s|
    ensures r.Some? && |s| > 0 ==> 4 * |r.value| >= 3 * |s| - 8
    decreases |s|
  {
    if |s| == 0 then Some([])
    else if |s| < 4 then None
    else if |s| == 4 then DecodeLastQuad(s[0], s[1], s[2], s[3])
    else match (DecodeFullQuad(s[0], s[1], s[2], s[3]), Base64Decode(s[4..]))
      case (Some(q), Some(rest)) => Some(q + rest)
      case _ => None
  }

  lemma GroupRoundTrip(b0: byte, b1: byte, b2: byte)
    ensures DecodeValues(b0 / 4, b0 % 4 * 16 + b1 / 16, b1 % 16 * 4 + b2 / 64, b2 % 64) == [b0, b1, b2]
  {
  }

  lemma PairRoundTrip(b0: byte, b1: byte)
    ensures (b1 % 16 * 4) % 4 == 0
    ensures (b0 / 4) * 4 + (b0 % 4 * 16 + b1 / 16) / 16 == b0
    ensures (b0 % 4 * 16 + b1 / 16) % 16 * 16 + (b1 % 16 * 4) / 4 == b1
  {
  }

  /** The test vectors "", "f", "fo" and "foo" of section 10 of RFC 4648. */
  lemma FooVectors()
    ensures Base64Encode([]) == ""
    ensures Base64Encode([0x66]) == "Zg=="
    ensures Base64Encode([0x66, 0x6F]) == "Zm8="
    ensures Base64Encode([0x66, 0x6F, 0x6F]) == "Zm9v"
  {
  }

  /** The encodings of "b", "ba" and "bar", the tails of the longer vectors. */
  lemma BarTails()
    ensures Base64Encode([0x62]) == "Yg=="
    ensures Base64Encode([0x62, 0x61]) == "YmE="
    ensures Base64Encode([0x62, 0x61, 0x72]) == "YmFy"
  {
  }

  /** The test vectors of section 10 of RFC 4648, on which both alphabets agree. */
  lemma Rfc4648Vectors()
    ensures Base64Encode([]) == ""
    ensures Base64Encode([0x66]) == "Zg=="
    ensures Base64Encode([0x66, 0x6F]) == "Zm8="
    ensures Base64Encode([0x66, 0x6F, 0x6F]) == "Zm9v"
    ensures Base64Encode([0x66, 0x6F, 0x6F, 0x62]) == "Zm9vYg=="
    ensures Base64Encode([0x66, 0x6F, 0x6F, 0x62, 0x61]) == "Zm9vYmE="
    ensures Base64Encode([0x66, 0x6F, 0x6F, 0x62, 0x61, 0x72]) == "Zm9vYmFy"
  {
    FooVectors();
    BarTails();
    var foo: seq<byte> := [0x66, 0x6F, 0x6F];
    assert Base64Encode(foo + [0x62]) == EncodeGroup(0x66, 0x6F, 0x6F) + Base64Encode([0x62]);
    assert Base64Encode(foo + [0x62, 0x61]) == EncodeGroup(0x66, 0x6F, 0x6F) + Base64Encode([0x62, 0x61]);
    assert Base64Encode(foo + [0x62, 0x61, 0x72]) == EncodeGroup(0x66, 0x6F, 0x6F) + Base64Encode([0x62, 0x61, 0x72]);
  }

  /** Every encoded character is a URL-safe symbol or padding; in particular never '+' or '/'. */
  lemma {:induction false} EncodeAlphabet(b: seq<byte>)
    ensures forall i :: 0 <= i < |Base64Encode(b)| ==>
      IsUrlSafeSymbol(Base64Encode(b)[i]) || Base64Encode(b)[i] == Pad
    decreases |b|
  {
    if |b| >= 3 {
      EncodeAlphabet(b[3..]);
      var g, rest := EncodeGroup(b[0], b[1], b[2]), Base64Encode(b[3..]);
      assert Base64Encode(b) == g + rest;
      forall i | 0 <= i < |g + rest|
        ensures IsUrlSafeSymbol((g + rest)[i]) || (g + rest)[i] == Pad
      {
        if i >= |g| { assert (g + rest)[i] == rest[i - |g|]; }
      }
    }
  }

  lemma SingleRoundTrip(b0: byte)
    ensures (b0 % 4 * 16) % 16 == 0
    ensures (b0 / 4) * 4 + (b0 % 4 * 16) / 16 == b0
  {
  }

  /** The last quad the encoder writes for two bytes decodes back to them. */
  lemma OnePadQuad(b0: byte, b1: byte)
    ensures DecodeLastQuad(Symbol(b0 / 4), Symbol(b0 % 4 * 16 + b1 / 16), Symbol(b1 % 16 * 4), Pad) == Some([b0, b1])
  {
    SymbolValueOfSymbol(b0 / 4);
    SymbolValueOfSymbol(b0 % 4 * 16 + b1 / 16);
    SymbolValueOfSymbol(b1 % 16 * 4);
    PairRoundTrip(b0, b1);
  }

  /** The last quad the encoder writes for one byte decodes back to it. */
  lemma TwoPadQuad(b0: byte)
    ensures DecodeLastQuad(Symbol(b0 / 4), Symbol(b0 % 4 * 16), Pad, Pad) == Some([b0])
  {
    SymbolValueOfSymbol(b0 / 4);
    SymbolValueOfSymbol(b0 % 4 * 16);
    SingleRoundTrip(b0);
  }

  /** Text of one quad is decoded as the last quad. */
  lemma DecodeOneQuad(e: string)
    requires |e| == 4
    ensures Base64Decode(e) == DecodeLastQuad(e[0], e[1], e[2], e[3])
  {
  }

  /** The encoder writes one byte as two symbols and two padding characters. */
  lemma EncodeOne(x: byte)
    ensures Base64Encode([x]) == [Symbol(x / 4), Symbol(x % 4 * 16), Pad, Pad]
  {
  }

  /** The encoder writes two bytes as three symbols and one padding character. */
  lemma EncodeTwo(x: byte, y: byte)
    ensures Base64Encode([x, y]) == [Symbol(x / 4), Symbol(x % 4 * 16 + y / 16), Symbol(y % 16 * 4), Pad]
  {
  }

  lemma OneByteRoundTrip(b: seq<byte>)
    requires |b| == 1
    ensures Base64Decode(Base64Encode(b)) == Some(b)
  {
    var x := b[0];
    assert b == [x];
    EncodeOne(x);
    TwoPadQuad(x);
    DecodeOneQuad(Base64Encode([x]));
  }

  lemma TwoByteRoundTrip(b: seq<byte>)
    requires |b| == 2
    ensures Base64Decode(Base64Encode(b)) == Some(b)
  {
    var x, y := b[0], b[1];
    assert b == [x, y];
    EncodeTwo(x, y);
    OnePadQuad(x, y);
    DecodeOneQuad(Base64Encode([x, y]));
  }

  /** A full group decodes back to its three bytes, whether or not it is the last quad. */
  lemma GroupDecodes(b0: byte, b1: byte, b2: byte)
    ensures DecodeFullQuad(EncodeGroup(b0, b1, b2)[0], EncodeGroup(b0, b1, b2)[1],
                           EncodeGroup(b0, b1, b2)[2], EncodeGroup(b0, b1, b2)[3]) == Some([b0, b1, b2])
    ensures DecodeLastQuad(EncodeGroup(b0, b1, b2)[0], EncodeGroup(b0, b1, b2)[1],
                           EncodeGroup(b0, b1, b2)[2], EncodeGroup(b0, b1, b2)[3]) == Some([b0, b1, b2])
  {
    SymbolValueOfSymbol(b0 / 4);
    SymbolValueOfSymbol(b0 % 4 * 16 + b1 / 16);
    SymbolValueOfSymbol(b1 % 16 * 4 + b2 / 64);
    SymbolValueOfSymbol(b2 % 64);
    GroupRoundTrip(b0, b1, b2);
  }

  /** Decoding a full quad followed by more text. */
  lemma DecodeCons(q: string, rest: string, x: seq<byte>, y: seq<byte>)
    requires |q| == 4 && |rest| > 0
    requires DecodeFullQuad(q[0], q[1], q[2], q[3]) == Some(x) && Base64Decode(rest) == Some(y)
    ensures Base64Decode(q + rest) == Some(x + y)
  {
    var s := q + rest;
    assert s[0] == q[0] && s[1] == q[1] && s[2] == q[2] && s[3] == q[3];
    assert s[4..] == rest;
  }

  lemma SplitGroup(b: seq<byte>)
    requires |b| >= 3
    ensures [b[0], b[1], b[2]] + b[3..] == b
  {
    assert [b[0], b[1], b[2]] == b[..3];
  }

  /** Decoding inverts encoding, for byte strings of every length. */
  lemma {:induction false} Base64RoundTrip(b: seq<byte>)
    ensures Base64Decode(Base64Encode(b)) == Some(b)
    decreases |b|
  {
    if |b| == 1 {
      OneByteRoundTrip(b);
    } else if |b| == 2 {
      TwoByteRoundTrip(b);
    } else if |b| >= 3 {
      var g, rest := EncodeGroup(b[0], b[1], b[2]), Base64Encode(b[3..]);
      assert Base64Encode(b) == g + rest;
      GroupDecodes(b[0], b[1], b[2]);
      if |b| == 3 {
        assert g + rest == g;
        assert b == [b[0], b[1], b[2]];
      } else {
        Base64RoundTrip(b[3..]);
        DecodeCons(g, rest, [b[0], b[1], b[2]], b[3..]);
        SplitGroup(b);
      }
    }
  }

  /** `id_to_b64`. */
  function IdToB64(id: Id): (s: string)
    ensures |s| == 24
  {
    Base64Encode(id)
  }

  /** `uuid_to_b64`: the same encoding of the UUID's 16 bytes. */
  function UuidToB64(uuid: Uuid): (s: string)
    ensures s == IdToB64(uuid.bytes)
  {
    Base64Encode(uuid.bytes)
  }

  /** The id text of `id_to_b64` has 22 symbols then "==", and no '+' or '/'. */
  lemma IdTextShape(id: Id)
    ensures |IdToB64(id)| == 24
    ensures forall i :: 0 <= i < 22 ==> IsUrlSafeSymbol(IdToB64(id)[i])
    ensures IdToB64(id)[22..] == "=="
    ensures '+' !in IdToB64(id) && '/' !in IdToB64(id)
  {
    EncodeAlphabet(id);
    EncodeTail(id);
    var e := IdToB64(id);
    forall i | 0 <= i < 22 ensures IsUrlSafeSymbol(e[i]) {
      assert e[i] != Pad;
    }
    assert '+' !in e && '/' !in e by {
      forall i | 0 <= i < |e| ensures e[i] != '+' && e[i] != '/' {
        assert IsUrlSafeSymbol(e[i]) || e[i] == Pad;
      }
    }
  }

  /**
   * When the length leaves one byte over, the text ends in "==" and no
   * earlier character is padding.
   */
  lemma {:induction false} EncodeTail(b: seq<byte>)
    requires |b| % 3 == 1
    ensures |Base64Encode(b)| >= 4
    ensures Base64Encode(b)[|Base64Encode(b)| - 2..] == "=="
    ensures forall i :: 0 <= i < |Base64Encode(b)| - 2 ==> Base64Encode(b)[i] != Pad
    decreases |b|
  {
    if |b| > 1 {
      EncodeTail(b[3..]);
      var g, rest := EncodeGroup(b[0], b[1], b[2]), Base64Encode(b[3..]);
      assert Base64Encode(b) == g + rest;
      assert (g + rest)[|g + rest| - 2..] == rest[|rest| - 2..];
      forall i | 0 <= i < |g + rest| - 2
        ensures (g + rest)[i] != Pad
      {
        if i >= |g| { assert (g + rest)[i] == rest[i - |g|]; }
      }
    }
  }

  /** `DecodeSliceError`: a decoding failure, or more bytes than the output slice holds. */
  datatype DecodeSliceError = DecodeError | OutputSliceTooSmall

  /** `IdError`. */
  datatype IdError = InvalidLength(len: nat) | Decode(cause: DecodeSliceError)

  /**
   * The engine's first check, on the text's UTF-8 bytes: an input one byte
   * past a multiple of four whose last byte is neither a symbol nor padding.
   */
  predicate InvalidTrailingByte(s: string) {
    var bytes := Utf8(s);
    |bytes| % 4 == 1 && bytes[|bytes| - 1] != Pad as int && !IsUrlSafeSymbol(bytes[|bytes| - 1] as char)
  }

  /**
   * The length of the complete quads before the last one, which alone may
   * hold padding. The engine reads the text as bytes, so this counts UTF-8
   * bytes, not characters.
   */
  function LeadingQuadsLen(s: string): nat {
    var n := |Utf8(s)|;
    if n % 4 == 0 then (if n >= 4 then n - 4 else 0) else n - n % 4
  }

  /** Only URL-safe symbols and padding decode, so text that decodes is ASCII. */
  lemma {:induction false} DecodableIsAscii(s: string)
    ensures Base64Decode(s).Some? ==> IsAscii(s)
    decreases |s|
  {
    if Base64Decode(s).Some? && |s| > 4 {
      DecodableIsAscii(s[4..]);
      forall i | 0 <= i < |s| ensures s[i] as int < 0x80 {
        if i >= 4 { assert s[i] == s[4..][i - 4]; }
      }
    }
  }

  /**
   * What `decode_slice` gives for `s` and an output slice of `capacity`
   * bytes. The engine reads the text's UTF-8 bytes. It first rejects an invalid lone trailing byte, then
   * checks that the leading complete quads fit before it reads any symbol,
   * and only then decodes and checks that the last quad's bytes fit.
   */
  function DecodeSliceOutcome(s: string, capacity: nat): (r: Result<seq<byte>, DecodeSliceError>)
    ensures r.Success? <==> Base64Decode(s).Some? && |Base64Decode(s).value| <= capacity
    ensures r.Success? ==> r.value == Base64Decode(s).value
    ensures Base64Decode(s).Some? && |Base64Decode(s).value| > capacity ==> r == Failure(OutputSliceTooSmall)
    ensures InvalidTrailingByte(s) ==> r == Failure(DecodeError)
    ensures !InvalidTrailingByte(s) && capacity < LeadingQuadsLen(s) / 4 * 3 ==> r == Failure(OutputSliceTooSmall)
  {
    DecodableIsAscii(s);
    Utf8Length(s);
    if InvalidTrailingByte(s) then Failure(DecodeError)
    else if capacity < LeadingQuadsLen(s) / 4 * 3 then Failure(OutputSliceTooSmall)
    else match Base64Decode(s)
      case None => Failure(DecodeError)
      case Some(b) => if |b| > capacity then Failure(OutputSliceTooSmall) else Success(b)
  }

  /**
   * `decode_slice`: writes the decoded bytes to the front of `output`, leaves
   * the rest of it alone, and returns how many bytes it wrote.
   */
  method DecodeSlice(s: string, output: array<byte>) returns (r: Result<nat, DecodeSliceError>)
    modifies output
    ensures DecodeSliceOutcome(s, output.Length).Failure? ==>
      r == Failure(DecodeSliceOutcome(s, output.Length).error)
    ensures DecodeSliceOutcome(s, output.Length).Success? ==>
      r == Success(|DecodeSliceOutcome(s, output.Length).value|)
      && output[..r.value] == DecodeSliceOutcome(s, output.Length).value
      && output[r.value..] == old(output[r.value..])
  {
    var outcome := DecodeSliceOutcome(s, output.Length);
    if outcome.Failure? {
      return Failure(outcome.error);
    }
    var bytes := outcome.value;
    var i := 0;
    while i < |bytes|
      invariant 0 <= i <= |bytes| <= output.Length
      invariant output[..i] == bytes[..i]
      invariant output[i..] == old(output[i..])
    {
      output[i] := bytes[i];
      i := i + 1;
    }
    return Success(i);
  }

  /**
   * `b64_to_id`: decode into a 16-byte buffer. Exactly 16 decoded bytes give
   * the id; fewer give `InvalidLength` with the count; a failed decode gives
   * `Decode` with the slice error.
   */
  method B64ToId(b64Id: string) returns (r: Result<Id, IdError>)
    ensures DecodeSliceOutcome(b64Id, 16).Failure? ==> r == Failure(Decode(DecodeSliceOutcome(b64Id, 16).error))
    ensures Base64Decode(b64Id).None? ==> r.Failure? && r.error.Decode?
    ensures Base64Decode(b64Id).Some? && |Base64Decode(b64Id).value| > 16 ==>
      r == Failure(Decode(OutputSliceTooSmall))
    ensures Base64Decode(b64Id).Some? && |Base64Decode(b64Id).value| < 16 ==>
      r == Failure(InvalidLength(|Base64Decode(b64Id).value|))
    ensures r.Success? <==> Base64Decode(b64Id).Some? && |Base64Decode(b64Id).value| == 16
    ensures r.Success? ==> r.value == Base64Decode(b64Id).value
  {
    var buffer := new byte[16];
    var len := DecodeSlice(b64Id, buffer);
    if len.Failure? {
      return Failure(Decode(len.error));
    }
    if len.value != 16 {
      return Failure(InvalidLength(len.value));
    }
    return Success(buffer[..]);
  }

  /**
   * Text of 25 UTF-8 bytes or more overflows the 16-byte buffer before any
   * symbol is read, so even malformed text reports `OutputSliceTooSmall`.
   */
  lemma LongTextOverflowsIdBuffer(s: string)
    requires |Utf8(s)| >= 25 && !InvalidTrailingByte(s)
    ensures DecodeSliceOutcome(s, 16) == Failure(OutputSliceTooSmall)
  {
    var n, q := |Utf8(s)|, LeadingQuadsLen(s);
    assert q == n - n % 4 || q == n - 4;
    assert q >= 24;
    assert q / 4 * 3 >= 18;
  }

  /** Twenty-eight '!' characters: no symbol at all, yet the error is the buffer size. */
  lemma MalformedLongText()
    ensures DecodeSliceOutcome(seq(28, _ => '!'), 16) == Failure(OutputSliceTooSmall)
    ensures Base64Decode(seq(28, _ => '!')).None?
  {
    var s := seq(28, _ => '!');
    Utf8OfAscii(s);
    LongTextOverflowsIdBuffer(s);
    assert SymbolValue(s[0]).None?;
  }

  /**
   * 'é' and 23 'A': 24 characters but 25 bytes, of which the last is a
   * symbol, so the leading quads alone overflow the 16-byte buffer.
   */
  lemma NonAsciiTextCountsBytes()
    ensures |"é" + seq(23, _ => 'A')| == 24
    ensures |Utf8("é" + seq(23, _ => 'A'))| == 25
    ensures DecodeSliceOutcome("é" + seq(23, _ => 'A'), 16) == Failure(OutputSliceTooSmall)
  {
    var t := seq(23, _ => 'A');
    var s := "é" + t;
    Utf8Append("é", t);
    assert Utf8("é") == EncodeChar('é') + Utf8([]);
    Utf8OfAscii(t);
    assert Utf8(s)[24] == Utf8(t)[22] == 'A' as int;
    LongTextOverflowsIdBuffer(s);
  }

  /** `b64_to_uuid`: `b64_to_id`, wrapped into a UUID. */
  method B64ToUuid(b64Id: string) returns (r: Result<Uuid, IdError>)
    ensures DecodeSliceOutcome(b64Id, 16).Failure? ==> r == Failure(Decode(DecodeSliceOutcome(b64Id, 16).error))
    ensures Base64Decode(b64Id).None? ==> r.Failure? && r.error.Decode?
    ensures Base64Decode(b64Id).Some? && |Base64Decode(b64Id).value| > 16 ==>
      r == Failure(Decode(OutputSliceTooSmall))
    ensures Base64Decode(b64Id).Some? && |Base64Decode(b64Id).value| < 16 ==>
      r == Failure(InvalidLength(|Base64Decode(b64Id).value|))
    ensures r.Success? <==> Base64Decode(b64Id).Some? && |Base64Decode(b64Id).value| == 16
    ensures r.Success? ==> r.value.bytes == Base64Decode(b64Id).value
  {
    var id := B64ToId(b64Id);
    match id
    case Failure(e) => return Failure(e);
    case Success(bytes) => return Success(Uuid(bytes));
  }

  /** `b64_to_id(id_to_b64(id)) == Ok(id)`. */
  method IdRoundTrip(id: Id) returns (r: Result<Id, IdError>)
    ensures r == Success(id)
  {
    Base64RoundTrip(id);
    r := B64ToId(IdToB64(id));
  }

  /** `b64_to_uuid(uuid_to_b64(u)) == Ok(u)`. */
  method UuidRoundTrip(uuid: Uuid) returns (r: Result<Uuid, IdError>)
    ensures r == Success(uuid)
  {
    Base64RoundTrip(uuid.bytes);
    r := B64ToUuid(UuidToB64(uuid));
  }
}
