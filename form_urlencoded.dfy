/**
 * `urlencode` (crates/core/src/util.rs): the application/x-www-form-urlencoded
 * byte serializer of section 5.2 of the WHATWG URL Standard, applied to the
 * string's UTF-8 bytes. ASCII alphanumerics and `*-._` stay as they are, a
 * space becomes '+', and every other byte becomes '%' and two upper-case hex
 * digits.
 */
module FormUrlencoded {
  import opened Wrappers
  import opened Bytes

  /** The bytes the serializer leaves unchanged. */
  predicate IsUnreserved(b: byte) {
    (0x30 <= b <= 0x39) || (0x41 <= b <= 0x5A) || (0x61 <= b <= 0x7A)
    || b == 0x2A || b == 0x2D || b == 0x2E || b == 0x5F
  }

  predicate IsUnreservedChar(c: char) {
    c as int < 0x80 && IsUnreserved(c as int)
  }

  /** One of "0123456789ABCDEF", the digits the serializer writes after '%'. */
  predicate IsUpperHexDigit(c: char) {
    ('0' <= c <= '9') || ('A' <= c <= 'F')
  }

  /** An upper-case hex digit, which percent-decoding reads back as `v`. */
  function HexDigit(v: int): (c: char)
    requires 0 <= v < 16
    ensures IsUpperHexDigit(c)
    ensures IsUnreservedChar(c)
    ensures HexValue(c) == Some(v)
  {
    if v < 10 then ('0' as int + v) as char else ('A' as int + (v - 10)) as char
  }

  /** Percent-decoding reads either case of hex digit. */
  function HexValue(c: char): (r: Option<int>)
    ensures r.Some? ==> 0 <= r.value < 16
  {
    if '0' <= c <= '9' then Some(c as int - '0' as int)
    else if 'A' <= c <= 'F' then Some(c as int - 'A' as int + 10)
    else if 'a' <= c <= 'f' then Some(c as int - 'a' as int + 10)
    else None
  }

  /** The serialization of one byte. */
  function SerializeByte(b: byte): (r: string)
    ensures |r| == 1 || |r| == 3
    ensures IsUnreserved(b) ==> r == [b as char]
    ensures b == 0x20 ==> r == "+"
    ensures !IsUnreserved(b) && b != 0x20 ==>
      |r| == 3 && r[0] == '%' && IsUpperHexDigit(r[1]) && IsUpperHexDigit(r[2])
      && HexValue(r[1]).Some? && HexValue(r[2]).Some?
      && HexValue(r[1]).value * 16 + HexValue(r[2]).value == b
  {
    if IsUnreserved(b) then [b as char]
    else if b == 0x20 then "+"
    else ['%', HexDigit(b / 16), HexDigit(b % 16)]
  }

  /** `form_urlencoded::byte_serialize`, collected into a string. */
  function ByteSerialize(bytes: seq<byte>): string {
    if bytes == [] then "" else SerializeByte(bytes[0]) + ByteSerialize(bytes[1..])
  }

  /** `urlencode`. */
  function Urlencode(s: string): (r: string)
    ensures FormDecode(r) == Some(Utf8(s))
  {
    SerializeRoundTrip(Utf8(s));
    ByteSerialize(Utf8(s))
  }

  /**
   * The reference decoder: '+' is a space and "%XX" a byte, as in the
   * standard's parser, while any character the serializer never emits is
   * rejected.
   */
  function FormDecode(t: string): Option<seq<byte>>
    decreases |t|
  {
    if t == [] then Some([])
    else match DecodeHead(t)
      case None => None
      case Some((b, width)) =>
        match FormDecode(t[width..])
        case None => None
        case Some(rest) => Some([b] + rest)
  }

  /** The byte at the front of `t`, and how many characters it took. */
  function DecodeHead(t: string): (r: Option<(byte, nat)>)
    requires t != []
    ensures r.Some? ==> 1 <= r.value.1 <= |t|
    ensures r.Some? ==> r.value.1 == 1 || r.value.1 == 3
    ensures r.Some? ==> (r.value.1 == 3 <==> t[0] == '%')
  {
    if t[0] == '+' then Some((0x20, 1))
    else if t[0] == '%' then
      if |t| >= 3 && HexValue(t[1]).Some? && HexValue(t[2]).Some?
      then Some((HexValue(t[1]).value * 16 + HexValue(t[2]).value, 3))
      else None
    else if IsUnreservedChar(t[0]) then Some((t[0] as int, 1))
    else None
  }

  lemma DecodeSerializedByte(b: byte, t: string)
    ensures FormDecode(SerializeByte(b) + t) ==
      match FormDecode(t)
      case None => None
      case Some(rest) => Some([b] + rest)
  {
    var s := SerializeByte(b) + t;
    if IsUnreserved(b) {
      assert s[0] == b as char && s[1..] == t;
    } else if b == 0x20 {
      assert s[0] == '+' && s[1..] == t;
    } else {
      assert s[0] == '%' && s[1] == HexDigit(b / 16) && s[2] == HexDigit(b % 16) && s[3..] == t;
    }
  }

  /** Decoding the serializer's output gives back the bytes: the serializer loses nothing. */
  lemma {:induction false} SerializeRoundTrip(bytes: seq<byte>)
    ensures FormDecode(ByteSerialize(bytes)) == Some(bytes)
  {
    if bytes != [] {
      SerializeRoundTrip(bytes[1..]);
      DecodeSerializedByte(bytes[0], ByteSerialize(bytes[1..]));
      assert [bytes[0]] + bytes[1..] == bytes;
    }
  }

  /** n bytes serialize to between n and 3n characters. */
  lemma {:induction false} SerializeLength(bytes: seq<byte>)
    ensures |bytes| <= |ByteSerialize(bytes)| <= 3 * |bytes|
  {
    if bytes != [] {
      SerializeLength(bytes[1..]);
    }
  }

  /** Each character becomes between 1 and 12 characters: up to four UTF-8 bytes, each escaped to at most three. */
  lemma UrlencodeLength(s: string)
    ensures |s| <= |Urlencode(s)| <= 12 * |s|
  {
    SerializeLength(Utf8(s));
  }

  /** Strings with the same encoding have the same UTF-8 bytes: the encoding loses nothing. */
  lemma UrlencodeInjective(s: string, t: string)
    requires Urlencode(s) == Urlencode(t)
    ensures Utf8(s) == Utf8(t)
  {
    SerializeRoundTrip(Utf8(s));
    SerializeRoundTrip(Utf8(t));
  }

  /** Every output character is unreserved, '+' or '%'. */
  lemma {:induction false} SerializeAlphabet(bytes: seq<byte>)
    ensures forall i :: 0 <= i < |ByteSerialize(bytes)| ==>
      IsUnreservedChar(ByteSerialize(bytes)[i]) || ByteSerialize(bytes)[i] in {'+', '%'}
  {
    if bytes != [] {
      SerializeAlphabet(bytes[1..]);
      var h, rest := SerializeByte(bytes[0]), ByteSerialize(bytes[1..]);
      forall i | 0 <= i < |h + rest|
        ensures IsUnreservedChar((h + rest)[i]) || (h + rest)[i] in {'+', '%'}
      {
        if i >= |h| { assert (h + rest)[i] == rest[i - |h|]; }
      }
    }
  }

  /** A string made of unreserved characters is its own encoding. */
  lemma {:induction false} UrlencodeKeepsUnreserved(s: string)
    requires forall i :: 0 <= i < |s| ==> IsUnreservedChar(s[i])
    ensures Urlencode(s) == s
  {
    if s != [] {
      UrlencodeKeepsUnreserved(s[1..]);
      assert Utf8(s) == [s[0] as int] + Utf8(s[1..]);
      assert Utf8(s)[1..] == Utf8(s[1..]);
      assert [s[0]] + s[1..] == s;
    }
  }

  /** A space is '+', and '+' itself is escaped, so the two never collide. */
  lemma SpaceAndPlus()
    ensures Urlencode(" ") == "+"
    ensures Urlencode("+") == "%2B"
  {
    assert Utf8(" ") == [0x20];
    assert Utf8("+") == [0x2B];
  }

  lemma {:induction false} SerializeAppend(a: seq<byte>, b: seq<byte>)
    ensures ByteSerialize(a + b) == ByteSerialize(a) + ByteSerialize(b)
  {
    if a != [] {
      var h := SerializeByte(a[0]);
      SerializeAppend(a[1..], b);
      assert (a + b)[0] == a[0] && (a + b)[1..] == a[1..] + b;
      assert ByteSerialize(a + b) == h + (ByteSerialize(a[1..]) + ByteSerialize(b));
    } else {
      assert a + b == b;
    }
  }

  /** Encoding works character by character: it distributes over concatenation. */
  lemma UrlencodeAppend(s: string, t: string)
    ensures Urlencode(s + t) == Urlencode(s) + Urlencode(t)
  {
    Utf8Append(s, t);
    SerializeAppend(Utf8(s), Utf8(t));
  }

  /** Encoding four pieces one after the other, when each piece's encoding is known. */
  lemma UrlencodeConcat(s1: string, s2: string, s3: string, s4: string,
                        e1: string, e2: string, e3: string, e4: string)
    requires Urlencode(s1) == e1 && Urlencode(s2) == e2
    requires Urlencode(s3) == e3 && Urlencode(s4) == e4
    ensures Urlencode(s1 + (s2 + (s3 + s4))) == e1 + (e2 + (e3 + e4))
  {
    UrlencodeAppend(s1, s2 + (s3 + s4));
    UrlencodeAppend(s2, s3 + s4);
    UrlencodeAppend(s3, s4);
  }

  /** A comma is escaped. */
  lemma CommaPiece()
    ensures Urlencode(",") == "%2C"
  {
    assert Utf8(",") == [0x2C];
  }

  /** The pieces of the crate's example, one by one. */
  lemma ExamplePieces()
    ensures Urlencode("+") == "%2B" && Urlencode(",") == "%2C"
    ensures Urlencode("col0") == "col0" && Urlencode("-col1") == "-col1"
  {
    SpaceAndPlus();
    CommaPiece();
    UrlencodeKeepsUnreserved("col0");
    UrlencodeKeepsUnreserved("-col1");
  }

  /** The crate's own example. */
  lemma UrlencodeExample()
    ensures Urlencode("+col0,-col1") == "%2Bcol0%2C-col1"
  {
    ExamplePieces();
    UrlencodeConcat("+", "col0", ",", "-col1", "%2B", "col0", "%2C", "-col1");
    ExampleSplit();
  }

  /** The example's input and output, cut at the same places. */
  lemma ExampleSplit()
    ensures "+col0,-col1" == "+" + ("col0" + ("," + "-col1"))
    ensures "%2Bcol0%2C-col1" == "%2B" + ("col0" + ("%2C" + "-col1"))
  {
  }
}
