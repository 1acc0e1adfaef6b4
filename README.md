# TrailBase transaction builders, id/URL encoding and email change, in Dafny

TrailBase is an application server on SQLite. This project models three parts of it.

- **Client transaction batch builders** in four client libraries: Go, C#, Swift and Python. A `TransactionBatch` keeps an ordered list of operations. `api(name)` returns an `ApiBatch` handle. Its `create`, `update` and `delete` each append one operation to the parent batch and return that parent. Every operation goes on the wire as a JSON object with one tag: `Create`, `Update` or `Delete`. The four clients name the inner members differently, and each client is modelled with its own names:

  | client | Create | Update | Delete |
  |---|---|---|---|
  | Go, C# | `api_name`, `value` | `api_name`, `record_id`, `value` | `api_name`, `record_id` |
  | Swift | `api_name`, `record` | `api_name`, `id`, `record` | `api_name`, `record_id` |
  | Python | `ApiName`, `Record` | `ApiName`, `Id`, `Record` | `ApiName`, `RecordId` |

  `send` is modelled from the HTTP status and the parsed response body onward.
- **Id and URL helpers** of the server (`crates/core/src/util.rs`):
  - 16-byte ids and UUIDs are written as padded base64url text, the URL-safe alphabet of section 5 of RFC 4648;
  - `b64_to_id` decodes into a 16-byte buffer and checks the length;
  - `urlencode` is the application/x-www-form-urlencoded byte serializer of section 5.2 of the WHATWG URL Standard, applied to the UTF-8 bytes of a string.
- **The email-change endpoints** (`crates/core/src/auth/api/change_email.rs`):
  - the request handler runs its guards (CSRF token, old address present, address valid, user exists, 10-second rate limit), then one UPDATE that records the pending address, a code and the time;
  - the confirm handler checks the redirect and the code's length, then one UPDATE that moves the pending address into place for rows whose code matches within the 3600-second TTL;
  - a row count of 0 is an error, 1 is success, and any other count panics.

Layout:
- `json.dfy`: an abstract JSON tree.
- `wire.dfy`: the logical operation `Wire.Op`, a per-client `Schema` of member names, a reference writer `Wire.Encode` and a strict reference reader `Wire.Decode`. Each client's encoder is proved against this reader.
- One file per client, holding its own stored representation, its batch classes and its response handling.
- `compat.dfy`: what each client's document looks like to another client's member names.
- `bytes.dfy` (bytes and UTF-8), `id_codec.dfy` (base64url, `b64_to_id`) and `form_urlencoded.dfy` (`urlencode` with a reference decoder).
- `change_email.dfy`: the guards, the two row transitions over a user table, and the table as a class.

External steps become parameters:
- the clock is an integer `now` in seconds;
- the random code, the email sender's success, address validation, `validate_redirect`'s result and chrono's timestamp range are passed in;
- the server constants `VERIFICATION_CODE_LENGTH`, `PROFILE_UI` and `LOGIN_UI` are passed in, because `crates/core/src/constants.rs` and `crates/core/src/auth/mod.rs` are not part of this model.

## Model

| member | source | states |
|---|---|---|
| Wire.Decode | client/dotnet/trailbase/TransactionApi.cs:46-65 | reference definition, not a client's own code: a document it accepts has exactly one tag and, under it, exactly the schema's member names for that kind |
| Wire.DecodeEncode | client/go/trailbase/transaction_api.go:16-63 | about the reference definitions: with distinct member names, reading back what the reference writer wrote gives the same operation |
| Wire.EncodeDecode | client/go/trailbase/transaction_api.go:16-63 | about the reference definitions: every document the strict reader accepts is exactly what the writer emits for the operation read |
| GoTransaction.MarshalJSON | client/go/trailbase/transaction_api.go:16-63 | the result is an object; a known Type gives an object whose only key is that Type; an unknown Type gives the empty object, because every omitempty wrapper pointer stays nil |
| GoTransaction.MarshalInner | client/go/trailbase/transaction_api.go:33-59 | Create holds `api_name` and `value`, Update `api_name`, `record_id` and `value`, Delete `api_name` and `record_id`, with the operation's own values |
| GoTransaction.MarshalRoundTrip | client/go/trailbase/transaction_api.go:16-63 | an operation built the way `ApiBatch` builds it marshals to the reference encoding with Go's names and reads back as the same operation |
| GoTransaction.TransactionBatch.constructor | client/go/trailbase/transaction_api.go:73-76 | a new batch holds no operations |
| GoTransaction.TransactionBatch.API | client/go/trailbase/transaction_api.go:83-88 | the handle is new, points at this batch and carries the given API name |
| GoTransaction.TransactionBatch.AddOperation | client/go/trailbase/transaction_api.go:124-126 | the operation list is the old list followed by the new operation |
| GoTransaction.TransactionBatch.RequestBody | client/go/trailbase/transaction_api.go:90-95 | the request has the single key `operations`, an array of the stored operations' encodings in stored order |
| GoTransaction.ApiBatch.constructor | client/go/trailbase/transaction_api.go:78-81 | the handle keeps its batch and API name |
| GoTransaction.ApiBatch.Create | client/go/trailbase/transaction_api.go:128-135 | appends one Create of this handle's API name with the given value, and returns the same parent batch |
| GoTransaction.ApiBatch.Update | client/go/trailbase/transaction_api.go:137-145 | appends one Update with this handle's API name, the record id and the value, and returns the same parent batch |
| GoTransaction.ApiBatch.Delete | client/go/trailbase/transaction_api.go:147-154 | appends one Delete with this handle's API name and the record id and no value, and returns the same parent batch |
| GoTransaction.InterleavedAppends | client/go/trailbase/client_test.go:418-460 | a Create, an Update and a Delete through two different handles leave three operations in call order, with the right Types and API names, after the earlier ones |
| GoTransaction.DecodeStrings | client/go/trailbase/transaction_api.go:110-115 | a JSON array decodes into `[]string` exactly when every element is a string or null; null elements become "" |
| GoTransaction.DecodeResponse | client/go/trailbase/transaction_api.go:110-115 | a member other than `ids` (exact case) fails the strict decoder; the result has no ids exactly for `null`, `{}` or `{"ids": null}`; decoded ids come from an object whose only member is an `ids` array |
| GoTransaction.SendResult | client/go/trailbase/transaction_api.go:106-121 | a status other than 200 is an error; success happens exactly on status 200 with a body that passes the strict decoder; a nil ids list comes back as an empty list |
| GoTransaction.SendReturnsIds | client/go/trailbase/transaction_api.go:110-121 | a response `{"ids": [...]}` yields those ids in order |
| GoTransaction.SendNilIdsIsEmpty | client/go/trailbase/transaction_api.go:117-119 | a response without ids, or with `"ids": null`, yields the empty list |
| GoTransaction.SendRejectsUnknownField | client/go/trailbase/transaction_api.go:111-115 | any member other than `ids` (exact case) makes the strict decoder fail |
| DotnetTransaction.Write | client/dotnet/trailbase/TransactionApi.cs:70-106 | the outer object has exactly one property, named after the operation's kind, and the inner object has exactly that kind's member names |
| DotnetTransaction.Read | client/dotnet/trailbase/TransactionApi.cs:46-65 | the converter's `Read` method, on the token it is handed: a non-object token throws; an operation read comes from a present tag, `Update` only without `Create` and `Delete` only without either; a null operation comes only from a tag holding `null` |
| DotnetTransaction.ReadWrite | client/dotnet/trailbase/TransactionApi.cs:46-106 | reading what `Write` wrote gives back the same kind, API name, record id and value |
| DotnetTransaction.ReadRejects | client/dotnet/trailbase/TransactionApi.cs:47-63 | a token that is not an object is rejected; an object with none of the three keys fails with "Unknown operation type" |
| DotnetTransaction.ReadPriority | client/dotnet/trailbase/TransactionApi.cs:53-63 | `Create` is looked at first, then `Update`, then `Delete`, whatever other keys are present |
| DotnetTransaction.ReadAgreesWithReference | client/dotnet/trailbase/TransactionApi.cs:46-65 | every document the strict reference reader accepts, `Read` reads the same way |
| DotnetTransaction.WriteIsReference | client/dotnet/trailbase/TransactionApi.cs:70-106 | `Write` is the reference encoding with the C# member names |
| DotnetTransaction.TransactionBatch.constructor | client/dotnet/trailbase/TransactionApi.cs:130-136 | a new batch holds no operations |
| DotnetTransaction.TransactionBatch.Api | client/dotnet/trailbase/TransactionApi.cs:138-140 | the handle is new, points at this batch and carries the given API name |
| DotnetTransaction.TransactionBatch.AddOperation | client/dotnet/trailbase/TransactionApi.cs:160-162 | the operation list is the old list followed by the new operation |
| DotnetTransaction.TransactionBatch.RequestBody | client/dotnet/trailbase/TransactionApi.cs:145-146 | the request has the single key `operations`, the written operations in stored order |
| DotnetTransaction.ApiBatch.constructor | client/dotnet/trailbase/TransactionApi.cs:165-172 | the handle keeps its batch and API name |
| DotnetTransaction.ApiBatch.Create | client/dotnet/trailbase/TransactionApi.cs:174-177 | appends one Create with the handle's API name and returns the same batch |
| DotnetTransaction.ApiBatch.Update | client/dotnet/trailbase/TransactionApi.cs:179-182 | appends one Update with the handle's API name and the record id's text, and returns the same batch |
| DotnetTransaction.ApiBatch.Delete | client/dotnet/trailbase/TransactionApi.cs:184-187 | appends one Delete with the handle's API name and the record id's text, and returns the same batch |
| DotnetTransaction.DecodeStrings | client/dotnet/trailbase/TransactionApi.cs:114-117 | an array deserializes into `List<string>` exactly when every element is a string, keeping order |
| DotnetTransaction.SendResult | client/dotnet/trailbase/TransactionApi.cs:154-157 | unparseable text throws; a null document, a missing `ids` or a null `ids` yields the empty list; otherwise the ids come back in order |
| SwiftTransaction.Encode | client/swift/trailbase/Sources/TrailBase/Transaction.swift:4-14 | the encoded object has exactly the keys of the variants that are set; nil variants are omitted |
| SwiftTransaction.FromOp | client/swift/trailbase/Sources/TrailBase/Transaction.swift:104-117 | the operation `ApiBatch` builds has exactly one variant set |
| SwiftTransaction.InnerKeys | client/swift/trailbase/Sources/TrailBase/Transaction.swift:16-46 | Create holds `api_name` and `record`, Update `api_name`, `id` and `record`, Delete `api_name` and `record_id` |
| SwiftTransaction.EncodeRoundTrip | client/swift/trailbase/Sources/TrailBase/Transaction.swift:4-46 | a built operation encodes with one tag to the reference encoding with Swift's names, and reads back as the same operation |
| SwiftTransaction.TransactionBatch.constructor | client/swift/trailbase/Sources/TrailBase/Transaction.swift:64-70 | a new batch holds no operations |
| SwiftTransaction.TransactionBatch.Api | client/swift/trailbase/Sources/TrailBase/Transaction.swift:72-74 | the handle is new, points at this batch and carries the given API name |
| SwiftTransaction.TransactionBatch.AddOperation | client/swift/trailbase/Sources/TrailBase/Transaction.swift:90-92 | the operation list is the old list followed by the new operation |
| SwiftTransaction.TransactionBatch.RequestBody | client/swift/trailbase/Sources/TrailBase/Transaction.swift:76-78 | the request is `{"operations": [...]}` with the encoded operations in append order |
| SwiftTransaction.ApiBatch.constructor | client/swift/trailbase/Sources/TrailBase/Transaction.swift:95-102 | the handle keeps its batch and API name |
| SwiftTransaction.ApiBatch.Create | client/swift/trailbase/Sources/TrailBase/Transaction.swift:104-107 | appends one operation with only `create` set, carrying the handle's API name, and returns the same batch |
| SwiftTransaction.ApiBatch.Update | client/swift/trailbase/Sources/TrailBase/Transaction.swift:109-112 | appends one operation with only `update` set, carrying the handle's API name and the id, and returns the same batch |
| SwiftTransaction.ApiBatch.Delete | client/swift/trailbase/Sources/TrailBase/Transaction.swift:114-117 | appends one operation with only `delete` set, carrying the handle's API name and the record id, and returns the same batch |
| SwiftTransaction.DecodeStrings | client/swift/trailbase/Sources/TrailBase/Transaction.swift:56-62 | `[String]` decodes exactly when every element is a string, keeping order |
| SwiftTransaction.SendResult | client/swift/trailbase/Sources/TrailBase/Transaction.swift:86-87 | unparseable data raises a data-corrupted error; a `null` document, a missing `ids` or a null `ids` raise value-not-found or key-not-found; any other non-object raises a type mismatch; otherwise the decoded ids come back unchanged |
| SwiftTransaction.SendReturnsIds | client/swift/trailbase/Sources/TrailBase/Transaction.swift:82-87 | a response holding `ids` returns exactly those ids, whatever other members it has |
| PythonTransaction.DictRoundTrip | client/python/trailbase/transaction.py:87-100 | each dict has the single key of its kind, the inner dict has exactly the Python member names, and it reads back as the same operation |
| PythonTransaction.TransactionBatch.constructor | client/python/trailbase/transaction.py:54-56 | a new batch starts with an empty operation list |
| PythonTransaction.TransactionBatch.Api | client/python/trailbase/transaction.py:58-59 | the handle is new, points at this batch and carries the given API name |
| PythonTransaction.TransactionBatch.AddOperation | client/python/trailbase/transaction.py:75-76 | the operation list is the old list followed by the new dict |
| PythonTransaction.TransactionBatch.Request | client/python/trailbase/transaction.py:62 | the request is `{"Operations": ...}` holding the stored dicts in order |
| PythonTransaction.ApiBatch.constructor | client/python/trailbase/transaction.py:79-85 | the handle keeps its batch and API name |
| PythonTransaction.ApiBatch.Create | client/python/trailbase/transaction.py:87-90 | appends one `{"Create": {...}}` dict with the handle's API name and returns the same batch |
| PythonTransaction.ApiBatch.Update | client/python/trailbase/transaction.py:92-95 | appends one `{"Update": {...}}` dict with the handle's API name and the id, and returns the same batch |
| PythonTransaction.ApiBatch.Delete | client/python/trailbase/transaction.py:97-100 | appends one `{"Delete": {...}}` dict with the handle's API name and the record id, and returns the same batch |
| PythonTransaction.SendResult | client/python/trailbase/transaction.py:61-72 | a status other than 200 raises; otherwise a parsed dict yields its `Ids` value, or `[]` when the key is absent |
| WireCompat.GoMatchesDotnet | client/dotnet/trailbase/TransactionApi.cs:70-106 | the Go and C# clients put the same document on the wire for every operation |
| WireCompat.SwiftReadableAsGo | client/swift/trailbase/Sources/TrailBase/Transaction.swift:16-46 | a Swift document reads under the Go and C# member names exactly when it is a Delete |
| WireCompat.PythonNotReadableAsGo | client/python/trailbase/transaction.py:6-17 | no Python document reads under the Go and C# member names |
| Bytes.EncodeChar | crates/core/src/util.rs:38 | the UTF-8 encoding of a character is 1 to 4 bytes; it is the one byte of the character exactly when the character is ASCII; otherwise every byte is 0x80 or above |
| Bytes.Utf8 | crates/core/src/util.rs:38 | a string's UTF-8 encoding has between one and four bytes per character |
| Bytes.Utf8OfAscii | crates/core/src/util.rs:38 | an ASCII string's bytes are its character codes, one per character |
| Bytes.Utf8Length | crates/core/src/util.rs:38 | a string has at least as many bytes as characters, with equality exactly for ASCII |
| Bytes.Utf8Append | crates/core/src/util.rs:38 | the bytes of a concatenation are the concatenation of the bytes |
| IdCodec.Symbol | crates/core/src/util.rs:26 | every 6-bit value maps to a symbol of the URL-safe alphabet |
| IdCodec.SymbolValue | crates/core/src/util.rs:18 | a character has a value exactly when it is in the URL-safe alphabet, and that value maps back to it |
| IdCodec.Base64Encode | crates/core/src/util.rs:26 | padded encoding of n bytes has 4·⌈n/3⌉ characters |
| IdCodec.Base64Decode | crates/core/src/util.rs:18 | canonical padded text that decodes has a length that is a multiple of 4, and n quads decode to between 3n-2 and 3n bytes |
| IdCodec.Rfc4648Vectors | crates/core/src/util.rs:26 | the encoder gives the test vectors of section 10 of RFC 4648, from "" to "foobar" |
| IdCodec.EncodeAlphabet | crates/core/src/util.rs:26 | padded encoding uses only URL-safe symbols and `=` |
| IdCodec.Base64RoundTrip | crates/core/src/util.rs:16-27 | decoding the padded encoding of any byte string gives back that byte string |
| IdCodec.IdToB64 | crates/core/src/util.rs:25-27 | a 16-byte id is written as 24 characters |
| IdCodec.UuidToB64 | crates/core/src/util.rs:29-31 | a UUID is written exactly as its 16 bytes are |
| IdCodec.IdTextShape | crates/core/src/util.rs:25-27 | an id's text is 22 URL-safe symbols followed by `==`, with no `+` or `/` |
| IdCodec.EncodeTail | crates/core/src/util.rs:25-27 | when the byte count is one more than a multiple of 3, the text ends in exactly two `=` |
| IdCodec.DecodeSliceOutcome | crates/core/src/util.rs:18 | `decode_slice` succeeds exactly when the text decodes and the bytes fit, with those bytes; bytes that do not fit give output-slice-too-small; an invalid lone trailing byte gives a decode error; otherwise leading quads too long for the buffer give output-slice-too-small before any symbol is checked; the lengths are counted in UTF-8 bytes |
| IdCodec.DecodableIsAscii | crates/core/src/util.rs:18 | only ASCII text decodes, so for text that decodes the byte and character counts agree |
| IdCodec.DecodeSlice | crates/core/src/util.rs:18 | a failing outcome is returned as is; on success the decoded bytes are written to the front of the buffer, the rest of the buffer is left as it was, and their count is returned |
| IdCodec.LongTextOverflowsIdBuffer | crates/core/src/util.rs:16-19 | text of 25 UTF-8 bytes or more without an invalid lone trailing character overflows the 16-byte buffer |
| IdCodec.MalformedLongText | crates/core/src/util.rs:16-19 | 28 characters `!`, which do not decode, still report output-slice-too-small |
| IdCodec.NonAsciiTextCountsBytes | crates/core/src/util.rs:16-19 | `é` followed by 23 `A` is 24 characters but 25 bytes, and reports output-slice-too-small |
| IdCodec.B64ToId | crates/core/src/util.rs:16-23 | a failing `decode_slice` outcome gives `Decode` with that error; success exactly when the text decodes to 16 bytes, returning them; a shorter decode gives `InvalidLength(len)`; a longer decode gives `Decode(OutputSliceTooSmall)` |
| IdCodec.B64ToUuid | crates/core/src/util.rs:33-35 | the same outcomes as `b64_to_id`, with the 16 bytes wrapped as a UUID |
| IdCodec.IdRoundTrip | crates/core/src/util.rs:16-27 | decoding an id's text gives back the id |
| IdCodec.UuidRoundTrip | crates/core/src/util.rs:29-35 | decoding a UUID's text gives back the UUID |
| FormUrlencoded.HexDigit | crates/core/src/util.rs:38 | the digit for 0..15 is one of `0-9A-F` (upper case), never needs escaping, and reads back as the same value |
| FormUrlencoded.HexValue | crates/core/src/util.rs:38 | a hex value read back from a digit lies in 0..15 |
| FormUrlencoded.SerializeByte | crates/core/src/util.rs:38 | an unreserved byte stays as its character, a space becomes `+`, and every other byte becomes `%` and two upper-case hex digits whose value is the byte |
| FormUrlencoded.SerializeLength | crates/core/src/util.rs:38 | n bytes serialize to between n and 3n characters |
| FormUrlencoded.Urlencode | crates/core/src/util.rs:37-39 | the reference decoder gives back the string's UTF-8 bytes |
| FormUrlencoded.UrlencodeLength | crates/core/src/util.rs:37-39 | the output has between 1 and 12 characters per input character |
| FormUrlencoded.DecodeHead | crates/core/src/util.rs:38 | the reference decoder takes one character for each byte, or three exactly when the first is `%` |
| FormUrlencoded.DecodeSerializedByte | crates/core/src/util.rs:38 | decoding one serialized byte in front of any text gives that byte in front of the text's decoding |
| FormUrlencoded.SerializeRoundTrip | crates/core/src/util.rs:37-39 | the reference decoder gives back every serialized byte string |
| FormUrlencoded.UrlencodeInjective | crates/core/src/util.rs:37-39 | two strings with the same encoding have the same UTF-8 bytes |
| FormUrlencoded.SerializeAlphabet | crates/core/src/util.rs:37-39 | the output holds only ASCII alphanumerics, `*-._`, `+` and `%` |
| FormUrlencoded.UrlencodeKeepsUnreserved | crates/core/src/util.rs:37-39 | a string of ASCII alphanumerics and `*-._` is its own encoding |
| FormUrlencoded.SpaceAndPlus | crates/core/src/util.rs:37-39 | a space becomes `+` and `+` becomes `%2B` |
| FormUrlencoded.SerializeAppend | crates/core/src/util.rs:38 | serializing a concatenation gives the concatenated serializations |
| FormUrlencoded.UrlencodeAppend | crates/core/src/util.rs:37-39 | `urlencode` distributes over string concatenation |
| FormUrlencoded.UrlencodeExample | crates/core/src/util.rs:74-76 | `urlencode("+col0,-col1")` is `%2Bcol0%2C-col1` |
| ChangeEmail.ApplyRequest | crates/core/src/auth/api/change_email.rs:83-100 | only the caller's row can change; when its email equals the given old address, it gets the new pending address, the code and `now`, with email and verified kept; otherwise the table is unchanged |
| ChangeEmail.RequestDispatch | crates/core/src/auth/api/change_email.rs:116-134 | 0 rows gives "failed to change email"; 1 row gives success if the email goes out and an internal error if not; more rows panic |
| ChangeEmail.RequestGuard | crates/core/src/auth/api/change_email.rs:52-80 | a guard failure is one of the six errors the handler gives before its UPDATE; passing implies a matching token, a valid address and an existing user; `Forbidden` is given exactly when only the user lookup fails |
| ChangeEmail.RequestGuardPasses | crates/core/src/auth/api/change_email.rs:52-80 | the guards let a request through exactly when the CSRF token matches, the request is JSON or names the old address, the new address is valid, the user exists, and any earlier send is representable and at least 10 seconds old |
| ChangeEmail.RequestCsrfFirst | crates/core/src/auth/api/change_email.rs:52-54 | the "Invalid CSRF token" error is given exactly on a token mismatch, whatever else is wrong |
| ChangeEmail.RequestOldEmailRule | crates/core/src/auth/api/change_email.rs:46-59 | "Missing old email address" is given exactly for a form or multipart request without one, once the CSRF check passes; a JSON request never gets it |
| ChangeEmail.RequestRateLimit | crates/core/src/auth/api/change_email.rs:68-80 | with the earlier checks passed and a valid send time t, "verification sent already" is given exactly when now < t + 10, and the request passes otherwise |
| ChangeEmail.RequestAffectedCount | crates/core/src/auth/api/change_email.rs:93-98 | the request's UPDATE reports 1 exactly when the caller's row exists and matches, and 0 otherwise |
| ChangeEmail.RequestNeverPanics | crates/core/src/auth/api/change_email.rs:131-133 | whatever the table holds, the request handler does not reach its panic |
| ChangeEmail.RequestWithoutOldEmail | crates/core/src/auth/api/change_email.rs:94-97 | a request without an old address changes no row and fails with "failed to change email" |
| ChangeEmail.ConfirmGuard | crates/core/src/auth/api/change_email.rs:157-161 | a rejected redirect gives that error; otherwise it passes exactly when the code's byte length is the expected one, and "Invalid code" is given when not |
| ChangeEmail.Confirmed | crates/core/src/auth/api/change_email.rs:168-173 | the email becomes the pending address, verified is set, and pending address, code and send time are cleared |
| ChangeEmail.ApplyConfirm | crates/core/src/auth/api/change_email.rs:163-179 | rows with the same code, sent within the TTL and with a pending address are confirmed; every other row is unchanged |
| ChangeEmail.ConfirmDispatch | crates/core/src/auth/api/change_email.rs:187-197 | 0 rows gives "Invalid verification code" and more than 1 panics; 1 row redirects to `redirect_uri` if given, else to the profile page when logged in, else to the login page |
| ChangeEmail.ConfirmExpires | crates/core/src/auth/api/change_email.rs:176 | 3600 seconds after sending, a code matches no row |
| ChangeEmail.ConfirmChangesIffAffected | crates/core/src/auth/api/change_email.rs:163-197 | the confirmation changes the table exactly when it reports at least one row |
| ChangeEmail.ConfirmOnce | crates/core/src/auth/api/change_email.rs:172-175 | confirming the same code again, then or later, matches no row |
| ChangeEmail.ConfirmPanicsOnSharedCode | crates/core/src/auth/api/change_email.rs:182-196 | two rows holding the same live code make the handler panic, after both rows were confirmed |
| ChangeEmail.RequestThenConfirm | crates/core/src/auth/api/change_email.rs:83-179 | a matching request, then its code confirmed within the hour, makes the new address the verified email of the caller's row and clears the pending columns |
| ChangeEmail.UserTable.constructor | crates/core/src/auth/api/change_email.rs:104 | the table starts with the given rows |
| ChangeEmail.UserTable.Request | crates/core/src/auth/api/change_email.rs:41-135 | a failed guard returns its error and leaves the table unchanged; otherwise the table is updated as the UPDATE does and the row count decides the result; the handler never panics |
| ChangeEmail.UserTable.Confirm | crates/core/src/auth/api/change_email.rs:151-198 | a failed check returns its error and leaves the table unchanged; otherwise every matching row is confirmed and the row count decides the result |

## Left out

- HTTP transport, sessions and token handling are not modelled: `client.do`, `Fetch`, `fetch`, login, refresh and logout. `send` is modelled from the status code and the parsed body, where a body that does not parse is `None`.
- Marshalling failures of the request body are not modelled, because records are abstract JSON values that always serialize.
- The test harnesses are not modelled: process spawning, builds, health polling and sleeps.
- The tests expect keys `apiName`/`id` and call an `operation.to_json()` that does not exist. This disagrees with the code, and the model follows the code's key names.
- That the server returns one id per Create is backend behaviour. It is not assumed anywhere.
- Swift's `AnyCodable` is not modelled: it relies on dynamic casts and `Double`. Record values are abstract JSON instead.
- C#'s converter registration and `Utf8JsonWriter` streaming are not modelled. `Write` builds a JSON tree in one step.
- The C# client posts to `api/transaction/v1/execute`, unlike the other clients' `/api/transactions/v1/execute`. Endpoints are not modelled.
- C#'s `Write` default case (an unknown subclass) is not modelled, because the operation datatype has exactly three kinds.
- Go's distinction between a nil and an empty `operations` slice is not modelled: both marshal as a list here, where Go writes `null` for nil.
- GoTransaction.DecodeResponse, GoTransaction.SendResult and GoTransaction.SendRejectsUnknownField: member names match exactly here, where encoding/json matches them case-insensitively, so `{"IDS": [...]}` or `{"Ids": [...]}` decodes into the ids in Go but is an unknown member in the model.
- DotnetTransaction.Read: a JSON `null` under a string member is rejected here, where System.Text.Json would store a null string. The same holds for `null` under `value` in a Create or Update (DotnetTransaction.RecordProperty): the model rejects it, where C# would store a null dictionary and return the operation.
- DotnetTransaction.SendResult and DotnetTransaction.DecodeStrings: a `null` element inside `ids` is rejected here, where System.Text.Json would put a null string in the list.
- Record payloads are values here. The Go, C# and Python clients store the caller's map, `Dictionary` or dict by reference, so a change the caller makes after `create` or `update` alters what `send` posts. The model does not capture that aliasing. Swift stores a struct, which is a copy, so it is not affected.
- `RecordId.ToString()` is not modelled: record ids are passed as their text. `client.Transaction()` is not part of this model.
- The base64 crate's several `DecodeError` variants become a single `DecodeError`.
- DotnetTransaction.Read: System.Text.Json does not hand a JSON `null` element to a reference-type converter (its `HandleNull` is false), so `[null]` deserializes to a list holding a null operation without calling `Read`. List deserialization is not modelled.
- IdCodec.DecodeSlice: the order of `decode_slice`'s checks follows the general-purpose engine of base64 0.22, which is not part of this model: a lone invalid trailing byte, then the size of the leading complete quads, then the symbols, then the last quad. What the buffer holds after a failure is not specified.
- Decoding accepts only canonical padded input. Non-zero trailing bits and missing padding are rejected, as in the crate's padded URL-safe engine; its specific error positions are not kept.
- `get_header`, `get_header_owned` and `cow_to_string` are not modelled: they are thin wrappers over a header map and lossy UTF-8 decoding.
- The request UPDATE's `CASE :old_email WHEN NULL THEN TRUE` compares with `=`, and a comparison with NULL is never true. An absent old address therefore matches no row, and that is what is modelled. The reading where an absent old address matches the caller's row is not proved.
- `now` is whole seconds. chrono's sub-second clock gives the same rate-limit decision against whole-second timestamps. The same `now` stands for `UNIXEPOCH()` in the database.
- Email validation, user lookup, `validate_redirect`, the random code, building and sending the email, and chrono's date range are parameters or uninterpreted predicates. Database errors from `execute` are not modelled.
- The `Redirect` and `Response` values are reduced to their body text or location.
- examples/data-cli-tutorial/src/fill.ts is not modelled: it is a script of network calls, CSV parsing and `parseFloat`.
- crates/assets/src/lib.rs is not modelled: it only declares embedded assets.
