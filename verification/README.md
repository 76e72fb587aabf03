# xrpl-certificate, modelled in Dafny

xrpl-certificate anchors proof that a file existed on a Xahau ledger. It has
two parts.

- A Node.js server (`server.js`) with two routes:
  - `POST /upload-file` hashes the uploaded file with SHA-256 and records the
    lowercase hex hash in MongoDB. It then pays a self-payment whose single
    memo carries the upper-case hex of the hash. The amount grows with the
    file's size in started kilobytes.
  - `POST /check-hash` hashes a file and asks the ledger for the account's
    state objects (at most 100). It answers whether one of them carries the
    hash as the data of its first memo.
- A Xahau hook (`certificate.c`): a write-once registry keyed by the 32-byte
  memo of the triggering transaction.
  - A missing or wrongly sized memo rolls the transaction back.
  - A memo already in the hook state is accepted without a write.
  - A new memo is stored once; a failed store rolls back.

The Dafny modules follow that structure:

| file | module | models |
|---|---|---|
| `wrappers.dfy` | `Wrappers` | `Option`, also used for JavaScript properties that may be `undefined` |
| `hex.dfy` | `Hex` | Node's lowercase hex rendering, ASCII upper-casing, the RFC 4648 section 8 Base16 alphabet, hex decoding |
| `amount.dfy` | `Amount` | the `Amount` string: the decimal of the started kilobytes, then seven `'0'` characters |
| `transaction.dfy` | `Transaction` | the payment object the upload handler signs |
| `scan.dfy` | `Scan` | the `find` over `account_objects`, including the TypeError it can throw, and the 100-object page |
| `server.dfy` | `Server` | the two handlers as methods of `AnchorServer`; the object records the calls made and whether the ledger client is connected |
| `certificate.dfy` | `Certificate` | `hook()` as a method of `HookContext`; the object holds the hook state map and the accept/rollback exits |

### How the foreign calls are modelled

- **Server calls.** Every call into a library may return or throw:
  MongoDB `insertOne`, ledger `connect`/`request`/`disconnect`, `wallet.sign`
  and `client.submit`. A handler receives one `UploadCalls` or `CheckCalls`
  value that says, for each call, whether it returned (and with what) or threw.
  - A throw ends the `try` block. The `effects` trace records each call that
    was made, in order.
  - `client.submit` is called on the MongoDB client, not on the ledger
    client. The model treats it as one more call that may throw.
- **SHA-256.** It is a function value fixed when the server object is built.
- **Hook host calls.** The hook receives the host's answers as a `HostAnswers`
  value of signed codes. Those codes come from the memo probe, the memo read,
  the state lookup and `state_set`.
  - The bytes stored under the memo stay abstract. At certificate.c:42 the
    buffer argument is built from the *value* of the ledger sequence number,
    used as an address. So `state_set` reads 8 bytes of hook memory at that
    address, or fails when the read is out of bounds. The model takes those
    bytes, and the failure code, as host answers.
  - Every host result and the hook's return value is an `int64`, a newtype
    bounded like C's `int64_t`.
  - The lookup's positive result also stays abstract. The predicates
    `ReportsPresent` and `ReportsOnlyPresent` state the host behaviour that a
    lemma relies on, as "positive exactly when the key is stored".

### Where the model follows the code over other descriptions

- `Amount`: the code appends seven zeros, so one started kilobyte costs
  10,000,000 drops. The code's comment says one currency unit (1,000,000
  drops) per kilobyte. The model follows the code.
- In `hook()`, the `return` after each `accept`/`rollback` is modelled as the
  hook's return value. Under the Hooks API, `accept` and `rollback` end the
  hook, so those returns are not reached on a real ledger. The model keeps
  both: the exit that ends the run, and the value the C function would return.

## Model

| member | source | states |
|---|---|---|
| `Hex.LowerHex` | server.js:39-40 | Two characters per byte, and each is a lowercase hex digit. |
| `Hex.DecodeLowerHex` | server.js:40 | Decoding the lowercase hex gives back the digest: the hash string loses nothing. |
| `Hex.LowerHexInjective` | server.js:40-43 | Two digests have the same stored hash string exactly when they are equal. |
| `Hex.UpperHex` | server.js:55 | Two characters per byte, each from the RFC 4648 Base16 alphabet (0-9, A-F). |
| `Hex.UpperOfLowerHex` | server.js:40-55 | Upper-casing Node's lowercase hex gives exactly the RFC 4648 Base16 encoding. |
| `Hex.UpperChar` | server.js:55 | No lower-case ASCII letter survives. A lower-case letter becomes the upper-case letter at the same place in the alphabet, and every other character is unchanged. |
| `Hex.ToUpper` | server.js:55 | Upper-casing keeps the length, leaves no lower-case ASCII letter, and turns lowercase hex digits into Base16 digits. |
| `Hex.MemoHex` | server.js:55 | The upper-cased hash put on the ledger and used as the lookup key is the Base16 encoding of the digest. |
| `Hex.DecodeUpperHex` | server.js:55 | Decoding the memo text gives back the digest. |
| `Hex.MemoHexInjective` | server.js:89 | Two digests give the same memo key exactly when they are equal, so a key names one digest. |
| `Amount.Units` | server.js:48 | The started-kilobyte count u is a ceiling: u*1000 >= len and (u-1)*1000 < len. |
| `Amount.UnitsIsLeast` | server.js:48 | No smaller count covers the content: every v with v*1000 >= len is at least the count. |
| `Amount.Decimal` | server.js:48 | The rendering of a whole number is non-empty, all decimal digits, and has no leading zero unless it is "0". |
| `Amount.DecimalRoundTrip` | server.js:48 | Reading the decimal rendering back gives the number. |
| `Amount.DecimalInjective` | server.js:48 | Two numbers render alike exactly when they are equal. |
| `Amount.AmountString` | server.js:48 | The amount is all digits and at least 8 long. It is the decimal rendering of the started-kilobyte count followed by exactly seven '0' characters, so it starts with '0' only for empty content, as "00000000". |
| `Amount.AmountValue` | server.js:48 | Read as a number, the amount is the started-kilobyte count times 10,000,000 drops. |
| `Amount.AmountDependsOnlyOnUnits` | server.js:48 | Two content lengths give the same amount exactly when they start the same number of kilobytes. |
| `Amount.UnitsExamples` | server.js:48 | 0 bytes start 0 kilobytes, 1 byte starts 1, 1000 bytes start 1, and 1001 bytes start 2. |
| `Amount.AmountOfEmptyContent` | server.js:48 | Empty content gives the amount "00000000". |
| `Amount.AmountOfOneKilobyte` | server.js:48 | 1000 bytes give "10000000". |
| `Amount.AmountOf2500Bytes` | server.js:48 | 2500 bytes give "30000000". |
| `Transaction.BuildPayment` | server.js:45-59 | A self-payment (account = destination = the wallet address) of type "Payment". Its fee is "100000". Its only memo is {MemoType "Hash", MemoData the Base16 digest}. Its amount is the decimal rendering of the started-kilobyte count followed by seven '0' characters, worth that count times 10,000,000. |
| `Transaction.PaymentCarriesDigest` | server.js:51-58 | The payment's memo data is 64 upper-case hex digits for a 32-byte digest, and decodes back to the digest. |
| `Transaction.PaymentMemoIdentifiesDigest` | server.js:51-58 | Two payments carry the same memo exactly when they anchor the same digest, whatever the content lengths. |
| `Transaction.PaymentDependsOnLengthOnlyByUnits` | server.js:48 | Two payments for the same digest are identical exactly when the lengths start the same number of kilobytes. |
| `Scan.ProbeObject` | server.js:98 | The `find` callback on one object. An object without `Memos` is skipped. The callback throws exactly when `Memos` is present and its first entry is missing or has no `Memo`. It matches exactly when the first memo's `MemoData` equals the key. |
| `Scan.Find` | server.js:97-99 | `Found(i)`: object i matches and every earlier object is skipped. `Threw(i)`: object i has a Memos array whose first entry is missing or has no Memo, and every earlier object is skipped. `NotFound`: every object is skipped. |
| `Scan.FindStopsAtFirstStop` | server.js:97-99 | The scan stops at the first object that matches or throws, and reports which. |
| `Scan.ThrowBeforeMatchIsError` | server.js:97-115 | A malformed object before the matching one makes the scan throw, even though a match exists later. |
| `Scan.AnchoredIsFound` | server.js:45-59 | If an object carries the memos of an anchoring payment and every earlier object is well formed, then looking up that digest finds an object at or before it. |
| `Scan.FoundMeansSameDigest` | server.js:97-106 | If the object found carries an anchoring payment's memos, that payment anchored the digest looked up. |
| `Scan.FirstPage` | server.js:90-95 | The page of state objects is a prefix of all of them, at most 100 long, and is all of them when there are fewer. |
| `Scan.BeyondFirstPageIsNotFound` | server.js:90-99 | If none of the first 100 objects matches or throws, the answer is not found, whatever follows. |
| `Scan.MatchAtPosition101IsMissed` | server.js:90-99 | An anchored object at position 101 behind 100 unrelated ones is not found. |
| `Server.UploadResponse.Status` | server.js:67-77 | The `status` is "success" exactly for an upload that completed, and "error" exactly for a failed one. |
| `Server.UploadResponse.HttpStatus` | server.js:67-77 | 200 exactly for a completed upload, 500 exactly for a failed one. |
| `Server.UploadResponse.Message` | server.js:67-77 | Only the error body has a `message`, and it is "Failed to process transaction.". |
| `Server.CheckResponse.Status` | server.js:101-115 | The `status` is "success", "not_found" or "error", one per outcome, in both directions. |
| `Server.CheckResponse.HttpStatus` | server.js:101-115 | 500 exactly for the error outcome, 200 otherwise. |
| `Server.CheckResponse.Message` | server.js:101-115 | Each of the three outcomes has its own message, in both directions. |
| `Server.LedgerPlan` | server.js:61-65 | The upload's ledger calls, in order: connect, sign this payment, submit, then disconnect. The disconnect is the last call and the only one. |
| `Server.CheckPlan` | server.js:87-95 | The check's calls before its `finally`: connect, then the account_objects request, and no disconnect. |
| `Server.AnchorServer.CheckRequest` | server.js:90-95 | The request asks for the wallet address's "state" objects in the "validated" ledger, with limit 100. |
| `Server.CallsMade` | server.js:61-65 | The number of calls made in a sequence that stops at the first throw. No earlier call threw, and the last call made is either the last planned or one that threw. |
| `Server.StopsAtFirstThrow` | server.js:61-65 | The case-by-case counts of the upload's ledger calls are the stop-at-first-throw count. |
| `Server.CheckStopsAtFirstThrow` | server.js:87-95 | The same for the check's connect and request. |
| `Server.UploadDisconnectsOnlyAfterSubmit` | server.js:61-65 | The upload handler disconnects exactly when connect, sign and submit all returned. |
| `Server.UploadLeaksWhenSubmitThrows` | server.js:61-65 | If submit throws, the calls made are connect, sign and submit, with no disconnect. |
| `Server.FinallyDisconnectsOnce` | server.js:116-118 | A disconnect in a `finally` after calls that hold none is made exactly once. |
| `Server.CheckDisconnectsOnce` | server.js:87-118 | Whatever throws, the check handler disconnects exactly once, and as its last call. |
| `Server.ScopedUploadDisconnectsOnce` | server.js:61-65 | With a `finally`, every upload disconnects exactly once, and last. |
| `Server.Verdict` | server.js:97-112 | "not found" exactly when every object is skipped. "exists" carries the `date` of the first matching object. "error" means a malformed object came before any match. |
| `Server.AnchorServer.UploadFile` | server.js:36-79 | With no file: error, and no calls. Otherwise the hash is inserted first, then the ledger calls run up to the first throw. The answer is success exactly when every call returned, and it carries the lowercase hash and the submit's result code and message. The connection flag changes only when the connect returned; it is then left connected exactly when the upload failed. |
| `Server.AnchorServer.SubmitPayment` | server.js:61-65 | Makes the four ledger calls up to the first throw. Returns the submit response exactly when all four returned. A throw after the connect leaves the client connected. |
| `Server.AnchorServer.SignAndSubmit` | server.js:61-63 | Makes connect, sign and submit up to the first throw. Returns the submit's outcome when connect and sign returned. |
| `Server.AnchorServer.CheckHash` | server.js:81-119 | Makes connect and the account_objects request (for the wallet address, "state", "validated", limit 100) up to the first throw, and always ends with a disconnect. A missing file or any throw answers "error". Otherwise the answer is the `Verdict` for the upper-case hash. The client is disconnected when the disconnect returned. |
| `Server.AnchorServer.UploadFileScoped` | server.js:61-65 | The corrected upload: the same answer rule, except that success no longer needs the disconnect. Every path ends with exactly one disconnect. |
| `Certificate.Run` | certificate.c:4-54 | A rollback leaves the state unchanged. Keys other than the memo keep their values, and no other key is added. The state changes only on the "New timestamp stored" accept with return 0, which stores the written bytes under the memo. |
| `Certificate.RunOutcomes` | certificate.c:10-53 | No memo: rollback code 10, returns 1. A memo that is not 32 bytes: rollback code 20, returns 1. A positive lookup: accept 0, returns the lookup, no write. A negative store: rollback with that code, returns it, no write. Otherwise: accept 0, returns 0, one entry written under the memo. |
| `Certificate.AcceptMeansRegistered` | certificate.c:26-53 | If the host reports only stored keys as present, an accepted run leaves the memo registered. |
| `Certificate.NeverOverwrites` | certificate.c:26-42 | If the host reports a stored memo as present, no existing entry is changed or removed. |
| `Certificate.SecondRunChangesNothing` | certificate.c:26-53 | After a run that stored a memo, a second run for that memo that finds it accepts, returns the lookup, and leaves the state as it was. |
| `Certificate.WriteOnceAcrossRuns` | certificate.c:26-53 | Over any sequence of runs in which the host reports stored memos as present, every entry keeps its value. |
| `Certificate.RunAllKeys` | certificate.c:42 | Every key after a sequence of runs was already there or is the memo of one of the runs. |
| `Certificate.HookContext.Hook` | certificate.c:4-54 | One run of the hook: the state becomes that of `Run`, and the method returns `Run`'s value. Exactly one exit, accept or rollback, is appended. |

## Left out

- SHA-256 itself: the digest is a function value passed to the server object; only its 32-byte length is used.
- Express routing, multer's in-memory upload, `res.json`/`res.status` and `app.listen`: handlers return a response value instead (`Status`, `HttpStatus`, `Message` give its fields).
- The MongoDB document's `createdAt` clock value and the connection set-up at start-up: the insert is recorded by its hash only, and may throw.
- The ledger client's network protocol, the wallet's signing and the encoding of the signed blob: each is a call that returns or throws.
- Event logging (`console.log`, `console.error`, the `api.on` handlers) and the hook's `trace_num` output.
- Concurrent requests sharing the one ledger client: each handler runs to completion before the next.
- Pagination of `account_objects` beyond the first 100 objects: the ledger's answer is modelled as one page.
- The ledger's decoding of the memo hex into the 32 raw bytes the hook reads: the hook's memo is given as bytes.
- Hook host semantics: the `_g` guard, `SBUF` pointer and size passing, and the buffer `state` fills are not modelled; host results are parameters.
- `Math.ceil` on floating point: `Amount.Units` is the integer ceiling, equal to it for every length below 2^53.
- `Hex.ToUpper`: models JavaScript upper-casing on ASCII letters only; hex text never holds other letters.
- `Certificate.Run`: the value stored under the memo is the abstract 8 bytes the host is handed, not tied to the ledger sequence number.
- `Server.AnchorServer.CheckHash`, `Server.AnchorServer.SubmitPayment`, `Server.AnchorServer.UploadFile`: a disconnect that throws is modelled as leaving the connection flag as it was. In the upload handler that throw lands in the `catch` and answers 500. In the check handler it escapes the `finally` after the answer was chosen, and the unhandled rejection that follows is not modelled.

## Findings

| source | as written | input that shows it | evidently intended | confidence | as-written member | corrected member |
|---|---|---|---|---|---|---|
| server.js:61-65 | The upload handler disconnects the ledger client only after `client.submit` returns. It has no `finally`. | A submit that throws. The trace is connect, sign, submit, and the client stays connected. `client` is the MongoDB client (server.js:28), which as far as we know has no `submit` method. If so, the call throws on every upload that reaches it, and every such upload leaks the connection. | Release the connection on every path, as the check handler does at server.js:116-118. | medium, not executed | `Server.UploadLeaksWhenSubmitThrows` | `Server.ScopedUploadDisconnectsOnce` |
