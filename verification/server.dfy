/**
 * The two route handlers of server.js as methods of one server object.
 *
 * The server owns one ledger client (`api`), whose connection it opens and
 * closes per request, one MongoDB client (`client`), and one wallet. The
 * calls into those libraries are not modelled: each handler receives, for
 * every call it may make, whether that call returned normally (and with what)
 * or threw. The object records which calls were made, in order, and whether
 * the ledger client is left connected.
 */
module Server {
  import opened Wrappers
  import opened Hex
  import opened Transaction
  import opened Scan

  /** A SHA-256 digest: 32 bytes. */
  type Digest = d: Bytes | |d| == 32 witness seq(32, _ => 0)

  /** How a call that yields nothing ended. */
  datatype Completion = Normal | Throw

  /** How a call that yields a value ended. */
  datatype Call<T> = Returns(value: T) | Throws

  /** The fields of the submit response the handler reads. */
  datatype SubmitResponse = SubmitResponse(resultCode: string, resultMessage: string)

  /** The parameters of the `account_objects` request (server.js:90-95). */
  datatype AccountObjectsRequest =
    AccountObjectsRequest(account: string, objectType: string, ledgerIndex: string, limit: nat)

  /** A call the handlers make on the store, the wallet or a client. */
  datatype Effect =
    | StoreInsert(hash: string)                   // insertOne into the file_hashes collection
    | ApiConnect                                  // connect the ledger client
    | WalletSign(payment: Payment)                // sign the payment with the wallet
    | ClientSubmit                                // submit the signed blob through the MongoDB client
    | ApiRequest(request: AccountObjectsRequest)  // the account_objects request
    | ApiDisconnect                               // disconnect the ledger client

  /** How each call of one upload request ends. */
  datatype UploadCalls = UploadCalls(
    insert: Completion,
    connect: Completion,
    sign: Completion,
    submit: Call<SubmitResponse>,
    disconnect: Completion)

  /** How each call of one check request ends. */
  datatype CheckCalls = CheckCalls(
    connect: Completion,
    request: Call<seq<LedgerObject>>,
    disconnect: Completion)

  /** The JSON body (and status) the upload handler answers with. */
  datatype UploadResponse =
    | Uploaded(hash: string, transactionResult: string, resultMessage: string)
    | UploadFailed
  {
    /** The `status` field. */
    function Status(): (s: string)
      ensures s == "success" <==> Uploaded?
      ensures s == "error" <==> UploadFailed?
    {
      if Uploaded? then "success" else "error"
    }

    /** The HTTP status: Express's default 200, or 500 from the `catch`. */
    function HttpStatus(): (code: nat)
      ensures code == 200 <==> Uploaded?
      ensures code == 500 <==> UploadFailed?
    {
      if Uploaded? then 200 else 500
    }

    /** The `message` field, which only the error body has. */
    function Message(): (m: Option<string>)
      ensures m.Some? <==> UploadFailed?
      ensures m.Some? ==> m.value == "Failed to process transaction."
    {
      if Uploaded? then None else Some("Failed to process transaction.")
    }
  }

  /** The JSON body (and status) the check handler answers with. */
  datatype CheckResponse =
    | HashExists(timestamp: Option<int>)
    | HashNotFound
    | CheckFailed
  {
    /** The `status` field: one value per outcome. */
    function Status(): (s: string)
      ensures s == "success" <==> HashExists?
      ensures s == "not_found" <==> HashNotFound?
      ensures s == "error" <==> CheckFailed?
    {
      match this
      case HashExists(_) => "success"
      case HashNotFound => "not_found"
      case CheckFailed => "error"
    }
    /** The HTTP status: 500 only from the `catch`. */
    function HttpStatus(): (code: nat)
      ensures code == 500 <==> CheckFailed?
      ensures code == 200 <==> !CheckFailed?
    {
      if CheckFailed? then 500 else 200
    }

    /** The `message` field: a different text for each outcome. */
    function Message(): (m: string)
      ensures m == "Hash exists in hook's state." <==> HashExists?
      ensures m == "Hash does not exist in hook's state." <==> HashNotFound?
      ensures m == "Failed to check hash." <==> CheckFailed?
    {
      match this
      case HashExists(_) => "Hash exists in hook's state."
      case HashNotFound => "Hash does not exist in hook's state."
      case CheckFailed => "Failed to check hash."
    }
  }

  /**
   * How many of a planned sequence of calls are made when each call either
   * returns or throws and the first throw ends the sequence.
   */
  function CallsMade(throws: seq<bool>): (n: nat)
    ensures n <= |throws|
    ensures forall j :: 0 <= j < n - 1 ==> !throws[j]
    ensures n == |throws| || (n > 0 && throws[n - 1])
    ensures |throws| > 0 ==> n > 0
    decreases |throws|
  {
    if throws == [] then 0
    else if throws[0] then 1
    else 1 + CallsMade(throws[1..])
  }

  /** CallsMade is the one count that stops at the first throw: its contract pins it down. */
  lemma CallsMadeIs(throws: seq<bool>, k: nat)
    requires k <= |throws| && (|throws| > 0 ==> k > 0)
    requires forall j :: 0 <= j < k - 1 ==> !throws[j]
    requires k == |throws| || throws[k - 1]
    ensures CallsMade(throws) == k
  {
  }

  /** The ledger calls of an upload, in the order server.js:61-65 makes them. */
  function LedgerPlan(payment: Payment): (plan: seq<Effect>)
    ensures |plan| == 4
    ensures plan[0] == ApiConnect && plan[1] == WalletSign(payment) && plan[2] == ClientSubmit
    ensures plan[|plan| - 1] == ApiDisconnect && ApiDisconnect !in plan[..|plan| - 1]
  {
    [ApiConnect, WalletSign(payment), ClientSubmit, ApiDisconnect]
  }

  function LedgerThrows(calls: UploadCalls): seq<bool>
  {
    [calls.connect == Throw, calls.sign == Throw, calls.submit.Throws?, calls.disconnect == Throw]
  }

  /** How many of connect, sign and submit are made, case by case. */
  function SubmitStops(calls: UploadCalls): nat
  {
    if calls.connect == Throw then 1
    else if calls.sign == Throw then 2
    else 3
  }

  /** How many of the four ledger calls of an upload are made, case by case. */
  function LedgerStops(calls: UploadCalls): nat
  {
    if SubmitStops(calls) < 3 || calls.submit.Throws? then SubmitStops(calls) else 4
  }

  /** The case-by-case counts are the generic "up to the first throw" count. */
  lemma StopsAtFirstThrow(calls: UploadCalls)
    ensures LedgerStops(calls) == CallsMade(LedgerThrows(calls))
    ensures SubmitStops(calls) == CallsMade(LedgerThrows(calls)[..3])
  {
    CallsMadeIs(LedgerThrows(calls), LedgerStops(calls));
    CallsMadeIs(LedgerThrows(calls)[..3], SubmitStops(calls));
  }

  /** The calls of a check before its `finally`, in the order server.js:87-95 makes them. */
  function CheckPlan(request: AccountObjectsRequest): (plan: seq<Effect>)
    ensures |plan| == 2 && plan[0] == ApiConnect && plan[1] == ApiRequest(request)
    ensures ApiDisconnect !in plan
  {
    [ApiConnect, ApiRequest(request)]
  }

  function CheckThrows(calls: CheckCalls): seq<bool>
  {
    [calls.connect == Throw, calls.request.Throws?]
  }

  function CheckStops(calls: CheckCalls): nat
  {
    if calls.connect == Throw then 1 else 2
  }

  lemma CheckStopsAtFirstThrow(calls: CheckCalls)
    ensures CheckStops(calls) == CallsMade(CheckThrows(calls))
  {
    CallsMadeIs(CheckThrows(calls), CheckStops(calls));
  }

  /**
   * The upload handler calls `api.disconnect()` exactly when the connect and
   * the sign returned and the submit returned a response. Any earlier throw
   * skips it.
   */
  lemma UploadDisconnectsOnlyAfterSubmit(payment: Payment, calls: UploadCalls)
    ensures ApiDisconnect in LedgerPlan(payment)[..CallsMade(LedgerThrows(calls))]
      <==> calls.connect == Normal && calls.sign == Normal && calls.submit.Returns?
  {
    var plan := LedgerPlan(payment);
    StopsAtFirstThrow(calls);
    var n := LedgerStops(calls);
    assert forall k :: 0 <= k < 3 ==> plan[k] != ApiDisconnect;
    if n < 4 {
      assert forall x :: x in plan[..n] ==> x in plan[..3];
    } else {
      assert plan[..n][3] == ApiDisconnect;
    }
  }

  /**
   * As written, a submit that throws leaves the ledger client connected: the
   * calls made stop at the submit and contain no disconnect.
   */
  lemma UploadLeaksWhenSubmitThrows(payment: Payment)
    ensures var calls := UploadCalls(Normal, Normal, Normal, Throws, Normal);
      LedgerPlan(payment)[..CallsMade(LedgerThrows(calls))] == [ApiConnect, WalletSign(payment), ClientSubmit]
  {
    StopsAtFirstThrow(UploadCalls(Normal, Normal, Normal, Throws, Normal));
  }

  /**
   * A disconnect in a `finally` block, after any prefix of calls that contains
   * none, is made exactly once and is the last call.
   */
  lemma FinallyDisconnectsOnce(plan: seq<Effect>, n: nat)
    requires n <= |plan| && ApiDisconnect !in plan
    ensures multiset(plan[..n] + [ApiDisconnect])[ApiDisconnect] == 1
  {
    var made := plan[..n];
    assert forall x :: x in made ==> x in plan;
    assert multiset(made)[ApiDisconnect] == 0;
    assert multiset(made + [ApiDisconnect]) == multiset(made) + multiset{ApiDisconnect};
  }

  /** The check handler releases the connection exactly once, and last, whatever throws. */
  lemma CheckDisconnectsOnce(request: AccountObjectsRequest, calls: CheckCalls)
    ensures var trace := CheckPlan(request)[..CheckStops(calls)] + [ApiDisconnect];
      multiset(trace)[ApiDisconnect] == 1 && trace[|trace| - 1] == ApiDisconnect
  {
    FinallyDisconnectsOnce(CheckPlan(request), CheckStops(calls));
  }

  /** With the disconnect in a `finally`, every upload releases the connection exactly once, and last. */
  lemma ScopedUploadDisconnectsOnce(payment: Payment, calls: UploadCalls)
    ensures var trace := LedgerPlan(payment)[..SubmitStops(calls)] + [ApiDisconnect];
      multiset(trace)[ApiDisconnect] == 1 && trace[|trace| - 1] == ApiDisconnect
  {
    var plan := LedgerPlan(payment)[..3];
    assert LedgerPlan(payment)[..SubmitStops(calls)] == plan[..SubmitStops(calls)];
    FinallyDisconnectsOnce(plan, SubmitStops(calls));
  }

  /** What the check handler answers for the objects the ledger returned. */
  function Verdict(objs: seq<LedgerObject>, key: string): (resp: CheckResponse)
    ensures resp.HashNotFound? <==> forall j :: 0 <= j < |objs| ==> ProbeObject(objs[j], key) == NoMatch
    ensures resp.HashExists? ==>
      exists i :: 0 <= i < |objs| && ProbeObject(objs[i], key) == Match && resp.timestamp == objs[i].date &&
        forall j :: 0 <= j < i ==> ProbeObject(objs[j], key) == NoMatch
    ensures resp.CheckFailed? ==>
      exists i :: 0 <= i < |objs| && ProbeObject(objs[i], key) == TypeError &&
        forall j :: 0 <= j < i ==> ProbeObject(objs[j], key) == NoMatch
  {
    match Find(objs, key)
    case Found(i) => HashExists(objs[i].date)
    case NotFound => HashNotFound
    case Threw(_) => CheckFailed
  }

  class AnchorServer {
    /** `wallet.address`, the account that pays itself and owns the queried objects. */
    const address: string
    /** The SHA-256 digest of a buffer; the hash function itself is not modelled. */
    const sha256: Bytes -> Digest
    /** Whether the shared ledger client `api` is connected. */
    var connected: bool
    /** The calls made on the store, the wallet and the clients, oldest first. */
    var effects: seq<Effect>

    constructor (address: string, sha256: Bytes -> Digest)
      ensures this.address == address && this.sha256 == sha256
      ensures !connected && effects == []
    {
      this.address := address;
      this.sha256 := sha256;
      connected := false;
      effects := [];
    }

    /** The request of server.js:90-95. */
    function CheckRequest(): (r: AccountObjectsRequest)
      ensures r.account == address
      ensures r.objectType == "state" && r.ledgerIndex == "validated"
      ensures r.limit == QueryLimit
    {
      AccountObjectsRequest(address, "state", "validated", QueryLimit)
    }

    /**
     * POST /upload-file (server.js:36-79). `file` is `req.file`, None when the
     * request carried no file, in which case `req.file.buffer` throws. Every
     * throw lands in the `catch` of server.js:73-78 and answers 500.
     */
    method UploadFile(file: Option<Bytes>, calls: UploadCalls) returns (resp: UploadResponse)
      modifies this
      ensures file.None? ==> resp == UploadFailed && effects == old(effects) && connected == old(connected)
      ensures file.Some? ==>
        var digest := sha256(file.value);
        effects == old(effects) + [StoreInsert(LowerHex(digest))] +
          if calls.insert == Throw then []
          else LedgerPlan(BuildPayment(address, digest, |file.value|))[..LedgerStops(calls)]
      ensures resp.Uploaded? <==>
        file.Some? && calls.insert == Normal && calls.connect == Normal && calls.sign == Normal &&
        calls.submit.Returns? && calls.disconnect == Normal
      ensures resp.Uploaded? ==>
        calls.submit.Returns? &&
        resp.hash == LowerHex(sha256(file.value)) &&
        resp.transactionResult == calls.submit.value.resultCode &&
        resp.resultMessage == calls.submit.value.resultMessage
      ensures connected ==
        if file.Some? && calls.insert == Normal && calls.connect == Normal
        then !resp.Uploaded?
        else old(connected)
    {
      if file.None? {
        return UploadFailed;
      }
      var buffer := file.value;
      var digest := sha256(buffer);
      var hashHex := LowerHex(digest);
      effects := effects + [StoreInsert(hashHex)];
      if calls.insert == Throw {
        return UploadFailed;
      }
      var payment := BuildPayment(address, digest, |buffer|);
      var response := SubmitPayment(payment, calls);
      if response.Throws? {
        return UploadFailed;
      }
      resp := Uploaded(hashHex, response.value.resultCode, response.value.resultMessage);
    }

    /**
     * The ledger leg of the upload handler (server.js:61-65): connect, sign,
     * submit through `client`, then disconnect. The disconnect is reached only
     * when the three calls before it return; a throw leaves the client as it is.
     */
    method SubmitPayment(payment: Payment, calls: UploadCalls) returns (outcome: Call<SubmitResponse>)
      modifies this
      ensures effects == old(effects) + LedgerPlan(payment)[..LedgerStops(calls)]
      ensures outcome.Returns? <==>
        calls.connect == Normal && calls.sign == Normal && calls.submit.Returns? && calls.disconnect == Normal
      ensures outcome.Returns? ==> outcome == calls.submit
      ensures connected == if calls.connect == Normal then !outcome.Returns? else old(connected)
    {
      outcome := SignAndSubmit(payment, calls);
      if outcome.Returns? {
        effects := effects + [ApiDisconnect];
        assert LedgerPlan(payment)[..3] + [ApiDisconnect] == LedgerPlan(payment)[..4];
        if calls.disconnect == Throw {
          outcome := Throws;
        } else {
          connected := false;
        }
      }
    }

    /** Connect, sign and submit (server.js:61-63), stopping at the first call that throws. */
    method SignAndSubmit(payment: Payment, calls: UploadCalls) returns (outcome: Call<SubmitResponse>)
      modifies this
      ensures effects == old(effects) + LedgerPlan(payment)[..SubmitStops(calls)]
      ensures outcome == if calls.connect == Normal && calls.sign == Normal then calls.submit else Throws
      ensures connected == (calls.connect == Normal || old(connected))
    {
      ghost var plan := LedgerPlan(payment);
      effects := effects + [ApiConnect];
      if calls.connect == Throw {
        assert plan[..1] == [ApiConnect];
        return Throws;
      }
      connected := true;
      effects := effects + [WalletSign(payment)];
      if calls.sign == Throw {
        assert plan[..2] == [ApiConnect, WalletSign(payment)];
        return Throws;
      }
      effects := effects + [ClientSubmit];
      assert plan[..3] == [ApiConnect, WalletSign(payment), ClientSubmit];
      outcome := calls.submit;
    }

    /**
     * POST /check-hash (server.js:81-119). The `finally` block disconnects on
     * every path, after the response is chosen; a throw from that disconnect
     * does not change the response already sent.
     */
    method CheckHash(file: Option<Bytes>, calls: CheckCalls) returns (resp: CheckResponse)
      modifies this
      ensures effects == old(effects) +
        (if file.None? then [] else CheckPlan(CheckRequest())[..CheckStops(calls)]) + [ApiDisconnect]
      ensures resp ==
        if file.None? || calls.connect == Throw || calls.request.Throws? then CheckFailed
        else Verdict(calls.request.value, MemoHex(sha256(file.value)))
      ensures connected ==
        if calls.disconnect == Normal then false
        else old(connected) || (file.Some? && calls.connect == Normal)
    {
      ghost var plan := CheckPlan(CheckRequest());
      if file.None? {
        resp := CheckFailed;
      } else {
        var digest := sha256(file.value);
        effects := effects + [ApiConnect];
        if calls.connect == Throw {
          assert plan[..1] == [ApiConnect];
          resp := CheckFailed;
        } else {
          connected := true;
          var stateKey := ToUpper(LowerHex(digest));
          effects := effects + [ApiRequest(CheckRequest())];
          assert plan[..2] == plan;
          if calls.request.Throws? {
            resp := CheckFailed;
          } else {
            resp := Verdict(calls.request.value, stateKey);
          }
        }
      }
      // finally
      effects := effects + [ApiDisconnect];
      if calls.disconnect == Normal {
        connected := false;
      }
    }

    /**
     * The upload handler with its disconnect moved into a `finally` block, as
     * the check handler has it: the connection is released on every path.
     */
    method UploadFileScoped(file: Option<Bytes>, calls: UploadCalls) returns (resp: UploadResponse)
      modifies this
      ensures file.None? ==> effects == old(effects) + [ApiDisconnect]
      ensures file.Some? ==>
        var digest := sha256(file.value);
        effects == old(effects) + [StoreInsert(LowerHex(digest))] +
          (if calls.insert == Throw then []
           else LedgerPlan(BuildPayment(address, digest, |file.value|))[..SubmitStops(calls)]) +
          [ApiDisconnect]
      ensures resp.Uploaded? <==>
        file.Some? && calls.insert == Normal && calls.connect == Normal && calls.sign == Normal &&
        calls.submit.Returns?
      ensures resp.Uploaded? ==>
        calls.submit.Returns? &&
        resp.hash == LowerHex(sha256(file.value)) &&
        resp.transactionResult == calls.submit.value.resultCode &&
        resp.resultMessage == calls.submit.value.resultMessage
      ensures connected ==
        if calls.disconnect == Normal then false
        else old(connected) || (file.Some? && calls.insert == Normal && calls.connect == Normal)
    {
      resp := UploadFailed;
      if file.Some? {
        var buffer := file.value;
        var digest := sha256(buffer);
        var hashHex := LowerHex(digest);
        effects := effects + [StoreInsert(hashHex)];
        if calls.insert == Normal {
          var payment := BuildPayment(address, digest, |buffer|);
          var response := SignAndSubmit(payment, calls);
          if response.Returns? {
            resp := Uploaded(hashHex, response.value.resultCode, response.value.resultMessage);
          }
        }
      }
      // finally
      effects := effects + [ApiDisconnect];
      if calls.disconnect == Normal {
        connected := false;
      }
    }
  }
}
