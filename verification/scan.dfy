/**
 * The verification scan of the check-hash handler (server.js:89-112): the
 * first of the returned account objects whose first memo carries the
 * upper-case hex key.
 *
 * The predicate is JavaScript: an object without `Memos` is skipped; one whose
 * `Memos` has no first element, or whose first element has no `Memo`, makes
 * the property access throw a TypeError, which ends the scan; a missing
 * `MemoData` is `undefined` and matches nothing.
 */
module Scan {
  import opened Wrappers
  import opened Hex
  import opened Transaction

  /** One element of `account_objects`: its `Memos` array (if any) and its `date` field. */
  datatype LedgerObject = LedgerObject(memos: Option<seq<MemoEntry>>, date: Option<int>)

  /** What the `find` callback does on one object. */
  datatype Probe = Match | NoMatch | TypeError

  /** Where `find` stopped: at a match, past the end, or at an object that threw. */
  datatype FindResult = Found(index: nat) | NotFound | Threw(index: nat)

  /** The `limit` of the `account_objects` request. */
  const QueryLimit: nat := 100

  /** The `find` callback on one object: skip, match, or throw on a missing first memo. */
  function ProbeObject(obj: LedgerObject, key: string): (p: Probe)
    ensures obj.memos.None? ==> p == NoMatch
    ensures p == TypeError <==>
      obj.memos.Some? && (|obj.memos.value| == 0 || obj.memos.value[0].memo.None?)
    ensures p == Match <==>
      obj.memos.Some? && |obj.memos.value| > 0 && obj.memos.value[0].memo.Some? &&
      obj.memos.value[0].memo.value.memoData == Some(key)
  {
    match obj.memos
    case None => NoMatch
    case Some(ms) =>
      if |ms| == 0 || ms[0].memo.None? then TypeError
      else if ms[0].memo.value.memoData == Some(key) then Match
      else NoMatch
  }

  function Shift(r: FindResult): FindResult
  {
    match r
    case Found(i) => Found(i + 1)
    case NotFound => NotFound
    case Threw(i) => Threw(i + 1)
  }

  /**
   * `Array.prototype.find` with that callback: the first object, in response
   * order, on which the callback matches or throws.
   */
  function Find(objs: seq<LedgerObject>, key: string): (r: FindResult)
    ensures r.Found? ==>
      r.index < |objs| && ProbeObject(objs[r.index], key) == Match &&
      forall j :: 0 <= j < r.index ==> ProbeObject(objs[j], key) == NoMatch
    ensures r.Threw? ==>
      r.index < |objs| && ProbeObject(objs[r.index], key) == TypeError &&
      forall j :: 0 <= j < r.index ==> ProbeObject(objs[j], key) == NoMatch
    ensures r.NotFound? <==> forall j :: 0 <= j < |objs| ==> ProbeObject(objs[j], key) == NoMatch
    decreases |objs|
  {
    if objs == [] then NotFound
    else
      match ProbeObject(objs[0], key)
      case Match => Found(0)
      case TypeError => Threw(0)
      case NoMatch =>
        var rest := Find(objs[1..], key);
        assert forall j :: 1 <= j < |objs| ==> objs[j] == objs[1..][j - 1];
        Shift(rest)
  }

  /**
   * The ledger's answer to an `account_objects` request with `limit: 100`:
   * the first page of the owner's objects. Objects beyond it are never scanned.
   */
  function FirstPage(all: seq<LedgerObject>): (page: seq<LedgerObject>)
    ensures |page| <= QueryLimit && |page| <= |all|
    ensures page == all[..|page|]
    ensures |page| == QueryLimit || page == all
  {
    if |all| <= QueryLimit then all else all[..QueryLimit]
  }

  /** An object on which the callback cannot throw. */
  predicate WellFormed(obj: LedgerObject)
  {
    obj.memos.Some? ==> |obj.memos.value| > 0 && obj.memos.value[0].memo.Some?
  }

  /**
   * The scan stops at the first object on which the callback does not return
   * false: a match there is Found, a throw there is the error outcome.
   */
  lemma {:induction false} FindStopsAtFirstStop(objs: seq<LedgerObject>, key: string, k: nat)
    requires k < |objs| && ProbeObject(objs[k], key) != NoMatch
    requires forall j :: 0 <= j < k ==> ProbeObject(objs[j], key) == NoMatch
    ensures Find(objs, key) == if ProbeObject(objs[k], key) == Match then Found(k) else Threw(k)
  {
    if k > 0 {
      assert ProbeObject(objs[0], key) == NoMatch;
      assert forall j :: 0 <= j < k - 1 ==> objs[1..][j] == objs[j + 1];
      FindStopsAtFirstStop(objs[1..], key, k - 1);
    }
  }

  /**
   * An object that throws ahead of every match turns the whole scan into an
   * error, never into "not found" and never into a later match.
   */
  lemma ThrowBeforeMatchIsError(objs: seq<LedgerObject>, k: nat, key: string)
    requires k < |objs| && ProbeObject(objs[k], key) == TypeError
    requires forall j :: 0 <= j < k ==> ProbeObject(objs[j], key) == NoMatch
    ensures Find(objs, key) == Threw(k)
  {
    FindStopsAtFirstStop(objs, key, k);
  }

  /**
   * Round trip: once an object carrying the memo of an anchoring payment is in
   * the scanned page, and nothing before it throws, the scan for the same
   * digest reports a match, at that object or at an earlier one carrying the
   * same memo data.
   */
  lemma {:induction false} AnchoredIsFound(objs: seq<LedgerObject>, i: nat, address: string, digest: Bytes, len: nat)
    requires i < |objs|
    requires objs[i].memos == Some(BuildPayment(address, digest, len).memos)
    requires forall j :: 0 <= j < i ==> WellFormed(objs[j])
    ensures Find(objs, MemoHex(digest)).Found?
    ensures Find(objs, MemoHex(digest)).index <= i
  {
    var key := MemoHex(digest);
    if i == 0 {
      assert ProbeObject(objs[0], key) == Match;
    } else if ProbeObject(objs[0], key) == NoMatch {
      assert objs[1..][i - 1] == objs[i];
      assert forall j :: 0 <= j < i - 1 ==> objs[1..][j] == objs[j + 1];
      AnchoredIsFound(objs[1..], i - 1, address, digest, len);
    } else {
      assert WellFormed(objs[0]);
    }
  }

  /**
   * A match means the digest is the anchored one: if the scan for `digest`
   * stops at an object carrying the memo of a payment anchoring `anchored`,
   * the two digests are equal.
   */
  lemma FoundMeansSameDigest(objs: seq<LedgerObject>, digest: Bytes, address: string, anchored: Bytes, len: nat)
    requires Find(objs, MemoHex(digest)).Found?
    requires objs[Find(objs, MemoHex(digest)).index].memos == Some(BuildPayment(address, anchored, len).memos)
    ensures anchored == digest
  {
    var i := Find(objs, MemoHex(digest)).index;
    assert ProbeObject(objs[i], MemoHex(digest)) == Match;
    assert UpperHex(anchored) == MemoHex(digest);
    MemoHexInjective(anchored, digest);
  }

  /**
   * The scan is bounded by the first page: when the first QueryLimit objects
   * neither match nor throw, the verdict is NotFound even if a later object
   * carries the memo.
   */
  lemma BeyondFirstPageIsNotFound(all: seq<LedgerObject>, key: string)
    requires forall j :: 0 <= j < |all| && j < QueryLimit ==> ProbeObject(all[j], key) == NoMatch
    ensures Find(FirstPage(all), key) == NotFound
  {
    var page := FirstPage(all);
    assert forall j :: 0 <= j < |page| ==> page[j] == all[j];
  }

  /** Concrete instance: a page of 100 unrelated memos followed by the anchored one. */
  lemma MatchAtPosition101IsMissed(address: string, digest: Bytes, other: Bytes, len: nat)
    requires other != digest
    ensures var filler := LedgerObject(Some(BuildPayment(address, other, len).memos), Some(0));
      var anchored := LedgerObject(Some(BuildPayment(address, digest, len).memos), Some(1));
      Find(FirstPage(seq(QueryLimit, _ => filler) + [anchored]), MemoHex(digest)) == NotFound
  {
    var filler := LedgerObject(Some(BuildPayment(address, other, len).memos), Some(0));
    var anchored := LedgerObject(Some(BuildPayment(address, digest, len).memos), Some(1));
    var all := seq(QueryLimit, _ => filler) + [anchored];
    MemoHexInjective(other, digest);
    assert ProbeObject(filler, MemoHex(digest)) == NoMatch;
    BeyondFirstPageIsNotFound(all, MemoHex(digest));
  }
}
