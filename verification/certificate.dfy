/**
 * The Xahau hook of certificate.c: a write-once registry keyed by the
 * 32-byte memo of the triggering transaction.
 *
 * The hook runs host calls step by step. Their answers are not modelled: one
 * run receives them as a HostAnswers value, and each is a signed 64-bit code
 * as the Hooks API returns it. The hook's persistent key-value state is a map
 * field; accept and rollback are recorded, in order, as exits.
 */
module Certificate {
  import opened Wrappers

  /** `int64_t`: the type of every host call's result and of the hook's return value. */
  newtype int64 = x: int | -0x8000_0000_0000_0000 <= x < 0x8000_0000_0000_0000

  /** The contents of `memo_hash` after a full read: 32 bytes. */
  type MemoKey = b: Bytes | |b| == 32 witness seq(32, _ => 0)

  /** The 8 bytes `state_set` reads from the buffer it is given. */
  type StoredValue = b: Bytes | |b| == 8 witness seq(8, _ => 0)

  /** `sizeof(memo_hash)`. */
  const MemoKeySize: int64 := 32

  const NoMemoCode: int64 := 10
  const BadMemoCode: int64 := 20

  const NoMemoMessage: string := "Transaction must contain a memo field."
  const BadMemoMessage: string := "Transaction must contain a 32-byte hashed memo."
  const FoundMessage: string := "Timestamp found"
  const StoreFailedMessage: string := "Failed to store timestamp"
  const StoredMessage: string := "New timestamp stored"

  /** The host call that ends the hook: `accept(msg, code)` or `rollback(msg, code)`. */
  datatype Exit = Accept(message: string, code: int64) | Rollback(message: string, code: int64)

  /** What the host answers to the calls of one run of `hook()`. */
  datatype HostAnswers = HostAnswers(
    memoProbe: int64,      // otxn_field probing for a memo, with no buffer
    memoRead: int64,       // otxn_field reading the memo data into memo_hash
    memo: MemoKey,         // what that read left in memo_hash
    lookup: int64,         // state: look the memo up in the hook state
    written: StoredValue,  // the bytes state_set stores under the memo
    setResult: int64)      // state_set: store under the memo

  /** The exit, the value `hook()` returns and the state after one run. */
  datatype HookRun = HookRun(exit: Exit, result: int64, state: map<Bytes, Bytes>)

  /** One run of `hook()` on state `st`. */
  function Run(st: map<Bytes, Bytes>, h: HostAnswers): (r: HookRun)
    ensures r.exit.Rollback? ==> r.state == st
    ensures forall k :: k in st && k != h.memo ==> k in r.state && r.state[k] == st[k]
    ensures r.state.Keys <= st.Keys + {h.memo}
    ensures r.state != st ==>
      r.exit == Accept(StoredMessage, 0) && r.result == 0 && h.memo in r.state && r.state[h.memo] == h.written
  {
    if h.memoProbe < 0 then HookRun(Rollback(NoMemoMessage, NoMemoCode), 1, st)
    else if h.memoRead != MemoKeySize then HookRun(Rollback(BadMemoMessage, BadMemoCode), 1, st)
    else if h.lookup > 0 then HookRun(Accept(FoundMessage, 0), h.lookup, st)
    else if h.setResult < 0 then HookRun(Rollback(StoreFailedMessage, h.setResult), h.setResult, st)
    else HookRun(Accept(StoredMessage, 0), 0, st[h.memo := h.written])
  }

  /** The host reports a stored key: a lookup of a present key returns a positive count. */
  predicate ReportsPresent(st: map<Bytes, Bytes>, h: HostAnswers)
  {
    h.memo in st ==> h.lookup > 0
  }

  /** The host reports only stored keys: a positive lookup means the key is present. */
  predicate ReportsOnlyPresent(st: map<Bytes, Bytes>, h: HostAnswers)
  {
    h.lookup > 0 ==> h.memo in st
  }

  /** Each path of `hook()`, its exit, return value and effect on the state. */
  lemma RunOutcomes(st: map<Bytes, Bytes>, h: HostAnswers)
    ensures h.memoProbe < 0 ==> Run(st, h) == HookRun(Rollback(NoMemoMessage, 10), 1, st)
    ensures h.memoProbe >= 0 && h.memoRead != 32 ==>
      Run(st, h) == HookRun(Rollback(BadMemoMessage, 20), 1, st)
    ensures h.memoProbe >= 0 && h.memoRead == 32 && h.lookup > 0 ==>
      Run(st, h) == HookRun(Accept(FoundMessage, 0), h.lookup, st)
    ensures h.memoProbe >= 0 && h.memoRead == 32 && h.lookup <= 0 && h.setResult < 0 ==>
      Run(st, h) == HookRun(Rollback(StoreFailedMessage, h.setResult), h.setResult, st)
    ensures h.memoProbe >= 0 && h.memoRead == 32 && h.lookup <= 0 && h.setResult >= 0 ==>
      Run(st, h) == HookRun(Accept(StoredMessage, 0), 0, st[h.memo := h.written])
  {
  }

  /**
   * Every run leaves the 32-byte memo registered when it accepts, as long as
   * the host reports only stored keys as present.
   */
  lemma AcceptMeansRegistered(st: map<Bytes, Bytes>, h: HostAnswers)
    requires ReportsOnlyPresent(st, h)
    ensures Run(st, h).exit.Accept? ==> h.memo in Run(st, h).state
  {
  }

  /** A registered key is never overwritten, as long as the host reports it present. */
  lemma NeverOverwrites(st: map<Bytes, Bytes>, h: HostAnswers)
    requires ReportsPresent(st, h)
    ensures forall k :: k in st ==> k in Run(st, h).state && Run(st, h).state[k] == st[k]
  {
  }

  /**
   * Write-once: after a run that stored a new entry, a second run for the same
   * memo that the host reports present accepts, returns that report and
   * leaves the state as the first run left it.
   */
  lemma SecondRunChangesNothing(st: map<Bytes, Bytes>, h1: HostAnswers, h2: HostAnswers)
    requires Run(st, h1).result == 0 && Run(st, h1).exit.Accept?
    requires h2.memo == h1.memo && h2.memoProbe >= 0 && h2.memoRead == MemoKeySize && h2.lookup > 0
    ensures Run(st, h1).state[h1.memo] == h1.written
    ensures Run(Run(st, h1).state, h2) == HookRun(Accept(FoundMessage, 0), h2.lookup, Run(st, h1).state)
  {
  }

  /** The state after a sequence of runs, one per triggering transaction. */
  function RunAll(st: map<Bytes, Bytes>, hs: seq<HostAnswers>): map<Bytes, Bytes>
    decreases |hs|
  {
    if hs == [] then st else RunAll(Run(st, hs[0]).state, hs[1..])
  }

  /** At every run of the sequence, the host reports the keys stored so far as present. */
  predicate ReportsPresentThroughout(st: map<Bytes, Bytes>, hs: seq<HostAnswers>)
    decreases |hs|
  {
    hs == [] || (ReportsPresent(st, hs[0]) && ReportsPresentThroughout(Run(st, hs[0]).state, hs[1..]))
  }

  /**
   * Write-once across a history of transactions: every entry present at the
   * start is still present, with the same value, after any number of runs.
   */
  lemma {:induction false} WriteOnceAcrossRuns(st: map<Bytes, Bytes>, hs: seq<HostAnswers>, k: Bytes)
    requires ReportsPresentThroughout(st, hs)
    requires k in st
    ensures k in RunAll(st, hs) && RunAll(st, hs)[k] == st[k]
    decreases |hs|
  {
    if hs != [] {
      NeverOverwrites(st, hs[0]);
      WriteOnceAcrossRuns(Run(st, hs[0]).state, hs[1..], k);
    }
  }

  /** The keys after a history are the keys before it plus the memos of the runs. */
  lemma {:induction false} RunAllKeys(st: map<Bytes, Bytes>, hs: seq<HostAnswers>, k: Bytes)
    requires k in RunAll(st, hs)
    ensures k in st || exists i :: 0 <= i < |hs| && hs[i].memo == k
    decreases |hs|
  {
    if hs != [] && k !in st {
      var st' := Run(st, hs[0]).state;
      if k in st' {
        assert hs[0].memo == k;
      } else {
        RunAllKeys(st', hs[1..], k);
        var i :| 0 <= i < |hs[1..]| && hs[1..][i].memo == k;
        assert hs[i + 1].memo == k;
      }
    }
  }

  /** The hook's persistent state and the exits of the runs so far. */
  class HookContext {
    /** The hook's key-value state on the ledger. */
    var state: map<Bytes, Bytes>
    /** The accept or rollback each run ended with, oldest first. */
    var exits: seq<Exit>

    constructor (initial: map<Bytes, Bytes>)
      ensures state == initial && exits == []
    {
      state := initial;
      exits := [];
    }

    /**
     * `hook()` (certificate.c:4-54). Each path ends with exactly one accept or
     * rollback; the state changes only on a successful new write.
     */
    method Hook(h: HostAnswers) returns (result: int64)
      modifies this
      ensures var r := Run(old(state), h);
        state == r.state && result == r.result && exits == old(exits) + [r.exit]
    {
      // Is there a memo field at all?
      if h.memoProbe < 0 {
        exits := exits + [Rollback(NoMemoMessage, NoMemoCode)];
        return 1;
      }

      // Read the memo; it must fill the 32-byte buffer.
      var memoLen := h.memoRead;
      if memoLen != MemoKeySize {
        exits := exits + [Rollback(BadMemoMessage, BadMemoCode)];
        return 1;
      }
      var memoHash := h.memo;

      // Already registered: accept without writing.
      var existing := h.lookup;
      if existing > 0 {
        exits := exits + [Accept(FoundMessage, 0)];
        return existing;
      }

      // Register the memo.
      var stateResult := h.setResult;
      if stateResult < 0 {
        exits := exits + [Rollback(StoreFailedMessage, stateResult)];
        return stateResult;
      }
      state := state[memoHash := h.written];

      exits := exits + [Accept(StoredMessage, 0)];
      return 0;
    }
  }
}
