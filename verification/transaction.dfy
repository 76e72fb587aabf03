/**
 * The Payment descriptor the upload handler builds before signing
 * (server.js:45-59): a self-payment from the wallet's address to itself, with
 * the derived amount, a fixed fee, and a single memo whose type is "Hash" and
 * whose data is the upper-case hex of the content's digest.
 */
module Transaction {
  import opened Wrappers
  import opened Hex
  import opened Amount

  /** The `Memo` object of a memo entry; a field the ledger did not return is None. */
  datatype MemoFields = MemoFields(memoType: Option<string>, memoData: Option<string>)

  /** One element of a `Memos` array: `{ Memo: … }`, whose `Memo` may be missing. */
  datatype MemoEntry = MemoEntry(memo: Option<MemoFields>)

  datatype Payment = Payment(
    account: string,
    transactionType: string,
    amount: string,
    destination: string,
    fee: string,
    memos: seq<MemoEntry>)

  /** The fixed `Fee` field, in drops, whatever the content's size. */
  const PaymentFee: string := "100000"

  /** The memo type tag. */
  const HashMemoType: string := "Hash"

  /** The single memo entry that carries a digest's ledger text. */
  function HashMemo(data: string): MemoEntry
  {
    MemoEntry(Some(MemoFields(Some(HashMemoType), Some(data))))
  }

  /**
   * The object literal of server.js:45-59 for the wallet address `address`, the
   * content's SHA-256 digest `digest` and the content's length in bytes.
   */
  function BuildPayment(address: string, digest: Bytes, contentLength: nat): (p: Payment)
    ensures p.account == address && p.destination == address
    ensures p.transactionType == "Payment"
    ensures p.fee == PaymentFee
    ensures p.memos == [HashMemo(UpperHex(digest))]
    ensures AllDigits(p.amount) && |p.amount| >= 8 && p.amount[|p.amount| - 7..] == ZeroSuffix
    ensures p.amount[..|p.amount| - 7] == Decimal(Units(contentLength))
    ensures p.amount[0] == '0' ==> contentLength == 0 && |p.amount| == 8
    ensures DecimalValue(p.amount) == Units(contentLength) * SuffixScale
  {
    AmountValue(contentLength);
    Payment(
      address,
      "Payment",
      AmountString(contentLength),
      address,
      PaymentFee,
      [MemoEntry(Some(MemoFields(Some(HashMemoType), Some(MemoHex(digest)))))])
  }

  /** The memo data decodes to the digest: the payment carries the fingerprint itself. */
  lemma PaymentCarriesDigest(address: string, digest: Bytes, contentLength: nat)
    ensures var data := BuildPayment(address, digest, contentLength).memos[0].memo.value.memoData.value;
      |data| == 2 * |digest| &&
      (forall i :: 0 <= i < |data| ==> IsUpperHexDigit(data[i])) &&
      DecodeHex(data) == Some(digest)
  {
    DecodeUpperHex(digest);
  }

  /**
   * The size of the content reaches the payment only through its amount, and
   * only through the number of started kilobytes: fee, memo and parties are
   * the same for every length.
   */
  lemma PaymentDependsOnLengthOnlyByUnits(address: string, digest: Bytes, len1: nat, len2: nat)
    ensures var p1, p2 := BuildPayment(address, digest, len1), BuildPayment(address, digest, len2);
      p1.fee == p2.fee && p1.memos == p2.memos && p1.account == p2.account &&
      p1.destination == p2.destination &&
      (p1 == p2 <==> Units(len1) == Units(len2))
  {
    AmountDependsOnlyOnUnits(len1, len2);
  }

  /** Payments for different digests carry different memos. */
  lemma PaymentMemoIdentifiesDigest(address: string, d1: Bytes, d2: Bytes, len1: nat, len2: nat)
    ensures BuildPayment(address, d1, len1).memos == BuildPayment(address, d2, len2).memos <==> d1 == d2
  {
    var m1, m2 := BuildPayment(address, d1, len1).memos, BuildPayment(address, d2, len2).memos;
    if m1 == m2 {
      assert m1[0] == m2[0];
      MemoHexInjective(d1, d2);
    }
  }
}
