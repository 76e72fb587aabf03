/**
 * Hex rendering of the SHA-256 digest.
 *
 * The server renders the digest with Node's `toString("hex")` (lowercase,
 * two digits per byte, high nibble first) and upper-cases that text for the
 * ledger: the memo of the anchoring payment and the key the verification scan
 * looks for are both that upper-cased text. The upper-case form is the
 * Base16 encoding of section 8 of RFC 4648.
 */
module Hex {
  import opened Wrappers

  predicate IsLowerHexDigit(c: char) { '0' <= c <= '9' || 'a' <= c <= 'f' }

  /** The Base16 alphabet of section 8 of RFC 4648. */
  predicate IsUpperHexDigit(c: char) { '0' <= c <= '9' || 'A' <= c <= 'F' }

  function LowerDigit(n: nat): (c: char)
    requires n < 16
    ensures IsLowerHexDigit(c)
  {
    if n < 10 then ('0' as int + n) as char else ('a' as int + n - 10) as char
  }

  function UpperDigit(n: nat): (c: char)
    requires n < 16
    ensures IsUpperHexDigit(c)
  {
    if n < 10 then ('0' as int + n) as char else ('A' as int + n - 10) as char
  }

  /** Node's `Buffer.toString("hex")`. */
  function LowerHex(b: Bytes): (s: string)
    ensures |s| == 2 * |b|
    ensures forall i :: 0 <= i < |s| ==> IsLowerHexDigit(s[i])
  {
    if b == [] then []
    else [LowerDigit(b[0] as int / 16), LowerDigit(b[0] as int % 16)] + LowerHex(b[1..])
  }

  /** Base16 encoding as section 8 of RFC 4648 defines it (upper-case alphabet). */
  function UpperHex(b: Bytes): (s: string)
    ensures |s| == 2 * |b|
    ensures forall i :: 0 <= i < |s| ==> IsUpperHexDigit(s[i])
  {
    if b == [] then []
    else [UpperDigit(b[0] as int / 16), UpperDigit(b[0] as int % 16)] + UpperHex(b[1..])
  }

  /** JavaScript `toUpperCase` on one character, restricted to ASCII letters. */
  function UpperChar(c: char): (u: char)
    ensures !('a' <= u <= 'z')
    ensures 'a' <= c <= 'z' ==> u as int - 'A' as int == c as int - 'a' as int
    ensures !('a' <= c <= 'z') ==> u == c
  {
    if 'a' <= c <= 'z' then (c as int - 32) as char else c
  }

  /** JavaScript `String.prototype.toUpperCase` on ASCII text. */
  function ToUpper(s: string): (t: string)
    ensures |t| == |s|
    ensures forall i :: 0 <= i < |t| ==> !('a' <= t[i] <= 'z')
    ensures (forall i :: 0 <= i < |s| ==> IsLowerHexDigit(s[i])) ==>
      forall i :: 0 <= i < |t| ==> IsUpperHexDigit(t[i])
  {
    seq(|s|, i requires 0 <= i < |s| => UpperChar(s[i]))
  }

  /**
   * The text the server puts on the ledger for a digest: the lowercase hex
   * upper-cased (server.js:55 and server.js:89). It is exactly the RFC 4648 Base16 encoding.
   */
  function MemoHex(digest: Bytes): (s: string)
    ensures s == UpperHex(digest)
  {
    UpperOfLowerHex(digest);
    ToUpper(LowerHex(digest))
  }

  lemma ToUpperAppend(a: string, b: string)
    ensures ToUpper(a + b) == ToUpper(a) + ToUpper(b)
  {
  }

  lemma UpperOfLowerDigit(n: nat)
    requires n < 16
    ensures UpperChar(LowerDigit(n)) == UpperDigit(n)
  {
  }

  /** Upper-casing the lowercase rendering gives the RFC 4648 Base16 rendering. */
  lemma {:induction false} UpperOfLowerHex(b: Bytes)
    ensures ToUpper(LowerHex(b)) == UpperHex(b)
  {
    if b != [] {
      var q, r := b[0] as int / 16, b[0] as int % 16;
      var head := [LowerDigit(q), LowerDigit(r)];
      assert LowerHex(b) == head + LowerHex(b[1..]);
      assert UpperHex(b) == [UpperDigit(q), UpperDigit(r)] + UpperHex(b[1..]);
      ToUpperAppend(head, LowerHex(b[1..]));
      UpperOfLowerDigit(q);
      UpperOfLowerDigit(r);
      assert ToUpper(head) == [UpperDigit(q), UpperDigit(r)];
      UpperOfLowerHex(b[1..]);
    }
  }

  /** The value of one hex digit of either case; None for any other character. */
  function DigitValue(c: char): (r: Option<nat>)
    ensures r.Some? ==> r.value < 16
  {
    if '0' <= c <= '9' then Some(c as int - '0' as int)
    else if 'a' <= c <= 'f' then Some(c as int - 'a' as int + 10)
    else if 'A' <= c <= 'F' then Some(c as int - 'A' as int + 10)
    else None
  }

  /** Base16 decoding (either case): the reference inverse of the renderings. */
  function DecodeHex(s: string): Option<Bytes>
    decreases |s|
  {
    if s == [] then Some([])
    else if |s| == 1 then None
    else
      match (DigitValue(s[0]), DigitValue(s[1]), DecodeHex(s[2..]))
      case (Some(hi), Some(lo), Some(rest)) => Some([(hi * 16 + lo) as bv8] + rest)
      case _ => None
  }

  lemma DivMod16(n: int)
    ensures (n / 16) * 16 + n % 16 == n
  {
  }

  lemma ByteNibbles(x: bv8)
    ensures ((x as int / 16) * 16 + x as int % 16) as bv8 == x
  {
    var n := x as int;
    DivMod16(n);
  }

  lemma DigitValueOfDigit(n: nat)
    requires n < 16
    ensures DigitValue(LowerDigit(n)) == Some(n)
    ensures DigitValue(UpperDigit(n)) == Some(n)
  {
  }

  /** Two digits whose values are q and r, then a decodable rest, decode to that byte first. */
  lemma DecodePair(hi: char, lo: char, s: string, q: nat, r: nat, rest: Bytes)
    requires DigitValue(hi) == Some(q) && DigitValue(lo) == Some(r)
    requires DecodeHex(s) == Some(rest)
    ensures DecodeHex([hi, lo] + s) == Some([(q * 16 + r) as bv8] + rest)
  {
    var t := [hi, lo] + s;
    assert t[0] == hi && t[1] == lo && t[2..] == s;
  }

  /** Decoding one byte's two digits and the rest gives the byte back before the rest. */
  lemma DecodeStep(b: Bytes, s: string, hi: char, lo: char)
    requires b != []
    requires DigitValue(hi) == Some(b[0] as int / 16) && DigitValue(lo) == Some(b[0] as int % 16)
    requires DecodeHex(s) == Some(b[1..])
    ensures DecodeHex([hi, lo] + s) == Some(b)
  {
    var x := b[0];
    var q, r := x as int / 16, x as int % 16;
    DecodePair(hi, lo, s, q, r, b[1..]);
    ByteNibbles(x);
    var y := (q * 16 + r) as bv8;
    assert y == x;
    SplitFirst(b);
    calc {
      DecodeHex([hi, lo] + s);
      Some([y] + b[1..]);
      Some([x] + b[1..]);
      Some(b);
    }
  }

  lemma SplitFirst(b: Bytes)
    requires b != []
    ensures [b[0]] + b[1..] == b
  {
  }

  /** Decoding Node's lowercase rendering gives the digest back. */
  lemma {:induction false} DecodeLowerHex(b: Bytes)
    ensures DecodeHex(LowerHex(b)) == Some(b)
  {
    if b != [] {
      DecodeLowerHex(b[1..]);
      DigitValueOfDigit(b[0] as int / 16);
      DigitValueOfDigit(b[0] as int % 16);
      DecodeStep(b, LowerHex(b[1..]), LowerDigit(b[0] as int / 16), LowerDigit(b[0] as int % 16));
    }
  }

  /** Decoding the RFC 4648 rendering gives the digest back. */
  lemma {:induction false} DecodeUpperHex(b: Bytes)
    ensures DecodeHex(UpperHex(b)) == Some(b)
  {
    if b != [] {
      DecodeUpperHex(b[1..]);
      DigitValueOfDigit(b[0] as int / 16);
      DigitValueOfDigit(b[0] as int % 16);
      DecodeStep(b, UpperHex(b[1..]), UpperDigit(b[0] as int / 16), UpperDigit(b[0] as int % 16));
    }
  }

  /**
   * Two digests give the same ledger text only if they are the same digest:
   * an exact match on the memo text is an exact match on the digest.
   */
  lemma MemoHexInjective(a: Bytes, b: Bytes)
    ensures MemoHex(a) == MemoHex(b) <==> a == b
  {
    DecodeUpperHex(a);
    DecodeUpperHex(b);
  }

  /** The lowercase rendering returned to callers is injective as well. */
  lemma LowerHexInjective(a: Bytes, b: Bytes)
    ensures LowerHex(a) == LowerHex(b) <==> a == b
  {
    DecodeLowerHex(a);
    DecodeLowerHex(b);
  }
}
