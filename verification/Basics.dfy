/** Outcomes, machine integers and the cryptographic primitives the rest of the model is
    parameterised by. */
module Basics {

  datatype Option<+T> = None | Some(value: T)

  /** A failure-compatible outcome, so that `:-` returns an error to the caller. */
  datatype Result<+T, +E> = Ok(value: T) | Err(error: E) {
    predicate IsFailure() {
      Err?
    }

    function PropagateFailure<U>(): Result<U, E>
      requires Err?
    {
      Err(error)
    }

    function Extract(): T
      requires Ok?
    {
      value
    }
  }

  const TWO_TO_32: nat := 0x1_0000_0000
  const TWO_TO_63: nat := 0x8000_0000_0000_0000
  const TWO_TO_64: nat := 0x1_0000_0000_0000_0000

  type uint16 = n: nat | n < 0x1_0000
  type uint32 = n: nat | n < TWO_TO_32
  type uint64 = n: nat | n < TWO_TO_64
  type int64 = n: int | -(TWO_TO_63 as int) <= n < TWO_TO_63

  /** A Go string: a sequence of bytes, each standing for the character with that code. */
  type Bytes = string

  /** SHA-256 in hexadecimal, Ed25519 verification, the secp256k1 point test and the canonical
      base64 test. They are uninterpreted: every theorem holds for whatever they compute. */
  datatype Crypto = Crypto(
    digest: Bytes -> string,
    signed: (string, Bytes, string) -> bool,
    onCurve: string -> bool,
    canonicalBase64: string -> bool)

  /** No other text has the digest of this one: assumed only of the texts whose identity matters, since
      digests of one length cannot all differ. */
  ghost predicate NoSecondPreimage(c: Crypto, x: Bytes) {
    forall y: Bytes :: c.digest(y) == c.digest(x) ==> y == x
  }

  predicate IsHexDigit(c: char) {
    '0' <= c <= '9' || 'a' <= c <= 'f'
  }

  /** Lowercase hexadecimal text of exactly `n` bytes. */
  predicate IsLowerHex(s: string, n: nat) {
    |s| == 2 * n && forall i :: 0 <= i < |s| ==> IsHexDigit(s[i])
  }

  predicate IsDigest(s: string) {
    IsLowerHex(s, 32)
  }

  ghost predicate DigestsAreHex(c: Crypto) {
    forall x: Bytes :: IsDigest(c.digest(x))
  }

  predicate IsDigit(c: char) {
    '0' <= c <= '9'
  }

  predicate AllDigits(s: string) {
    forall i :: 0 <= i < |s| ==> IsDigit(s[i])
  }

  function Max(a: int, b: int): (m: int)
    ensures m >= a && m >= b && (m == a || m == b)
  {
    if a < b then b else a
  }

  function DigitValue(c: char): nat
    requires IsDigit(c)
  {
    c as nat - '0' as nat
  }

  /** The integer a decimal digit string denotes; the empty string denotes zero. */
  function Value(s: string): nat
    requires AllDigits(s)
  {
    if |s| == 0 then 0 else Value(s[..|s| - 1]) * 10 + DigitValue(s[|s| - 1])
  }
}
