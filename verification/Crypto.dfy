/** Hash functions as arbitrary functions.

    SHA-256 and HMAC (section 2 of RFC 2104) are fields of a `Hashes` value.
    Nothing is assumed about them, so every theorem holds for every choice of
    them, and tamper evidence is stated as "equal, or here is a collision".
  */
module Crypto {
  import opened Text

  type Digest = s: string | |s| == 32 && IsBytes(s) witness seq(32, _ => '\0')

  datatype Hashes = Hashes(sha256: string -> Digest, hmac: (string, string) -> Digest)

  /** Two different inputs of SHA-256 with one digest. */
  ghost predicate Collision(h: Hashes, x: string, y: string) {
    x != y && h.sha256(x) == h.sha256(y)
  }

  /** SHA256Hex of pkg/approval. */
  function Sha256Hex(h: Hashes, s: string): (r: string)
    ensures |r| == 64
  {
    Hex(h.sha256(s))
  }

  /** Equal hexadecimal digests are equal digests. */
  lemma {:induction false} Sha256HexEqual(h: Hashes, x: string, y: string)
    requires Sha256Hex(h, x) == Sha256Hex(h, y)
    ensures h.sha256(x) == h.sha256(y)
    ensures x == y || Collision(h, x, y)
  {
    UnHexHex(h.sha256(x));
    UnHexHex(h.sha256(y));
  }
}
