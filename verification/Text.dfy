/** Small text and map helpers shared by every module.

    A Go string or byte slice is a Dafny `string` here, one `char` per byte.
  */
module Text {

  datatype Option<+T> = None | Some(value: T)

  datatype Result<+T, +E> = Ok(value: T) | Err(error: E)

  /** Go's map lookup: an absent key reads as the empty string. */
  function Get(m: map<string, string>, k: string): string {
    if k in m then m[k] else ""
  }

  /** Go's strings.Join. */
  function Join(parts: seq<string>, sep: string): string {
    if |parts| == 0 then ""
    else if |parts| == 1 then parts[0]
    else parts[0] + sep + Join(parts[1..], sep)
  }

  predicate IsBytes(s: string) {
    forall i | 0 <= i < |s| :: s[i] as int < 256
  }

  function HexDigit(n: int): char
    requires 0 <= n < 16
  {
    if n < 10 then ('0' as int + n) as char else ('a' as int + n - 10) as char
  }

  function HexValue(c: char): Option<int> {
    if '0' <= c <= '9' then Some(c as int - '0' as int)
    else if 'a' <= c <= 'f' then Some(c as int - 'a' as int + 10)
    else if 'A' <= c <= 'F' then Some(c as int - 'A' as int + 10)
    else None
  }

  /** Go's hex.EncodeToString. */
  function Hex(b: string): (h: string)
    requires IsBytes(b)
    ensures |h| == 2 * |b|
  {
    if b == "" then ""
    else [HexDigit(b[0] as int / 16), HexDigit(b[0] as int % 16)] + Hex(b[1..])
  }

  /** Go's hex.DecodeString. */
  function UnHex(h: string): Option<string> {
    if h == "" then Some("")
    else if |h| == 1 then None
    else
      match (HexValue(h[0]), HexValue(h[1]), UnHex(h[2..]))
      case (Some(a), Some(b), Some(t)) => Some([(16 * a + b) as char] + t)
      case _ => None
  }

  lemma {:induction false} HexDigitValue(n: int)
    requires 0 <= n < 16
    ensures HexValue(HexDigit(n)) == Some(n)
  {
  }

  /** Decoding undoes encoding. */
  lemma {:induction false} UnHexHex(b: string)
    requires IsBytes(b)
    ensures UnHex(Hex(b)) == Some(b)
  {
    if b != "" {
      var n := b[0] as int;
      HexDigitValue(n / 16);
      HexDigitValue(n % 16);
      UnHexHex(b[1..]);
      var h := Hex(b);
      assert h[0] == HexDigit(n / 16) && h[1] == HexDigit(n % 16) && h[2..] == Hex(b[1..]);
      assert (16 * (n / 16) + n % 16) as char == b[0];
      assert [b[0]] + b[1..] == b;
    }
  }

  /** Hexadecimal text never holds a NUL. */
  lemma {:induction false} HexHasNoNul(b: string)
    requires IsBytes(b)
    ensures '\0' !in Hex(b)
  {
    if b != "" {
      HexHasNoNul(b[1..]);
    }
  }

  /** Splitting at the first separator is unambiguous when the heads hold none. */
  lemma {:induction false} SplitFirst(a: string, x: string, b: string, y: string)
    requires '\0' !in a && '\0' !in b
    requires a + "\0" + x == b + "\0" + y
    ensures a == b && x == y
  {
    var s := a + "\0" + x;
    assert forall i | 0 <= i < |a| :: s[i] == a[i];
    assert forall i | 0 <= i < |b| :: s[i] == b[i];
    assert s[|a|] == '\0' && s[|b|] == '\0';
    assert a == s[..|a|] && b == s[..|b|];
    assert x == s[|a| + 1..] && y == s[|b| + 1..];
  }

  /** Splitting at the last separator is unambiguous when the tails hold none. */
  lemma {:induction false} SplitLast(x: string, a: string, y: string, b: string)
    requires '\0' !in a && '\0' !in b
    requires x + "\0" + a == y + "\0" + b
    ensures a == b && x == y
  {
    var s := x + "\0" + a;
    assert forall i | |x| < i < |s| :: s[i] == a[i - |x| - 1];
    assert forall i | |y| < i < |s| :: s[i] == b[i - |y| - 1];
    assert s[|x|] == '\0' && s[|y|] == '\0';
    assert x == s[..|x|] && y == s[..|y|];
    assert a == s[|x| + 1..] && b == s[|y| + 1..];
  }

  /** Splitting off a tail of known length is unambiguous. */
  lemma {:induction false} SplitTail(x: string, a: string, y: string, b: string)
    requires |a| == |b|
    requires x + a == y + b
    ensures a == b && x == y
  {
    var s := x + a;
    assert x == s[..|x|] && y == s[..|x|];
    assert a == s[|x|..] && b == s[|x|..];
  }
}
