/** The IBAN check of pkg/dataclass: ISO 13616 with ISO/IEC 7064 MOD 97-10.

    The code keeps only a remainder. The specification is the whole integer:
    letters become two decimal digits ("A" is 10, "Z" is 35) and the resulting
    numeral is read in base ten.
  */
module Iban {
  import opened Digits

  predicate IsLetter(c: char) { 'A' <= c <= 'Z' }

  predicate IsAlnum(c: char) { IsDigit(c) || IsLetter(c) }

  predicate AllAlnum(s: string) { forall i | 0 <= i < |s| :: IsAlnum(s[i]) }

  function DigitChar(n: nat): (c: char)
    requires n < 10
    ensures IsDigit(c) && DigitValue(c) == n
  {
    ('0' as int + n) as char
  }

  /** The number a letter stands for: A is 10, Z is 35. */
  function LetterValue(c: char): (n: nat)
    requires IsLetter(c)
    ensures 10 <= n <= 35
  {
    c as int - 'A' as int + 10
  }

  function Value(c: char): nat
    requires IsAlnum(c)
  {
    if IsDigit(c) then DigitValue(c) else LetterValue(c)
  }

  /** One character in decimal digits. */
  function Expand(c: char): (t: string)
    requires IsAlnum(c)
    ensures AllDigits(t) && |t| == if IsDigit(c) then 1 else 2
  {
    if IsDigit(c) then [c] else [DigitChar(LetterValue(c) / 10), DigitChar(LetterValue(c) % 10)]
  }

  /** The letter-expanded numeral of s. */
  function Expanded(s: string): (t: string)
    requires AllAlnum(s)
    ensures AllDigits(t)
  {
    if s == "" then "" else Expanded(s[..|s| - 1]) + Expand(s[|s| - 1])
  }

  /** A decimal numeral read as an integer, most significant digit first. */
  function Decimal(t: string): nat
    requires AllDigits(t)
  {
    if t == "" then 0 else 10 * Decimal(t[..|t| - 1]) + DigitValue(t[|t| - 1])
  }

  /** The whole integer the standard divides by 97. */
  function Number(s: string): nat
    requires AllAlnum(s)
  {
    Decimal(Expanded(s))
  }

  /** The first four characters move to the end. */
  function Rearranged(s: string): string
    requires |s| >= 4
  {
    s[4..] + s[..4]
  }

  /** What the standard accepts. */
  predicate Accepted(s: string) {
    && 15 <= |s| <= 34
    && AllAlnum(Rearranged(s))
    && Number(Rearranged(s)) % 97 == 1
  }

  /** x with k zeros appended in base ten. */
  function Shift(x: int, k: nat): int {
    if k == 0 then x else 10 * Shift(x, k - 1)
  }

  lemma {:induction false} DecimalAppend(a: string, b: string)
    requires AllDigits(a) && AllDigits(b)
    ensures AllDigits(a + b) && Decimal(a + b) == Shift(Decimal(a), |b|) + Decimal(b)
  {
    if b == "" {
      assert a + b == a;
    } else {
      var n := |b| - 1;
      DecimalAppend(a, b[..n]);
      assert (a + b)[..|a + b| - 1] == a + b[..n];
      assert Decimal(a + b) == 10 * Decimal(a + b[..n]) + DigitValue(b[n]);
    }
  }

  lemma {:induction false} ExpandedAppend(a: string, b: string)
    requires AllAlnum(a) && AllAlnum(b)
    ensures AllAlnum(a + b) && Expanded(a + b) == Expanded(a) + Expanded(b)
  {
    hide Expand, AllDigits, IsAlnum;
    if b == "" {
      assert a + b == a;
    } else {
      var n := |b| - 1;
      ExpandedAppend(a, b[..n]);
      assert (a + b)[..|a + b| - 1] == a + b[..n] && (a + b)[|a + b| - 1] == b[n];
    }
  }

  lemma {:induction false} NumberAppend(a: string, b: string)
    requires AllAlnum(a) && AllAlnum(b)
    ensures AllAlnum(a + b)
    ensures Number(a + b) == Shift(Number(a), |Expanded(b)|) + Number(b)
  {
    ExpandedAppend(a, b);
    DecimalAppend(Expanded(a), Expanded(b));
  }

  /** One more character appends its digits: a shift by one or two places. */
  lemma {:induction false} NumberSnoc(a: string, c: char)
    requires AllAlnum(a) && IsAlnum(c)
    ensures AllAlnum(a + [c])
    ensures Number(a + [c]) == Shift(Number(a), |Expand(c)|) + Value(c)
  {
    OneNumber(c);
    hide Number;
    NumberAppend(a, [c]);
  }

  lemma {:induction false} OneNumber(c: char)
    requires IsAlnum(c)
    ensures AllAlnum([c]) && Expanded([c]) == Expand(c)
    ensures Number([c]) == Value(c)
  {
    assert [c][..0] == "";
    TwoDigits(c);
  }

  lemma {:induction false} TwoDigits(c: char)
    requires IsAlnum(c)
    ensures Decimal(Expand(c)) == Value(c)
  {
    var t := Expand(c);
    assert Decimal("") == 0;
    if IsLetter(c) {
      assert t[..1] == [t[0]] && t[..1][..0] == "";
      assert Decimal(t[..1]) == DigitValue(t[0]);
      assert Decimal(t) == 10 * Decimal(t[..1]) + DigitValue(t[1]);
    } else {
      assert t[..0] == "";
    }
  }

  /** The remainder the code keeps while it reads s. */
  function Remainder(s: string): nat
    requires AllAlnum(s)
  {
    if s == "" then 0
    else
      var c := s[|s| - 1];
      if IsDigit(c) then (Remainder(s[..|s| - 1]) * 10 + Value(c)) % 97
      else (Remainder(s[..|s| - 1]) * 100 + Value(c)) % 97
  }

  lemma {:induction false} ModStep(x: nat, d: nat)
    ensures ((x % 97) * 10 + d) % 97 == (x * 10 + d) % 97
    ensures ((x % 97) * 100 + d) % 97 == (x * 100 + d) % 97
  {
    var q := x / 97;
    assert x * 10 + d == 97 * (q * 10) + ((x % 97) * 10 + d);
    assert x * 100 + d == 97 * (q * 100) + ((x % 97) * 100 + d);
    ModAddMultiple((x % 97) * 10 + d, q * 10);
    ModAddMultiple((x % 97) * 100 + d, q * 100);
  }

  lemma {:induction false} ModAddMultiple(y: int, m: int)
    ensures (97 * m + y) % 97 == y % 97
  {
  }

  /** The stepwise remainder is the whole number's remainder. */
  lemma {:induction false} RemainderIsNumber(s: string)
    requires AllAlnum(s)
    ensures Remainder(s) == Number(s) % 97
  {
    if s != "" {
      var a, c := s[..|s| - 1], s[|s| - 1];
      RemainderIsNumber(a);
      assert s == a + [c];
      NumberSnoc(a, c);
      ModStep(Number(a), Value(c));
      hide Number;
      assert Shift(Number(a), 2) == 10 * Shift(Number(a), 1);
    }
  }

  /** ibanValid: the stepwise remainder decides exactly the standard's test. */
  method IbanValid(s: string) returns (ok: bool)
    ensures ok <==> Accepted(s)
    ensures ok <==> 15 <= |s| <= 34 && AllAlnum(s[4..] + s[..4]) && Number(s[4..] + s[..4]) % 97 == 1
  {
    if |s| < 15 || |s| > 34 {
      return false;
    }
    var r := s[4..] + s[..4];
    var rem: nat := 0;
    var i := 0;
    hide Number, Expanded;
    while i < |r|
      invariant 0 <= i <= |r|
      invariant AllAlnum(r[..i]) && rem == Remainder(r[..i])
    {
      var c := r[i];
      assert r[..i + 1][..i] == r[..i];
      if IsDigit(c) {
        rem := (rem * 10 + Value(c)) % 97;
      } else if IsLetter(c) {
        rem := (rem * 100 + Value(c)) % 97;
      } else {
        assert !IsAlnum(Rearranged(s)[i]);
        return false;
      }
      i := i + 1;
    }
    assert r[..i] == r;
    RemainderIsNumber(r);
    return rem == 1;
  }

  /** 97 does not divide a power of ten: a multiple stays visible after shifting. */
  lemma {:induction false} ShiftKeepsResidue(d: int, k: nat)
    ensures Shift(d, k) % 97 == 0 <==> d % 97 == 0
  {
    if k > 0 {
      ShiftKeepsResidue(d, k - 1);
      TenTimes(Shift(d, k - 1));
    }
  }

  /** 68 is the inverse of 10 modulo 97, since 680 == 97 * 7 + 1. */
  lemma {:induction false} TenTimes(y: int)
    ensures (10 * y) % 97 == 0 <==> y % 97 == 0
  {
    var m := (10 * y) / 97;
    if (10 * y) % 97 == 0 {
      assert y == 97 * (68 * m - 7 * y);
    }
  }

  lemma {:induction false} ShiftDifference(x: int, y: int, k: nat)
    ensures Shift(x, k) - Shift(y, k) == Shift(x - y, k)
  {
    if k > 0 {
      ShiftDifference(x, y, k - 1);
    }
  }

  /** Replacing an inner block by one that expands to as many digits keeps the
      remainder exactly when the two blocks agree modulo 97. */
  lemma {:induction false} BlockReplaced(pre: string, m: string, m': string, suf: string)
    requires AllAlnum(pre) && AllAlnum(m) && AllAlnum(m') && AllAlnum(suf)
    requires |Expanded(m)| == |Expanded(m')|
    ensures AllAlnum(pre + m + suf) && AllAlnum(pre + m' + suf)
    ensures Number(pre + m + suf) % 97 == Number(pre + m' + suf) % 97 <==> (Number(m) - Number(m')) % 97 == 0
  {
    hide Number, Expanded;
    SamePrefix(pre, m, m');
    SameSuffix(pre + m, pre + m', suf);
    ShiftKeepsResidue(Number(m) - Number(m'), |Expanded(suf)|);
    SameResidue(Number(pre + m + suf), Number(pre + m' + suf), Shift(Number(m) - Number(m'), |Expanded(suf)|),
                Number(m) - Number(m'));
  }

  lemma {:induction false} SamePrefix(a: string, b: string, b': string)
    requires AllAlnum(a) && AllAlnum(b) && AllAlnum(b')
    requires |Expanded(b)| == |Expanded(b')|
    ensures AllAlnum(a + b) && AllAlnum(a + b')
    ensures Number(a + b) - Number(a + b') == Number(b) - Number(b')
  {
    NumberAppend(a, b);
    NumberAppend(a, b');
  }

  lemma {:induction false} SameSuffix(a: string, a': string, b: string)
    requires AllAlnum(a) && AllAlnum(a') && AllAlnum(b)
    ensures AllAlnum(a + b) && AllAlnum(a' + b)
    ensures Number(a + b) - Number(a' + b) == Shift(Number(a) - Number(a'), |Expanded(b)|)
  {
    hide Number, Expanded;
    NumberAppend(a, b);
    NumberAppend(a', b);
    ShiftDifference(Number(a), Number(a'), |Expanded(b)|);
  }

  lemma {:induction false} SameResidue(a: int, b: int, shifted: int, d: int)
    requires a - b == shifted
    requires shifted % 97 == 0 <==> d % 97 == 0
    ensures a % 97 == b % 97 <==> d % 97 == 0
  {
  }

  /** Every change of one digit to another digit, or of one letter to another
      letter, turns an accepted IBAN into a rejected one. */
  lemma {:induction false} SubstitutionRejected(s: string, i: nat, c: char)
    requires Accepted(s) && i < |s| && c != s[i]
    requires (IsDigit(s[i]) && IsDigit(c)) || (IsLetter(s[i]) && IsLetter(c))
    ensures !Accepted(s[i := c])
  {
    var k := if i < 4 then |s| - 4 + i else i - 4;
    assert Rearranged(s[i := c]) == Rearranged(s)[k := c];
    SubstitutionChangesResidue(Rearranged(s), k, c);
  }

  lemma {:induction false} SubstitutionChangesResidue(r: string, k: nat, c: char)
    requires AllAlnum(r) && k < |r| && c != r[k]
    requires (IsDigit(r[k]) && IsDigit(c)) || (IsLetter(r[k]) && IsLetter(c))
    ensures AllAlnum(r[k := c]) && Number(r[k := c]) % 97 != Number(r) % 97
  {
    hide Number, Expanded;
    var pre, suf := r[..k], r[k + 1..];
    assert r == pre + [r[k]] + suf && r[k := c] == pre + [c] + suf;
    OneDiffers(r[k], c);
    BlockReplaced(pre, [r[k]], [c], suf);
  }

  lemma {:induction false} OneDiffers(x: char, c: char)
    requires (IsDigit(x) && IsDigit(c)) || (IsLetter(x) && IsLetter(c))
    requires x != c
    ensures AllAlnum([x]) && AllAlnum([c])
    ensures |Expanded([x])| == |Expanded([c])| && (Number([x]) - Number([c])) % 97 != 0
  {
    OneNumber(x);
    OneNumber(c);
    hide Number;
    SmallDifference(Number([x]), Number([c]));
  }

  lemma {:induction false} SmallDifference(a: int, b: int)
    requires 0 <= a <= 35 && 0 <= b <= 35 && a != b
    ensures (a - b) % 97 != 0
  {
  }

  /** The only pairs an adjacent swap can hide: 1 with B, 2 with M, 3 with X. */
  predicate Blind(a: char, b: char) {
    (a == '1' && b == 'B') || (a == '2' && b == 'M') || (a == '3' && b == 'X')
  }

  lemma {:induction false} PairNumber(a: char, b: char)
    requires IsAlnum(a) && IsAlnum(b)
    ensures AllAlnum([a, b])
    ensures Number([a, b]) == Shift(Value(a), |Expand(b)|) + Value(b)
    ensures |Expanded([a, b])| == |Expand(a)| + |Expand(b)|
  {
    OneNumber(a);
    OneNumber(b);
    assert [a] + [b] == [a, b];
    ExpandedAppend([a], [b]);
    hide Number, Expanded;
    NumberSnoc([a], b);
  }

  /** A swap of neighbours in the rearranged text goes unnoticed exactly when
      the neighbours are equal or one of three digit-letter pairs. In
      particular every swap of unequal digits is rejected. */
  lemma {:induction false} AdjacentSwap(r: string, k: nat)
    requires AllAlnum(r) && Number(r) % 97 == 1 && k + 1 < |r|
    ensures AllAlnum(Swapped(r, k))
    ensures Number(Swapped(r, k)) % 97 == 1 <==>
            (r[k] == r[k + 1] || Blind(r[k], r[k + 1]) || Blind(r[k + 1], r[k]))
  {
    hide Number, Expanded;
    var a, b := r[k], r[k + 1];
    var pre, suf := r[..k], r[k + 2..];
    assert r == pre + [a, b] + suf && Swapped(r, k) == pre + [b, a] + suf;
    SwapResidue(a, b);
    BlockReplaced(pre, [a, b], [b, a], suf);
  }

  lemma {:induction false} SwapResidue(a: char, b: char)
    requires IsAlnum(a) && IsAlnum(b)
    ensures AllAlnum([a, b]) && AllAlnum([b, a]) && |Expanded([a, b])| == |Expanded([b, a])|
    ensures (Number([a, b]) - Number([b, a])) % 97 == 0 <==> (a == b || Blind(a, b) || Blind(b, a))
  {
    PairNumber(a, b);
    PairNumber(b, a);
    hide Number, Expanded;
    var d := Number([a, b]) - Number([b, a]);
    ShiftTwo(Value(a));
    ShiftTwo(Value(b));
    if IsDigit(a) && IsDigit(b) {
      NineTimes(d, Value(a) - Value(b));
    } else if IsLetter(a) && IsLetter(b) {
      NinetyNineTimes(d, Value(a) - Value(b));
    } else if IsDigit(a) {
      NineTimes(d, 11 * Value(a) - Value(b));
    } else {
      NineTimes(d, Value(a) - 11 * Value(b));
    }
  }

  lemma {:induction false} ShiftTwo(x: int)
    ensures Shift(x, 1) == 10 * x && Shift(x, 2) == 100 * x
  {
    assert Shift(x, 2) == 10 * Shift(x, 1);
  }

  /** 54 is the inverse of 9 modulo 97, since 54 * 9 == 97 * 5 + 1. */
  lemma {:induction false} NineTimes(d: int, y: int)
    requires d == 9 * y && -97 < y < 97
    ensures d % 97 == 0 <==> y == 0
  {
    if d % 97 == 0 {
      var m := d / 97;
      assert y == 97 * (54 * m - 5 * y);
    }
  }

  /** 49 is the inverse of 99 modulo 97, since 49 * 99 == 97 * 50 + 1. */
  lemma {:induction false} NinetyNineTimes(d: int, y: int)
    requires d == 99 * y && -97 < y < 97
    ensures d % 97 == 0 <==> y == 0
  {
    if d % 97 == 0 {
      var m := d / 97;
      assert y == 97 * (49 * m - 50 * y);
    }
  }
}
