/** The Luhn (Annex B of ISO/IEC 7812-1) and Verhoeff checks of pkg/dataclass. */
module CheckDigits {
  import opened Digits

  // ---------------------------------------------------------------- Luhn

  /** What one digit adds to the Luhn sum; `twice` for every second digit
      counted from the right. */
  function Contribution(n: nat, twice: bool): nat {
    if !twice then n else if 2 * n > 9 then 2 * n - 9 else 2 * n
  }

  /** The weighted sum of d when `twice` tells whether its first digit is doubled. */
  function Weighted(d: string, twice: bool): nat
    requires AllDigits(d)
  {
    if d == "" then 0
    else Contribution(DigitValue(d[0]), twice) + Weighted(d[1..], !twice)
  }

  /** The whole number's sum: the rightmost digit counts once, so the first
      digit is doubled exactly when the length is even. */
  function LuhnSum(d: string): nat
    requires AllDigits(d)
  {
    Weighted(d, |d| % 2 == 0)
  }

  predicate LuhnAccepted(d: string)
    requires AllDigits(d)
  {
    13 <= |d| <= 19 && LuhnSum(d) % 10 == 0
  }

  function Total(terms: seq<nat>): nat {
    if terms == [] then 0 else terms[0] + Total(terms[1..])
  }

  /** What each digit adds by the standard: the digits of its double, for every
      second one from the right, and itself for the others. */
  function Terms(d: string): (r: seq<nat>)
    requires AllDigits(d)
    ensures |r| == |d|
  {
    seq(|d|, i requires 0 <= i < |d| =>
      var n := if (|d| - i) % 2 == 0 then 2 * DigitValue(d[i]) else DigitValue(d[i]);
      n / 10 + n % 10)
  }

  lemma {:induction false} LuhnSumIsStandard(d: string)
    requires AllDigits(d)
    ensures LuhnSum(d) == Total(Terms(d))
  {
    hide Contribution, Terms;
    if d != "" {
      LuhnSumIsStandard(d[1..]);
      FirstTerm(d);
    } else {
      assert Terms(d) == [];
    }
  }

  lemma {:induction false} FirstTerm(d: string)
    requires AllDigits(d) && d != ""
    ensures Terms(d)[1..] == Terms(d[1..])
    ensures Terms(d)[0] == Contribution(DigitValue(d[0]), |d| % 2 == 0)
    ensures |d[1..]| % 2 == 0 <==> |d| % 2 != 0
  {
    ContributionIsDigits(DigitValue(d[0]), |d| % 2 == 0);
    hide Contribution;
  }

  /** The check is the standard's: 13 to 19 digits, and a sum of the digits, each
      second one doubled, that is 0 modulo 10. */
  lemma {:induction false} LuhnAcceptsIff(d: string)
    requires AllDigits(d)
    ensures LuhnAccepted(d) <==> 13 <= |d| <= 19 && Total(Terms(d)) % 10 == 0
  {
    LuhnSumIsStandard(d);
    hide Total, Terms, LuhnSum;
  }

  lemma {:induction false} ContributionIsDigits(n: nat, twice: bool)
    requires n < 10
    ensures var m := if twice then 2 * n else n;
            Contribution(n, twice) == m / 10 + m % 10
  {
  }

  /** The doubling flag after n more digits. */
  function After(twice: bool, n: nat): bool {
    if n == 0 then twice else !After(twice, n - 1)
  }

  lemma {:induction false} AfterParity(n: nat)
    ensures After(false, n) == (n % 2 == 1)
  {
    if n > 0 {
      AfterParity(n - 1);
    }
  }

  /** luhnValid, called on the output of digitsOnly. */
  method LuhnValid(d: string) returns (ok: bool)
    requires AllDigits(d)
    ensures ok <==> LuhnAccepted(d)
  {
    if |d| < 13 || |d| > 19 {
      return false;
    }
    var sum: nat := 0;
    var double := false;
    var i := |d| - 1;
    while i >= 0
      invariant -1 <= i < |d|
      invariant double == After(false, |d| - 1 - i)
      invariant sum == Weighted(d[i + 1..], !double)
    {
      var n := DigitValue(d[i]);
      if double {
        n := n * 2;
        if n > 9 {
          n := n - 9;
        }
      }
      assert d[i..][1..] == d[i + 1..];
      sum := sum + n;
      double := !double;
      i := i - 1;
    }
    assert d[0..] == d;
    AfterParity(|d|);
    return sum % 10 == 0;
  }

  lemma {:induction false} AfterFirst(twice: bool, n: nat)
    ensures After(!twice, n) == !After(twice, n)
  {
    if n > 0 {
      AfterFirst(twice, n - 1);
    }
  }

  /** Two numbers with one prefix differ by what follows it. */
  lemma {:induction false} WeightedPrefix(a: string, b: string, b': string, twice: bool)
    requires AllDigits(a) && AllDigits(b) && AllDigits(b')
    ensures AllDigits(a + b) && AllDigits(a + b')
    ensures Weighted(a + b, twice) - Weighted(a + b', twice)
            == Weighted(b, After(twice, |a|)) - Weighted(b', After(twice, |a|))
  {
    if a == "" {
      assert a + b == b && a + b' == b';
    } else {
      WeightedPrefix(a[1..], b, b', !twice);
      AfterFirst(twice, |a| - 1);
      assert (a + b)[1..] == a[1..] + b && (a + b')[1..] == a[1..] + b';
    }
  }

  lemma {:induction false} WeightedCons(c: char, rest: string, twice: bool)
    requires IsDigit(c) && AllDigits(rest)
    ensures AllDigits([c] + rest)
    ensures Weighted([c] + rest, twice) == Contribution(DigitValue(c), twice) + Weighted(rest, !twice)
  {
    assert ([c] + rest)[1..] == rest;
  }

  lemma {:induction false} SameLastDigit(a: int, b: int, d: int)
    requires a - b == d
    ensures a % 10 == b % 10 <==> d % 10 == 0
  {
  }

  /** Every change of one digit is rejected. */
  lemma {:induction false} LuhnSubstitution(d: string, i: nat, c: char)
    requires AllDigits(d) && LuhnAccepted(d) && i < |d| && IsDigit(c) && c != d[i]
    ensures !LuhnAccepted(d[i := c])
  {
    var pre, rest := d[..i], d[i + 1..];
    assert d == pre + ([d[i]] + rest) && d[i := c] == pre + ([c] + rest);
    hide Weighted;
    LuhnReplace(pre, d[i], c, rest, |d| % 2 == 0);
  }

  lemma {:induction false} LuhnReplace(pre: string, x: char, c: char, rest: string, twice: bool)
    requires AllDigits(pre) && AllDigits(rest) && IsDigit(x) && IsDigit(c) && x != c
    ensures AllDigits(pre + ([x] + rest)) && AllDigits(pre + ([c] + rest))
    ensures Weighted(pre + ([x] + rest), twice) % 10 != Weighted(pre + ([c] + rest), twice) % 10
  {
    hide Weighted, After, Contribution;
    var t := After(twice, |pre|);
    WeightedCons(x, rest, t);
    WeightedCons(c, rest, t);
    WeightedPrefix(pre, [x] + rest, [c] + rest, twice);
    ContributionInjective(DigitValue(x), DigitValue(c), t);
    SameLastDigit(Weighted(pre + ([x] + rest), twice), Weighted(pre + ([c] + rest), twice),
                  Contribution(DigitValue(x), t) - Contribution(DigitValue(c), t));
  }

  lemma {:induction false} ContributionInjective(x: nat, y: nat, twice: bool)
    requires x < 10 && y < 10 && x != y
    ensures Contribution(x, twice) < 10 && Contribution(y, twice) < 10
    ensures Contribution(x, twice) != Contribution(y, twice)
  {
  }

  /** A swap of neighbours goes unnoticed exactly when they are equal or are
      the digits 0 and 9. */
  lemma {:induction false} LuhnSwap(d: string, k: nat)
    requires AllDigits(d) && LuhnAccepted(d) && k + 1 < |d|
    ensures AllDigits(Swapped(d, k))
    ensures LuhnAccepted(Swapped(d, k)) <==>
            (d[k] == d[k + 1] || (d[k] == '0' && d[k + 1] == '9') || (d[k] == '9' && d[k + 1] == '0'))
  {
    var pre, x, y, rest := d[..k], d[k], d[k + 1], d[k + 2..];
    assert d == pre + ([x] + ([y] + rest)) && Swapped(d, k) == pre + ([y] + ([x] + rest));
    hide Weighted;
    LuhnPair(pre, x, y, rest, |d| % 2 == 0);
  }

  lemma {:induction false} LuhnPair(pre: string, x: char, y: char, rest: string, twice: bool)
    requires AllDigits(pre) && AllDigits(rest) && IsDigit(x) && IsDigit(y)
    ensures AllDigits(pre + ([x] + ([y] + rest))) && AllDigits(pre + ([y] + ([x] + rest)))
    ensures Weighted(pre + ([x] + ([y] + rest)), twice) % 10 == Weighted(pre + ([y] + ([x] + rest)), twice) % 10
            <==> (x == y || (x == '0' && y == '9') || (x == '9' && y == '0'))
  {
    hide Weighted;
    var t := After(twice, |pre|);
    WeightedCons(x, rest, !t);
    WeightedCons(y, rest, !t);
    WeightedCons(x, [y] + rest, t);
    WeightedCons(y, [x] + rest, t);
    WeightedPrefix(pre, [x] + ([y] + rest), [y] + ([x] + rest), twice);
    PairSwap(DigitValue(x), DigitValue(y), t);
    SameLastDigit(Weighted(pre + ([x] + ([y] + rest)), twice), Weighted(pre + ([y] + ([x] + rest)), twice),
                  Contribution(DigitValue(x), t) + Contribution(DigitValue(y), !t)
                  - Contribution(DigitValue(y), t) - Contribution(DigitValue(x), !t));
  }

  lemma {:induction false} PairSwap(x: nat, y: nat, twice: bool)
    requires x < 10 && y < 10
    ensures (Contribution(x, twice) +
             Contribution(y, !twice) - Contribution(y, twice) - Contribution(x, !twice)) % 10 == 0
            <==> (x == y || (x == 0 && y == 9) || (x == 9 && y == 0))
  {
  }

  // ------------------------------------------------------------- Verhoeff

  const VERHOEFF_D: seq<seq<nat>> := [
    [0, 1, 2, 3, 4, 5, 6, 7, 8, 9],
    [1, 2, 3, 4, 0, 6, 7, 8, 9, 5],
    [2, 3, 4, 0, 1, 7, 8, 9, 5, 6],
    [3, 4, 0, 1, 2, 8, 9, 5, 6, 7],
    [4, 0, 1, 2, 3, 9, 5, 6, 7, 8],
    [5, 9, 8, 7, 6, 0, 4, 3, 2, 1],
    [6, 5, 9, 8, 7, 1, 0, 4, 3, 2],
    [7, 6, 5, 9, 8, 2, 1, 0, 4, 3],
    [8, 7, 6, 5, 9, 3, 2, 1, 0, 4],
    [9, 8, 7, 6, 5, 4, 3, 2, 1, 0]
  ]

  const VERHOEFF_P: seq<seq<nat>> := [
    [0, 1, 2, 3, 4, 5, 6, 7, 8, 9],
    [1, 5, 7, 6, 2, 8, 3, 0, 9, 4],
    [5, 8, 0, 3, 7, 9, 6, 1, 4, 2],
    [8, 9, 1, 6, 0, 4, 3, 5, 2, 7],
    [9, 4, 5, 3, 1, 2, 6, 8, 7, 0],
    [4, 2, 8, 6, 5, 7, 3, 9, 0, 1],
    [2, 7, 9, 3, 8, 0, 6, 4, 1, 5],
    [7, 0, 4, 6, 9, 1, 3, 2, 5, 8]
  ]

  /** The dihedral group of order ten: 0..4 are rotations, 5..9 reflections. */
  function Compose(a: nat, b: nat): (r: nat)
    requires a < 10 && b < 10
    ensures r < 10
  {
    if a < 5 then
      if b < 5 then Mod5(a + b) else 5 + Mod5(a + b - 5)
    else
      if b < 5 then 5 + Mod5(a - b) else Mod5(a - b + 5)
  }

  /** n modulo five, for 0 <= n < 15. */
  function Mod5(n: int): (r: nat)
    requires 0 <= n < 15
    ensures r < 5
  {
    if n < 5 then n else if n < 10 then n - 5 else n - 10
  }

  /** The permutation of the second row; the other rows are its powers. */
  function Permute(x: nat): (r: nat)
    requires x < 10
    ensures r < 10
  {
    if x == 0 then 1 else if x == 1 then 5 else if x == 2 then 7 else if x == 3 then 6 else if x == 4 then 2
    else if x == 5 then 8 else if x == 6 then 3 else if x == 7 then 0 else if x == 8 then 9 else 4
  }

  /** The product table is the group's composition. */
  lemma {:induction false} TableIsGroup(a: nat, b: nat)
    requires a < 10 && b < 10
    ensures |VERHOEFF_D| == 10 && |VERHOEFF_D[a]| == 10
    ensures VERHOEFF_D[a][b] == Compose(a, b)
  {
    var row := VERHOEFF_D[a];
    if a < 5 {
      if a < 3 { assert row[b] == Compose(a, b); } else { assert row[b] == Compose(a, b); }
    } else {
      if a < 8 { assert row[b] == Compose(a, b); } else { assert row[b] == Compose(a, b); }
    }
  }

  /** Each row of the permutation table is the permutation applied once more to
      the row before it, and the eighth power is the identity. */
  lemma {:induction false} TableIsPower(k: nat, x: nat)
    requires k < 8 && x < 10
    ensures |VERHOEFF_P| == 8 && |VERHOEFF_P[k]| == 10
    ensures VERHOEFF_P[k][x] < 10
    ensures VERHOEFF_P[if k == 7 then 0 else k + 1][x] == Permute(VERHOEFF_P[k][x])
  {
  }

  /** The digit's image in row k of the permutation table, rows repeating every eight. */
  function Turned(k: nat, x: nat): (r: nat)
    requires x < 10
    ensures r < 10
  {
    TableIsPower(k % 8, x);
    VERHOEFF_P[k % 8][x]
  }

  lemma {:induction false} TurnedNext(k: nat, x: nat)
    requires x < 10
    ensures Turned(k + 1, x) == Permute(Turned(k, x))
  {
    NextRow(k);
    TableIsPower(k % 8, x);
  }

  lemma {:induction false} NextRow(k: nat)
    ensures (k + 1) % 8 == if k % 8 == 7 then 0 else k % 8 + 1
  {
  }

  /** One step of the check: digit ch is the k-th from the right. */
  function Step(c: nat, k: nat, ch: char): (r: nat)
    requires c < 10 && IsDigit(ch)
    ensures r == Compose(c, Turned(k, DigitValue(ch)))
  {
    TableIsPower(k % 8, DigitValue(ch));
    TableIsGroup(c, VERHOEFF_P[k % 8][DigitValue(ch)]);
    VERHOEFF_D[c][VERHOEFF_P[k % 8][DigitValue(ch)]]
  }

  /** The check continued from c over d, read from its right end, with k digits
      already read. */
  function Reading(c: nat, d: string, k: nat): (r: nat)
    requires c < 10 && AllDigits(d)
    ensures r < 10
    decreases |d|
  {
    if d == "" then c else Reading(Step(c, k, d[|d| - 1]), d[..|d| - 1], k + 1)
  }

  /** The product of the group elements of the last n digits, from the right: the
      digit in place i is turned i times. */
  function Product(d: string, n: nat): (r: nat)
    requires AllDigits(d) && n <= |d|
    ensures r < 10
  {
    if n == 0 then 0 else Compose(Product(d, n - 1), Repeated(n - 1, DigitValue(d[|d| - n])))
  }

  /** The permutation applied k times. */
  function Repeated(k: nat, x: nat): (r: nat)
    requires x < 10
    ensures r < 10
  {
    if k == 0 then x else Permute(Repeated(k - 1, x))
  }

  lemma {:induction false} TurnedIsRepeated(k: nat, x: nat)
    requires x < 10
    ensures Turned(k, x) == Repeated(k, x)
  {
    if k == 0 {
      FirstRow(x);
    } else {
      TurnedIsRepeated(k - 1, x);
      TurnedNext(k - 1, x);
    }
  }

  /** Reading goes on from the product of what was read. */
  lemma {:induction false} ReadingIsProduct(d: string, k: nat)
    requires AllDigits(d) && k <= |d|
    ensures Reading(Product(d, k), d[..|d| - k], k) == Product(d, |d|)
    decreases |d| - k
  {
    hide Compose, Turned, Repeated, Step;
    if k < |d| {
      var rest := d[..|d| - k];
      TurnedIsRepeated(k, DigitValue(rest[|rest| - 1]));
      assert rest[..|rest| - 1] == d[..|d| - (k + 1)];
      ReadingIsProduct(d, k + 1);
    } else {
      assert d[..|d| - k] == "";
    }
  }

  predicate VerhoeffAccepted(d: string)
    requires AllDigits(d)
  {
    |d| == 12 && Reading(0, d, 0) == 0
  }

  /** verhoeffValid. */
  method VerhoeffValid(d: string) returns (ok: bool)
    requires AllDigits(d)
    ensures ok <==> VerhoeffAccepted(d)
    ensures ok <==> |d| == 12 && Product(d, 12) == 0
  {
    if |d| != 12 {
      return false;
    }
    ReadingIsProduct(d, 0);
    hide Turned, Compose;
    var c: nat := 0;
    var i := 0;
    assert d[..|d|] == d;
    while i < |d|
      invariant 0 <= i <= |d| && c < 10
      invariant Reading(0, d, 0) == Reading(c, d[..|d| - i], i)
    {
      var rest := d[..|d| - i];
      assert rest[..|rest| - 1] == d[..|d| - (i + 1)];
      TableIsPower(i % 8, DigitValue(d[|d| - 1 - i]));
      TableIsGroup(c, VERHOEFF_P[i % 8][DigitValue(d[|d| - 1 - i])]);
      c := VERHOEFF_D[c][VERHOEFF_P[i % 8][DigitValue(d[|d| - 1 - i])]];
      i := i + 1;
    }
    return c == 0;
  }

  lemma {:induction false} ComposeAssociative(a: nat, b: nat, c: nat)
    requires a < 10 && b < 10 && c < 10
    ensures Compose(Compose(a, b), c) == Compose(a, Compose(b, c))
  {
    var l, r := Compose(a, b), Compose(b, c);
    if a < 5 {
      assert Compose(l, c) == Compose(a, r);
    } else {
      assert Compose(l, c) == Compose(a, r);
    }
  }

  lemma {:induction false} ComposeCancels(a: nat, b: nat, c: nat)
    requires a < 10 && b < 10 && c < 10 && b != c
    ensures Compose(a, b) != Compose(a, c)
    ensures Compose(b, a) != Compose(c, a)
  {
  }

  lemma {:induction false} PermuteInjective(x: nat, y: nat)
    requires x < 10 && y < 10 && x != y
    ensures Permute(x) != Permute(y)
  {
  }

  lemma {:induction false} FirstRow(x: nat)
    requires x < 10
    ensures Turned(0, x) == x
  {
  }

  lemma {:induction false} TurnedInjective(k: nat, x: nat, y: nat)
    requires x < 10 && y < 10 && x != y
    ensures Turned(k, x) != Turned(k, y)
  {
    hide Turned, Permute;
    if k == 0 {
      FirstRow(x);
      FirstRow(y);
    } else {
      TurnedInjective(k - 1, x, y);
      TurnedNext(k - 1, x);
      TurnedNext(k - 1, y);
      PermuteInjective(Turned(k - 1, x), Turned(k - 1, y));
    }
  }

  /** The permutation is chosen so that no two digits commute through it. */
  lemma {:induction false} NeverCommute(x: nat, y: nat)
    requires x < 10 && y < 10 && x != y
    ensures Compose(x, Permute(y)) != Compose(y, Permute(x))
  {
  }

  lemma {:induction false} ReadingInjective(c: nat, c': nat, d: string, k: nat)
    requires c < 10 && c' < 10 && c != c' && AllDigits(d)
    ensures Reading(c, d, k) != Reading(c', d, k)
    decreases |d|
  {
    if d != "" {
      hide Turned, Compose;
      var x := d[|d| - 1];
      ComposeCancels(Turned(k, DigitValue(x)), c, c');
      ReadingInjective(Step(c, k, x), Step(c', k, x), d[..|d| - 1], k + 1);
    }
  }

  lemma {:induction false} ReadingAppend(c: nat, a: string, b: string, k: nat)
    requires c < 10 && AllDigits(a) && AllDigits(b)
    ensures AllDigits(a + b) && Reading(c, a + b, k) == Reading(Reading(c, b, k), a, k + |b|)
    decreases |b|
  {
    hide Turned, Compose, Step;
    if b == "" {
      assert a + b == a;
    } else {
      assert (a + b)[..|a + b| - 1] == a + b[..|b| - 1];
      assert (a + b)[|a + b| - 1] == b[|b| - 1];
      ReadingAppend(Step(c, k, b[|b| - 1]), a, b[..|b| - 1], k + 1);
    }
  }

  /** Every change of one digit is rejected. */
  lemma {:induction false} VerhoeffSubstitution(d: string, i: nat, c: char)
    requires AllDigits(d) && VerhoeffAccepted(d) && i < |d| && IsDigit(c) && c != d[i]
    ensures !VerhoeffAccepted(d[i := c])
  {
    hide Reading;
    var pre, suf := d[..i], d[i + 1..];
    assert d == (pre + [d[i]]) + suf && d[i := c] == (pre + [c]) + suf;
    ReadingAppend(0, pre + [d[i]], suf, 0);
    ReadingAppend(0, pre + [c], suf, 0);
    LastDiffers(Reading(0, suf, 0), pre, d[i], c, |suf|);
  }

  lemma {:induction false} LastDiffers(s: nat, pre: string, x: char, y: char, k: nat)
    requires s < 10 && AllDigits(pre) && IsDigit(x) && IsDigit(y) && x != y
    ensures Reading(s, pre + [x], k) != Reading(s, pre + [y], k)
  {
    hide Turned, Compose;
    assert (pre + [x])[..|pre|] == pre && (pre + [y])[..|pre|] == pre;
    TurnedInjective(k, DigitValue(x), DigitValue(y));
    ComposeCancels(s, Turned(k, DigitValue(x)), Turned(k, DigitValue(y)));
    ReadingInjective(Step(s, k, x), Step(s, k, y), pre, k + 1);
  }

  /** Every swap of unequal neighbours is rejected. */
  lemma {:induction false} VerhoeffSwap(d: string, k: nat)
    requires AllDigits(d) && VerhoeffAccepted(d) && k + 1 < |d| && d[k] != d[k + 1]
    ensures AllDigits(Swapped(d, k)) && !VerhoeffAccepted(Swapped(d, k))
  {
    hide Reading;
    var pre, x, y, suf := d[..k], d[k], d[k + 1], d[k + 2..];
    assert d == (pre + [x, y]) + suf && Swapped(d, k) == (pre + [y, x]) + suf;
    ReadingAppend(0, pre + [x, y], suf, 0);
    ReadingAppend(0, pre + [y, x], suf, 0);
    PairDiffers(Reading(0, suf, 0), pre, x, y, |suf|);
  }

  lemma {:induction false} PairDiffers(s: nat, pre: string, x: char, y: char, n: nat)
    requires s < 10 && AllDigits(pre) && IsDigit(x) && IsDigit(y) && x != y
    ensures Reading(s, pre + [x, y], n) != Reading(s, pre + [y, x], n)
  {
    hide Turned, Compose, Reading;
    ReadPair(s, pre, x, y, n);
    ReadPair(s, pre, y, x, n);
    PairNeverCommutes(s, DigitValue(x), DigitValue(y), n);
    ReadingInjective(Step(Step(s, n, y), n + 1, x), Step(Step(s, n, x), n + 1, y), pre, n + 2);
  }

  lemma {:induction false} ReadPair(c: nat, pre: string, x: char, y: char, k: nat)
    requires c < 10 && AllDigits(pre) && IsDigit(x) && IsDigit(y)
    ensures Reading(c, pre + [x, y], k) == Reading(Step(Step(c, k, y), k + 1, x), pre, k + 2)
  {
    hide Turned, Compose, Step;
    assert (pre + [x, y])[..|pre| + 1] == pre + [x];
    assert (pre + [x])[..|pre|] == pre;
    assert Reading(c, pre + [x, y], k) == Reading(Step(c, k, y), pre + [x], k + 1);
  }

  lemma {:induction false} PairNeverCommutes(s: nat, x: nat, y: nat, k: nat)
    requires s < 10 && x < 10 && y < 10 && x != y
    ensures Compose(Compose(s, Turned(k, y)), Turned(k + 1, x)) != Compose(Compose(s, Turned(k, x)), Turned(k + 1, y))
  {
    hide Turned, Compose, Permute;
    var a, b := Turned(k, x), Turned(k, y);
    TurnedNext(k, x);
    TurnedNext(k, y);
    TurnedInjective(k, x, y);
    NeverCommute(b, a);
    ComposeAssociative(s, b, Permute(a));
    ComposeAssociative(s, a, Permute(b));
    ComposeCancels(s, Compose(b, Permute(a)), Compose(a, Permute(b)));
  }
}
