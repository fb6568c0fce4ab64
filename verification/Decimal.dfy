/** Decimal numerals as Python and Go print them, and the code-point order of strings. */
module Decimal {
  import opened Options

  function DigitChar(d: nat): (c: char)
    requires d < 10
    ensures '0' <= c <= '9'
    ensures c as int == '0' as int + d
  {
    ('0' as int + d) as char
  }

  predicate IsDigit(c: char) {
    '0' <= c <= '9'
  }

  function DigitValue(c: char): (d: nat)
    requires IsDigit(c)
    ensures d < 10
  {
    c as int - '0' as int
  }

  /** `str(n)`. */
  function Digits(n: nat): (s: string)
    ensures |s| >= 1
    ensures forall i :: 0 <= i < |s| ==> IsDigit(s[i])
  {
    if n < 10 then [DigitChar(n)] else Digits(n / 10) + [DigitChar(n % 10)]
  }

  /** The number a string of digits denotes; the base-ten reading of `s`. */
  function Value(s: string): nat
    requires forall i :: 0 <= i < |s| ==> IsDigit(s[i])
  {
    if s == "" then 0 else 10 * Value(s[..|s| - 1]) + DigitValue(s[|s| - 1])
  }

  /** Reading back what was printed gives the number. */
  lemma {:induction false} ValueOfDigits(n: nat)
    ensures Value(Digits(n)) == n
  {
    var s := Digits(n);
    if n < 10 {
      assert s[..|s| - 1] == "";
    } else {
      assert s[..|s| - 1] == Digits(n / 10);
      ValueOfDigits(n / 10);
    }
  }

  function Pow10(k: nat): (p: nat)
    ensures p >= 1
  {
    if k == 0 then 1 else 10 * Pow10(k - 1)
  }

  /** The low `width` digits of `n`, most significant first. */
  function Fixed(n: nat, width: nat): (s: string)
    ensures |s| == width
    ensures forall i :: 0 <= i < |s| ==> IsDigit(s[i])
  {
    if width == 0 then "" else Fixed(n / 10, width - 1) + [DigitChar(n % 10)]
  }

  /** A numeral has as many digits as it needs and no more. */
  lemma {:induction false} DigitsWidth(n: nat)
    ensures n < Pow10(|Digits(n)|)
    ensures |Digits(n)| > 1 ==> n >= Pow10(|Digits(n)| - 1)
    ensures Digits(n) == Fixed(n, |Digits(n)|)
  {
    if n < 10 {
      assert Pow10(1) == 10;
      assert Fixed(n / 10, 0) == "";
    } else {
      DigitsWidth(n / 10);
      assert |Digits(n)| == |Digits(n / 10)| + 1;
      if |Digits(n)| == 2 {
        assert Pow10(1) == 10;
      }
    }
  }

  lemma {:induction false} Pow10Grows(j: nat, k: nat)
    requires j <= k
    ensures Pow10(j) <= Pow10(k)
    decreases k
  {
    if j < k {
      Pow10Grows(j, k - 1);
    }
  }

  lemma {:induction false} DigitsGrow(a: nat, b: nat)
    requires a <= b
    ensures |Digits(a)| <= |Digits(b)|
  {
    DigitsWidth(a);
    DigitsWidth(b);
    if |Digits(a)| > |Digits(b)| {
      Pow10Grows(|Digits(b)|, |Digits(a)| - 1);
    }
  }

  /** Code-point order of strings, as Python's `<` compares them. */
  predicate Before(a: string, b: string) {
    b != "" && (a == "" || a[0] < b[0] || (a[0] == b[0] && Before(a[1..], b[1..])))
  }

  lemma {:induction false} BeforeIsStrict(a: string, b: string)
    ensures !(Before(a, b) && Before(b, a))
    ensures !Before(a, a)
    ensures Before(a, b) || Before(b, a) || a == b
  {
    if a != "" && b != "" {
      BeforeIsStrict(a[1..], b[1..]);
      if a[0] == b[0] && a[1..] == b[1..] {
        assert a == [a[0]] + a[1..] && b == [b[0]] + b[1..];
      }
    }
    if a != "" {
      BeforeIsStrict(a[1..], a[1..]);
    }
  }

  lemma {:induction false} BeforeIsTransitive(a: string, b: string, c: string)
    requires Before(a, b) && Before(b, c)
    ensures Before(a, c)
  {
    if a != "" && a[0] == b[0] && b[0] == c[0] {
      BeforeIsTransitive(a[1..], b[1..], c[1..]);
    }
  }

  lemma {:induction false} BeforeSkipsCommonPrefix(p: string, a: string, b: string)
    ensures Before(p + a, p + b) <==> Before(a, b)
  {
    if p == "" {
      assert p + a == a && p + b == b;
    } else {
      assert (p + a)[1..] == p[1..] + a && (p + b)[1..] == p[1..] + b;
      BeforeSkipsCommonPrefix(p[1..], a, b);
    }
  }

  /** Numerals of equal width are ordered as numbers, and ties are decided by what follows. */
  lemma {:induction false} FixedOrder(n: nat, m: nat, width: nat, x: string, y: string)
    requires n < Pow10(width) && m < Pow10(width)
    ensures Before(Fixed(n, width) + x, Fixed(m, width) + y) <==> n < m || (n == m && Before(x, y))
  {
    if width == 0 {
      assert Fixed(n, 0) + x == x && Fixed(m, 0) + y == y;
    } else {
      var d, e := [DigitChar(n % 10)], [DigitChar(m % 10)];
      FixedOrder(n / 10, m / 10, width - 1, d + x, e + y);
      assert Fixed(n, width) + x == Fixed(n / 10, width - 1) + (d + x);
      assert Fixed(m, width) + y == Fixed(m / 10, width - 1) + (e + y);
      assert (d + x)[1..] == x && (e + y)[1..] == y;
    }
  }

  lemma DivideByTen(b: nat, p: nat)
    requires p >= 1
    ensures (b / 10) / p == b / (10 * p)
  {
    var q := (b / 10) / p;
    assert b / 10 == q * p + (b / 10) % p;
    assert q * p + p >= b / 10 + 1;
    var r := b - 10 * (q * p);
    assert 0 <= r < 10 * p;
    assert b == q * (10 * p) + r;
    QuotientIs(b, 10 * p, q, r);
  }

  lemma QuotientIs(b: nat, d: nat, q: nat, r: nat)
    requires d >= 1 && b == q * d + r && r < d
    ensures b / d == q && b % d == r
  {
    var q' := b / d;
    assert b == q' * d + b % d;
    assert (q' - q) * d == r - b % d;
    SmallMultiple(q' - q, d);
  }

  lemma SmallMultiple(k: int, d: int)
    requires d > 0 && -d < k * d < d
    ensures k == 0
  {
  }

  /** `n` without its last `k` digits. */
  function Cut(n: nat, k: nat): nat {
    if k == 0 then n else Cut(n / 10, k - 1)
  }

  lemma {:induction false} CutDivides(n: nat, k: nat)
    ensures Cut(n, k) == n / Pow10(k)
  {
    if k > 0 {
      CutDivides(n / 10, k - 1);
      DivideByTen(n, Pow10(k - 1));
    }
  }

  /** Splitting a numeral after its first `width` digits. */
  lemma {:induction false} FixedSplits(b: nat, width: nat, k: nat)
    ensures Fixed(b, width + k) == Fixed(Cut(b, k), width) + Fixed(b, k)
  {
    var lead := Fixed(Cut(b, k), width);
    if k == 0 {
      assert lead + Fixed(b, 0) == lead;
    } else {
      var c, last := b / 10, [DigitChar(b % 10)];
      FixedSplits(c, width, k - 1);
      assert width + k - 1 == width + (k - 1);
      assert (lead + Fixed(c, k - 1)) + last == lead + (Fixed(c, k - 1) + last);
    }
  }

  lemma {:induction false} CutFits(b: nat, width: nat, k: nat)
    requires b < Pow10(width + k)
    ensures Cut(b, k) < Pow10(width)
  {
    if k > 0 {
      CutFits(b / 10, width, k - 1);
    }
  }

  lemma BelowProduct(a: nat, b: nat, d: nat)
    requires d >= 1 && a * d < b * d
    ensures a < b
  {
  }

  /** The last multiple of `d` at or before `k`. */
  function RoundDown(k: nat, d: nat): (f: nat)
    requires d >= 1
    ensures f <= k < f + d
    ensures k % d == 0 ==> f == k
  {
    k - k % d
  }

  lemma RoundDownSkips(k: nat, d: nat)
    requires d >= 1 && k >= 1 && k % d != 0
    ensures RoundDown(k, d) == RoundDown(k - 1, d)
  {
    var q := k / d;
    assert k == q * d + k % d;
    assert k - 1 == q * d + (k % d - 1);
    QuotientIs(k - 1, d, q, k % d - 1);
  }

  // Integers with a sign.

  function ShowInt(x: int): string {
    if x < 0 then "-" + Digits(-x) else Digits(x)
  }

  /** A run of digits. */
  function ReadDigits(text: string): Option<nat> {
    if text != "" && forall i :: 0 <= i < |text| ==> IsDigit(text[i]) then Some(Value(text)) else None
  }

  /** Reading an integer. */
  function ReadInt(text: string): Option<int> {
    if text == "" then None
    else if text[0] == '-' then
      if ReadDigits(text[1..]).Some? then Some(-(ReadDigits(text[1..]).value as int)) else None
    else if ReadDigits(text).Some? then Some(ReadDigits(text).value)
    else None
  }

  lemma ReadShownDigits(n: nat)
    ensures ReadDigits(Digits(n)) == Some(n)
    ensures Digits(n)[0] != '-' && '\n' !in Digits(n)
  {
    ValueOfDigits(n);
    assert IsDigit(Digits(n)[0]);
  }

  /** A minus sign in front of digits. */
  lemma ReadNegated(digits: string)
    requires ReadDigits(digits).Some?
    ensures ReadInt("-" + digits) == Some(-(ReadDigits(digits).value as int))
    ensures '\n' !in digits ==> '\n' !in "-" + digits
  {
    var text := "-" + digits;
    assert text[0] == '-' && text[1..] == digits;
  }

  lemma ReadShownInt(x: int)
    ensures ReadInt(ShowInt(x)) == Some(x)
    ensures '\n' !in ShowInt(x)
  {
    if x < 0 {
      ReadShownDigits(-x);
      ReadNegated(Digits(-x));
    } else {
      ReadShownDigits(x);
    }
  }
}
