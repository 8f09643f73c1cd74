/** Decimal digit strings: the building blocks of every numeric field of the
    MUD export format.  A number is written as ASCII digits, zero-padded on the
    left, and the fixed-width fields keep only the low-order digits. */
module Digits {

  /** 10 to the power n. */
  function Pow10(n: nat): (r: nat)
    ensures r >= 1
  {
    if n == 0 then 1 else 10 * Pow10(n - 1)
  }

  lemma {:induction false} Pow10Add(a: nat, b: nat)
    ensures Pow10(a + b) == Pow10(a) * Pow10(b)
  {
    if b > 0 {
      Pow10Add(a, b - 1);
      assert Pow10(a + b) == 10 * Pow10(a + b - 1);
    }
  }

  predicate IsDigit(c: char) { '0' <= c <= '9' }

  predicate AllDigits(s: string) { forall i :: 0 <= i < |s| ==> IsDigit(s[i]) }

  function DigitValue(c: char): nat
    requires IsDigit(c)
  {
    c as int - '0' as int
  }

  function DigitChar(d: nat): (c: char)
    requires d < 10
    ensures IsDigit(c) && DigitValue(c) == d
  {
    ('0' as int + d) as char
  }

  /** A string of n zeros ('0'). */
  function Zeros(n: nat): (r: string)
    ensures |r| == n && forall i :: 0 <= i < n ==> r[i] == '0'
  {
    seq(n, _ => '0')
  }

  /** A string of n blanks. */
  function Spaces(n: nat): (r: string)
    ensures |r| == n && forall i :: 0 <= i < n ==> r[i] == ' '
  {
    seq(n, _ => ' ')
  }

  /** The shortest decimal representation of n, as JavaScript's
      Number.prototype.toString prints a non-negative integer. */
  function NatDigits(n: nat): (r: string)
    ensures 1 <= |r| && AllDigits(r)
  {
    if n < 10 then [DigitChar(n)] else NatDigits(n / 10) + [DigitChar(n % 10)]
  }

  /** The w low-order decimal digits of n, most significant first. */
  function PadDigits(n: nat, w: nat): (r: string)
    ensures |r| == w && AllDigits(r)
  {
    if w == 0 then [] else PadDigits(n / 10, w - 1) + [DigitChar(n % 10)]
  }

  /** The value of a string of decimal digits (the empty string is 0). */
  function ParseDigits(s: string): (r: nat)
    requires AllDigits(s)
    ensures r < Pow10(|s|)
  {
    if s == [] then 0 else 10 * ParseDigits(s[..|s| - 1]) + DigitValue(s[|s| - 1])
  }

  /** The last n characters of s. */
  function Suffix(s: string, n: nat): (r: string)
    requires n <= |s|
    ensures |r| == n
  {
    s[|s| - n..]
  }

  /** Printing a number and reading it back gives the number. */
  lemma {:induction false} ParseNatDigits(n: nat)
    ensures ParseDigits(NatDigits(n)) == n
  {
    if n >= 10 {
      var s := NatDigits(n);
      assert s[..|s| - 1] == NatDigits(n / 10);
      ParseNatDigits(n / 10);
    }
  }

  /** A non-zero multiple of d is at least d away from zero, on its side. */
  lemma MultipleBound(d: nat, k: int)
    ensures k == 0 || (k > 0 && d * k >= d) || (k < 0 && d * k <= 0 - d as int)
  {
    if k > 0 {
      var j: nat := k - 1;
      assert d * k == d + d * j;
    } else if k < 0 {
      var j: nat := -k - 1;
      assert d * k == 0 - d as int - d * j;
    }
  }

  /** x * 10^n, x / 10^n and x % 10^n, computed one decimal digit at a
      time so that the formatters only ever multiply or divide by ten. */
  function MulPow10(x: nat, n: nat): nat
  {
    if n == 0 then x else 10 * MulPow10(x, n - 1)
  }

  function DivPow10(x: nat, n: nat): nat
  {
    if n == 0 then x else DivPow10(x / 10, n - 1)
  }

  function ModPow10(x: nat, n: nat): nat
  {
    if n == 0 then 0 else 10 * ModPow10(x / 10, n - 1) + x % 10
  }

  lemma {:induction false} MulPow10Value(x: nat, n: nat)
    ensures MulPow10(x, n) == x * Pow10(n)
  {
    if n > 0 {
      MulPow10Value(x, n - 1);
      assert 10 * (x * Pow10(n - 1)) == x * (10 * Pow10(n - 1));
    }
  }

  lemma {:induction false} Pow10AsShift(n: nat)
    ensures Pow10(n) == MulPow10(1, n)
  {
    if n > 0 {
      Pow10AsShift(n - 1);
    }
  }

  lemma {:induction false} MulPow10Add(x: nat, a: nat, b: nat)
    ensures MulPow10(x, a + b) == MulPow10(MulPow10(x, a), b)
  {
    if b > 0 {
      MulPow10Add(x, a, b - 1);
      assert MulPow10(x, a + b) == 10 * MulPow10(x, a + b - 1);
    }
  }

  lemma {:induction false} MulPow10Sum(x: nat, y: nat, n: nat)
    ensures MulPow10(x + y, n) == MulPow10(x, n) + MulPow10(y, n)
  {
    if n > 0 {
      MulPow10Sum(x, y, n - 1);
    }
  }

  lemma {:induction false} MulPow10Less(x: nat, y: nat, n: nat)
    requires x < y
    ensures MulPow10(x, n) < MulPow10(y, n)
  {
    if n > 0 {
      MulPow10Less(x, y, n - 1);
    }
  }

  /** Shifting a left by n places and adding fewer than 10^n units, then
      shifting right again, gives back a. */
  lemma {:induction false} DivPow10Shift(a: nat, k: nat, n: nat)
    requires k < Pow10(n)
    ensures DivPow10(MulPow10(a, n) + k, n) == a
  {
    if n > 0 {
      assert (10 * MulPow10(a, n - 1) + k) / 10 == MulPow10(a, n - 1) + k / 10;
      DivPow10Shift(a, k / 10, n - 1);
    }
  }

  /** DivPow10 and ModPow10 split x into its digits above and below 10^n. */
  lemma {:induction false} DivModPow10(x: nat, n: nat)
    ensures x == MulPow10(DivPow10(x, n), n) + ModPow10(x, n) && ModPow10(x, n) < Pow10(n)
  {
    if n > 0 {
      DivModPow10(x / 10, n - 1);
    }
  }

  /** DivPow10 and ModPow10 are the quotient and remainder by 10^n. */
  lemma DivModPow10Value(x: nat, n: nat)
    ensures DivPow10(x, n) == x / Pow10(n) && ModPow10(x, n) == x % Pow10(n)
  {
    DivModPow10(x, n);
    MulPow10Value(DivPow10(x, n), n);
    ModUnique(x, Pow10(n), DivPow10(x, n), ModPow10(x, n));
  }

  /** Euclidean division has a unique remainder. */
  lemma ModUnique(n: nat, d: nat, a: nat, x: nat)
    requires 0 <= x < d && n == d * a + x
    ensures n % d == x && n / d == a
  {
    var q, m := n / d, n % d;
    assert d * (q - a) == x - m;
    MultipleBound(d, q - a);
  }

  lemma DivModStep(n: nat, p: nat)
    requires p >= 1
    ensures 10 * ((n / 10) % p) + n % 10 == n % (10 * p)
  {
    var q := n / 10;
    var r := n % 10;
    var a := q / p;
    var b := q % p;
    assert q == p * a + b;
    assert n == 10 * q + r;
    assert n == (10 * p) * a + (10 * b + r) by {
      assert 10 * q == 10 * (p * a) + 10 * b;
      assert 10 * (p * a) == (10 * p) * a;
    }
    ModUnique(n, 10 * p, a, 10 * b + r);
  }

  /** A w-digit field decodes to the input modulo 10^w: overflow keeps the
      low-order digits and loses the rest. */
  lemma {:induction false} ParsePadDigits(n: nat, w: nat)
    ensures ParseDigits(PadDigits(n, w)) == n % Pow10(w)
  {
    if w > 0 {
      var s := PadDigits(n, w);
      assert s[..|s| - 1] == PadDigits(n / 10, w - 1);
      ParsePadDigits(n / 10, w - 1);
      DivModStep(n, Pow10(w - 1));
    }
  }

  lemma {:induction false} PadDigitsOfZero(w: nat)
    ensures PadDigits(0, w) == Zeros(w)
  {
    if w > 0 {
      PadDigitsOfZero(w - 1);
      assert Zeros(w - 1) + ['0'] == Zeros(w);
    }
  }

  lemma SuffixSnoc(s: string, c: char, n: nat)
    requires 1 <= n <= |s| + 1
    ensures Suffix(s + [c], n) == Suffix(s, n - 1) + [c]
  {
  }

  /** Left-padding the digits of n with z >= w zeros and keeping the last w
      characters yields exactly the w low-order digits of n. */
  lemma {:induction false} SuffixOfPaddedDigits(n: nat, z: nat, w: nat)
    requires w <= z
    ensures Suffix(Zeros(z) + NatDigits(n), w) == PadDigits(n, w)
  {
    if w > 0 {
      if n < 10 {
        assert Zeros(z) + NatDigits(n) == Zeros(z) + [DigitChar(n)];
        SuffixSnoc(Zeros(z), DigitChar(n), w);
        assert Suffix(Zeros(z), w - 1) == Zeros(w - 1);
        PadDigitsOfZero(w - 1);
        assert n / 10 == 0 && n % 10 == n;
      } else {
        assert Zeros(z) + NatDigits(n) == (Zeros(z) + NatDigits(n / 10)) + [DigitChar(n % 10)];
        SuffixSnoc(Zeros(z) + NatDigits(n / 10), DigitChar(n % 10), w);
        SuffixOfPaddedDigits(n / 10, z, w - 1);
      }
    }
  }

  /** A number below 10^w has at most w digits. */
  lemma {:induction false} NatDigitsFit(n: nat, w: nat)
    requires 1 <= w && n < Pow10(w)
    ensures |NatDigits(n)| <= w
  {
    if n >= 10 {
      NatDigitsFit(n / 10, w - 1);
    }
  }

  /** When n has at most w digits, its w-digit field is the plain digits with
      leading zeros. */
  lemma {:induction false} PadDigitsOfSmall(n: nat, w: nat)
    requires |NatDigits(n)| <= w
    ensures PadDigits(n, w) == Zeros(w - |NatDigits(n)|) + NatDigits(n)
  {
    SuffixOfPaddedDigits(n, w, w);
    var z := Zeros(w);
    var d := NatDigits(n);
    var k := w - |d|;
    assert Zeros(w) == Zeros(k) + Zeros(|d|);
    assert Suffix(z + d, w) == (z + d)[|d|..];
    assert (z + d)[|d|..] == Zeros(k) + d;
  }
}
