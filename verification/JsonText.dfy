/** JSON texts and their lengths: UTF-8 widths and decimal numbers. A text is a sequence of Unicode
    scalar values, so its length is its number of characters. */
module JsonText {

  function Width(c: char): nat {
    var n := c as int;
    if n < 0x80 then 1 else if n < 0x800 then 2 else if n < 0x1_0000 then 3 else 4
  }

  /** The UTF-8 length of a text. */
  function Bytes(s: string): nat {
    if s == "" then 0 else Width(s[0]) + Bytes(s[1..])
  }

  function Digit(n: nat): char
    requires n < 10
  {
    '0' + (n as char)
  }

  /** A nonnegative integer as JSON prints it. */
  function Decimal(n: nat): string {
    if n < 10 then [Digit(n)] else Decimal(n / 10) + [Digit(n % 10)]
  }

  function Digits(n: nat): nat {
    if n < 10 then 1 else 1 + Digits(n / 10)
  }

  const MAX_SAFE := 0x20_0000_0000_0000 // 2^53

  lemma {:induction false} BytesAppend(s: string, t: string)
    ensures Bytes(s + t) == Bytes(s) + Bytes(t)
  {
    if s == "" {
      assert s + t == t;
    } else {
      assert (s + t)[1..] == s[1..] + t;
      BytesAppend(s[1..], t);
    }
  }

  lemma {:induction false} BytesBound(s: string)
    ensures |s| <= Bytes(s) <= 4 * |s|
  {
    if s != "" { BytesBound(s[1..]); }
  }

  lemma {:induction false} DecimalSize(n: nat)
    ensures |Decimal(n)| == Digits(n) && Bytes(Decimal(n)) == Digits(n)
  {
    if n < 10 {
      assert Bytes([Digit(n)]) == 1 + Bytes([Digit(n)][1..]);
    } else {
      DecimalSize(n / 10);
      BytesAppend(Decimal(n / 10), [Digit(n % 10)]);
      assert Bytes([Digit(n % 10)]) == 1 + Bytes([Digit(n % 10)][1..]);
    }
  }

  lemma {:induction false} DigitsMonotone(a: nat, b: nat)
    requires a <= b
    ensures Digits(a) <= Digits(b)
  {
    if a >= 10 { DigitsMonotone(a / 10, b / 10); }
  }

  /** Thirty more crosses at most one power of ten. */
  lemma {:induction false} DigitsSlow(n: nat)
    ensures Digits(n + 30) <= Digits(n) + 1
  {
    if n >= 10 {
      DigitsSlow(n / 10);
      DigitsMonotone((n + 30) / 10, n / 10 + 30);
    } else {
      assert Digits(n + 30) == 1 + Digits((n + 30) / 10);
    }
  }

  function Power(e: nat): nat { if e == 0 then 1 else 10 * Power(e - 1) }

  lemma {:induction false} DigitsBound(n: nat, e: nat)
    requires 1 <= e && n < Power(e)
    ensures 1 <= Digits(n) <= e
  {
    if n >= 10 {
      assert Power(e) == 10 * Power(e - 1);
      DigitsBound(n / 10, e - 1);
    }
  }

  lemma SixteenDigits(n: nat)
    requires n < MAX_SAFE + 32
    ensures 1 <= Digits(n) <= 16
  {
    assert Power(4) == 10000;
    PowerSquare(4, 4);
    PowerSquare(8, 8);
    DigitsBound(n, 16);
  }

  lemma {:induction false} PowerSquare(a: nat, b: nat)
    ensures Power(a + b) == Power(a) * Power(b)
  {
    if a > 0 {
      PowerSquare(a - 1, b);
      assert Power(a + b) == 10 * Power(a - 1 + b);
    }
  }
}
