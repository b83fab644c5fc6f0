/** The price printer: an `int64` number of cents as a decimal string with two fraction digits. */
module Money {
  import opened Prelude

  predicate IsDigit(c: char) {
    '0' <= c <= '9'
  }

  predicate AllDigits(s: string) {
    forall i :: 0 <= i < |s| ==> IsDigit(s[i])
  }

  function DigitChar(d: nat): char
    requires d < 10
  {
    ('0' as int + d) as char
  }

  /** Decimal digits of a number, without leading zeros. */
  function Digits(n: nat): (s: string)
    ensures s != "" && AllDigits(s)
  {
    if n < 10 then [DigitChar(n)] else Digits(n / 10) + [DigitChar(n % 10)]
  }

  /** Go's `%d`. */
  function PrintInt(x: int): string {
    if x < 0 then "-" + Digits(-x) else Digits(x)
  }

  /** Go's `%02d`: padded with zeros after the sign to a width of two, which counts the sign. */
  function PrintPadded(x: int): string {
    if x < 0 then PrintInt(x) else if x < 10 then "0" + Digits(x) else Digits(x)
  }

  /** Go's `/` and `%` truncate toward zero. */
  function Quo(x: int, y: nat): int
    requires y > 0
  {
    if x < 0 then -((-x) / y) else x / y
  }

  function Rem(x: int, y: nat): int
    requires y > 0
  {
    x - Quo(x, y) * y
  }

  function FormatCents(cents: Int64): string {
    var sign := if cents < 0 then "-" else "";
    var magnitude := if cents < 0 then Wrap64(-(cents as int)) else cents;
    sign + PrintInt(Quo(magnitude, 100)) + "." + PrintPadded(Rem(magnitude, 100))
  }

  // ----- The API's pattern, `^-?\d+(\.\d{2})$`, and what a price string means -----

  function Unsigned(s: string): string {
    if s != "" && s[0] == '-' then s[1..] else s
  }

  predicate Accepted(s: string) {
    var u := Unsigned(s);
    && |u| >= 4
    && AllDigits(u[..|u| - 3])
    && u[|u| - 3] == '.'
    && AllDigits(u[|u| - 2..])
  }

  function DigitValue(c: char): int {
    c as int - '0' as int
  }

  function Value(s: string): int {
    if s == "" then 0 else Value(s[..|s| - 1]) * 10 + DigitValue(s[|s| - 1])
  }

  function Cents(s: string): int
    requires Accepted(s)
  {
    var u := Unsigned(s);
    var n := Value(u[..|u| - 3]) * 100 + Value(u[|u| - 2..]);
    if s != "" && s[0] == '-' then -n else n
  }

  // ----- Printing and reading back -----

  lemma {:induction false} ValueOfDigits(n: nat)
    ensures Value(Digits(n)) == n
  {
    if n >= 10 {
      ValueOfDigits(n / 10);
      assert Digits(n)[..|Digits(n)| - 1] == Digits(n / 10);
    } else {
      assert Digits(n)[..0] == "";
    }
  }

  lemma PaddedIsTwoDigits(n: nat)
    requires n < 100
    ensures |PrintPadded(n)| == 2 && AllDigits(PrintPadded(n)) && Value(PrintPadded(n)) == n
  {
    var s := PrintPadded(n);
    if n < 10 {
      assert s == [ '0', DigitChar(n) ];
    } else {
      assert Digits(n / 10) == [DigitChar(n / 10)];
      assert s == [DigitChar(n / 10), DigitChar(n % 10)];
    }
    assert s[..1] == [s[0]] && s[..1][..0] == "";
    assert Value(s[..1]) == DigitValue(s[0]);
  }

  lemma UnsignedParts(whole: string, fraction: string)
    requires whole != "" && AllDigits(whole) && |fraction| == 2 && AllDigits(fraction)
    ensures var u := whole + "." + fraction;
            && Accepted(u) && Cents(u) == Value(whole) * 100 + Value(fraction)
            && Accepted("-" + u) && Cents("-" + u) == -(Value(whole) * 100 + Value(fraction))
  {
    var u := whole + "." + fraction;
    assert u[0] == whole[0] && IsDigit(whole[0]);
    assert u[..|u| - 3] == whole && u[|u| - 2..] == fraction && u[|u| - 3] == '.';
    assert Unsigned(u) == u;
    assert ("-" + u)[0] == '-' && Unsigned("-" + u) == u;
  }

  /** The printed form: a sign, the whole units and the two fraction digits of the magnitude. */
  lemma FormatParts(cents: Int64)
    requires cents != INT64_MIN
    ensures var n: nat := if cents < 0 then -(cents as int) else cents as int;
            var body := Digits(n / 100) + "." + PrintPadded(n % 100);
            FormatCents(cents) == if cents < 0 then "-" + body else body
  {
    var n: nat := if cents < 0 then -(cents as int) else cents as int;
    var body := Digits(n / 100) + "." + PrintPadded(n % 100);
    assert Quo(n, 100) == n / 100 && Rem(n, 100) == n % 100;
    assert PrintInt(n / 100) == Digits(n / 100);
    assert "" + Digits(n / 100) + "." + PrintPadded(n % 100) == body;
    assert "-" + Digits(n / 100) + "." + PrintPadded(n % 100) == "-" + body;
  }

  /**
   Except for the smallest `int64`, a printed price is accepted by the API's pattern and reads
   back as the same cents.
   */
  lemma PrintedPriceReadsBack(cents: Int64)
    requires cents != INT64_MIN
    ensures Accepted(FormatCents(cents)) && Cents(FormatCents(cents)) == cents
  {
    var n: nat := if cents < 0 then -(cents as int) else cents as int;
    PaddedIsTwoDigits(n % 100);
    ValueOfDigits(n / 100);
    UnsignedParts(Digits(n / 100), PrintPadded(n % 100));
    FormatParts(cents);
  }

  /** The smallest `int64` is its own negation, so its magnitude prints with a second minus sign. */
  lemma SmallestPriceIsRefused()
    ensures !Accepted(FormatCents(INT64_MIN))
  {
    var m := Wrap64(-INT64_MIN);
    assert m == INT64_MIN by {
      var k: int :| m == -INT64_MIN + k * TWO_TO_64;
    }
    var whole, rest := Quo(m, 100), PrintPadded(Rem(m, 100));
    assert PrintInt(whole) == "-" + Digits(-whole);
    assert FormatCents(INT64_MIN) == "-" + ("-" + (Digits(-whole) + ("." + rest)));
    TwoSignsAreRefused(Digits(-whole) + ("." + rest));
  }

  lemma TwoSignsAreRefused(s: string)
    ensures !Accepted("-" + ("-" + s))
  {
    var u := "-" + s;
    assert Unsigned("-" + u) == u && u[0] == '-';
    if |u| >= 4 {
      assert u[..|u| - 3][0] == '-';
    }
  }

  /** The pattern accepts exactly the printed prices of all other numbers. */
  lemma AcceptedExactly(cents: Int64)
    ensures Accepted(FormatCents(cents)) <==> cents != INT64_MIN
  {
    if cents == INT64_MIN {
      SmallestPriceIsRefused();
    } else {
      PrintedPriceReadsBack(cents);
    }
  }

  /** Different prices never print alike, the smallest included. */
  lemma PrintingIsInjective(a: Int64, b: Int64)
    requires FormatCents(a) == FormatCents(b)
    ensures a == b
  {
    AcceptedExactly(a);
    AcceptedExactly(b);
    if a != INT64_MIN {
      PrintedPriceReadsBack(a);
      PrintedPriceReadsBack(b);
    }
  }

  lemma {:induction false} NoLeadingZero(n: nat)
    ensures |Digits(n)| > 1 ==> Digits(n)[0] != '0'
  {
    if n >= 10 {
      NoLeadingZero(n / 10);
      assert Digits(n)[0] == Digits(n / 10)[0];
    }
  }

  /** A printed price has a minus sign exactly when it is negative, and no superfluous zero in front. */
  lemma PrintedPriceIsCanonical(cents: Int64)
    requires cents != INT64_MIN
    ensures var s := FormatCents(cents);
            && (s[0] == '-' <==> cents < 0)
            && var u := if cents < 0 then s[1..] else s;
               |u| >= 4 && u[|u| - 3] == '.' && (u[0] == '0' ==> |u| == 4)
  {
    var n: nat := if cents < 0 then -(cents as int) else cents as int;
    FormatParts(cents);
    PaddedIsTwoDigits(n % 100);
    NoLeadingZero(n / 100);
    var body := Digits(n / 100) + "." + PrintPadded(n % 100);
    assert body[0] == Digits(n / 100)[0] && IsDigit(body[0]);
    assert ("-" + body)[1..] == body;
  }
}
