/** Decimal text of integers: Kotlin's string template `"$status"` and the en-US form of
    JavaScript's `Number.prototype.toLocaleString()` (thousands grouped with commas),
    with a reader that recovers the number from either form. */
module Numbers {

  function DigitChar(d: nat): (c: char)
    requires d < 10
    ensures '0' <= c <= '9'
  {
    ('0' as int + d) as char
  }

  /** Decimal digits of `n`, most significant first, without leading zeros. */
  function NatText(n: nat): (s: string)
    ensures |s| >= 1
    ensures forall i :: 0 <= i < |s| ==> '0' <= s[i] <= '9'
  {
    if n < 10 then [DigitChar(n)] else NatText(n / 10) + [DigitChar(n % 10)]
  }

  /** Kotlin's `"$n"` for an `Int`. */
  function IntText(n: int): string {
    if n < 0 then "-" + NatText(-n) else NatText(n)
  }

  /** The three digits of a group after a comma, zero-padded. */
  function Group3(r: nat): (s: string)
    requires r < 1000
    ensures |s| == 3
  {
    [DigitChar(r / 100), DigitChar(r / 10 % 10), DigitChar(r % 10)]
  }

  /** en-US grouping of a non-negative integer: "4000" becomes "4,000". */
  function Grouped(n: nat): string
  {
    if n < 1000 then NatText(n) else Grouped(n / 1000) + "," + Group3(n % 1000)
  }

  /** `n.toLocaleString()` in the en-US locale for an integer `n`. */
  function LocaleText(n: int): string {
    if n < 0 then "-" + Grouped(-n) else Grouped(n)
  }

  /** Reads decimal digits, skipping grouping commas. */
  function DigitsValue(s: string): int
    decreases |s|
  {
    if s == [] then 0
    else if s[|s| - 1] == ',' then DigitsValue(s[..|s| - 1])
    else DigitsValue(s[..|s| - 1]) * 10 + (s[|s| - 1] as int - '0' as int)
  }

  /** Reads an optionally signed decimal number. */
  function SignedValue(s: string): int {
    if |s| > 0 && s[0] == '-' then -DigitsValue(s[1..]) else DigitsValue(s)
  }

  /** The characters of `s` other than commas. */
  function WithoutCommas(s: string): (r: string)
    ensures ',' !in r
    decreases |s|
  {
    if s == [] then ""
    else if s[|s| - 1] == ',' then WithoutCommas(s[..|s| - 1])
    else WithoutCommas(s[..|s| - 1]) + [s[|s| - 1]]
  }

  lemma DigitCharValue(d: nat)
    requires d < 10
    ensures DigitChar(d) as int - '0' as int == d
  {
  }

  lemma {:induction false} NatTextRoundTrip(n: nat)
    ensures DigitsValue(NatText(n)) == n
  {
    var s := NatText(n);
    if n < 10 {
      DigitCharValue(n);
      assert s[..0] == "";
    } else {
      NatTextRoundTrip(n / 10);
      DigitCharValue(n % 10);
      assert s[..|s| - 1] == NatText(n / 10);
    }
  }

  lemma IntTextRoundTrip(n: int)
    ensures SignedValue(IntText(n)) == n
  {
    if n < 0 {
      NatTextRoundTrip(-n);
      assert IntText(n)[1..] == NatText(-n);
    } else {
      NatTextRoundTrip(n);
    }
  }

  /** Reading a digit string with one more character appended. */
  lemma DigitsValueSnoc(s: string, c: char)
    ensures DigitsValue(s + [c]) ==
      if c == ',' then DigitsValue(s) else DigitsValue(s) * 10 + (c as int - '0' as int)
  {
    assert (s + [c])[..|s + [c]| - 1] == s;
  }

  /** Reading a digit string followed by a comma and a three-digit group. */
  lemma DigitsValueGroup(s: string, r: nat)
    requires r < 1000
    ensures DigitsValue(s + "," + Group3(r)) == DigitsValue(s) * 1000 + r
  {
    var a, b, c := DigitChar(r / 100), DigitChar(r / 10 % 10), DigitChar(r % 10);
    DigitsValueSnoc(s, ',');
    DigitsValueSnoc(s + ",", a);
    DigitsValueSnoc(s + "," + [a], b);
    DigitsValueSnoc(s + "," + [a] + [b], c);
    assert s + "," + Group3(r) == s + "," + [a] + [b] + [c];
  }

  lemma {:induction false} GroupedRoundTrip(n: nat)
    ensures DigitsValue(Grouped(n)) == n
  {
    if n < 1000 {
      NatTextRoundTrip(n);
    } else {
      GroupedRoundTrip(n / 1000);
      DigitsValueGroup(Grouped(n / 1000), n % 1000);
    }
  }

  /** The locale text reads back as the number it was made from. */
  lemma LocaleTextRoundTrip(n: int)
    ensures SignedValue(LocaleText(n)) == n
  {
    if n < 0 {
      GroupedRoundTrip(-n);
      assert LocaleText(n)[1..] == Grouped(-n);
    } else {
      GroupedRoundTrip(n);
      if |Grouped(n)| > 0 && Grouped(n)[0] == '-' {
        GroupedStartsWithDigit(n);
      }
    }
  }

  /** A grouped number starts with a digit (so it cannot be read as negative). */
  lemma {:induction false} GroupedStartsWithDigit(n: nat)
    ensures |Grouped(n)| > 0 && '0' <= Grouped(n)[0] <= '9'
  {
    if n >= 1000 {
      GroupedStartsWithDigit(n / 1000);
    }
  }

  lemma WithoutCommasAppend(a: string, b: string)
    ensures WithoutCommas(a + b) == WithoutCommas(a) + WithoutCommas(b)
    decreases |b|
  {
    if b == [] {
      assert a + b == a;
    } else {
      var b' := b[..|b| - 1];
      WithoutCommasAppend(a, b');
      assert (a + b)[..|a + b| - 1] == a + b';
    }
  }

  lemma {:induction false} WithoutCommasOfDigits(s: string)
    requires forall i :: 0 <= i < |s| ==> '0' <= s[i] <= '9'
    ensures WithoutCommas(s) == s
    decreases |s|
  {
    if s != [] {
      WithoutCommasOfDigits(s[..|s| - 1]);
      assert s[..|s| - 1] + [s[|s| - 1]] == s;
    }
  }

  /** The last three decimal digits of `n >= 1000` are those of `n % 1000`. */
  lemma ThousandsDigits(n: nat)
    requires n >= 1000
    ensures n / 10 >= 100 && n / 10 / 10 >= 10 && n / 10 / 10 / 10 == n / 1000
    ensures n % 10 == n % 1000 % 10
    ensures n / 10 % 10 == n % 1000 / 10 % 10
    ensures n / 10 / 10 % 10 == n % 1000 / 100
  {
    var q, r := n / 1000, n % 1000;
    assert n == 1000 * q + r;
    var n1 := n / 10;
    assert n1 == 100 * q + r / 10;
    var n2 := n1 / 10;
    assert n2 == 10 * q + r / 100;
  }

  /** The digits of `n >= 1000` are those of `n / 1000` followed by the three of `n % 1000`. */
  lemma NatTextSplitsAtThousands(n: nat)
    requires n >= 1000
    ensures NatText(n) == NatText(n / 1000) + Group3(n % 1000)
  {
    ThousandsDigits(n);
    var n1, n2, r := n / 10, n / 10 / 10, n % 1000;
    assert NatText(n) == NatText(n1) + [DigitChar(r % 10)];
    assert NatText(n1) == NatText(n2) + [DigitChar(r / 10 % 10)];
    assert NatText(n2) == NatText(n / 1000) + [DigitChar(r / 100)];
  }

  /** Grouping only inserts commas: removing them gives the plain decimal digits. */
  lemma {:induction false} GroupedOnlyAddsCommas(n: nat)
    ensures WithoutCommas(Grouped(n)) == NatText(n)
  {
    if n < 1000 {
      WithoutCommasOfDigits(NatText(n));
    } else {
      var q := n / 1000;
      var g, g3 := Grouped(q), Group3(n % 1000);
      calc {
        WithoutCommas(Grouped(n));
        WithoutCommas((g + ",") + g3);
        { WithoutCommasAppend(g + ",", g3); }
        WithoutCommas(g + ",") + WithoutCommas(g3);
        { WithoutCommasAppend(g, ","); WithoutCommasOfDigits(g3); }
        WithoutCommas(g) + WithoutCommas(",") + g3;
        { assert ","[..0] == ""; GroupedOnlyAddsCommas(q); }
        NatText(q) + g3;
        { NatTextSplitsAtThousands(n); }
        NatText(n);
      }
    }
  }
}
