/**
 * The money text of the standalone register page (script.js): the pt-BR
 * currency formatter the keypad writes into the received field, and the
 * parse the finalize button applies to that field.
 */
module LegacyMoney {
  import opened Wrappers
  import opened Text

  /** The no-break space the pt-BR formatter puts after the currency sign. */
  const NBSP: char := 0xA0 as char
  const CURRENCY_SIGN: string := ['R', '$', NBSP]

  function DigitChar(d: nat): (c: char)
    requires d < 10
    ensures IsDigit(c) && c as int - '0' as int == d
  {
    ('0' as int + d) as char
  }

  /** The decimal digits of `n`, without leading zeros. */
  function NatText(n: nat): (s: string)
    ensures |s| >= 1 && AllDigits(s) && DigitsValue(s) == n
    decreases n
  {
    if n < 10 then [DigitChar(n)]
    else
      var s := NatText(n / 10) + [DigitChar(n % 10)];
      assert s[..|s| - 1] == NatText(n / 10);
      s
  }

  /** `m` written with exactly `w` digits, zero-padded on the left. */
  function FixedDigits(m: nat, w: nat): (s: string)
    requires m < Pow10(w)
    ensures |s| == w && AllDigits(s) && DigitsValue(s) == m
  {
    if w == 0 then []
    else
      var s := FixedDigits(m / 10, w - 1) + [DigitChar(m % 10)];
      assert s[..|s| - 1] == FixedDigits(m / 10, w - 1);
      s
  }

  /** The integer part as pt-BR writes it: groups of three digits separated by '.'. */
  function Grouped(n: nat): (s: string)
    ensures |s| >= 1
    ensures forall i :: 0 <= i < |s| ==> IsDigit(s[i]) || s[i] == '.'
    ensures n < 1000 ==> s == NatText(n)
  {
    if n < 1000 then NatText(n)
    else Grouped(n / 1000) + "." + FixedDigits(n % 1000, 3)
  }

  /** `fmt.format(cents / 100)` with the pt-BR BRL formatter: "R$", a no-break space, the grouped integer part, ',' and two digits. */
  function FormatBRL(cents: nat): (s: string)
    ensures FirstComma(s) < |s|
    ensures s[..FirstComma(s)] == CURRENCY_SIGN + Grouped(cents / 100)
    ensures s[FirstComma(s) + 1..] == FixedDigits(cents % 100, 2)
  {
    var g := Grouped(cents / 100);
    var s := CURRENCY_SIGN + g + "," + FixedDigits(cents % 100, 2);
    var k := |CURRENCY_SIGN| + |g|;
    forall i | 0 <= i < k ensures s[i] != ',' {
      if i >= |CURRENCY_SIGN| {
        assert s[i] == g[i - |CURRENCY_SIGN|];
      }
    }
    FirstCommaUnique(s, k);
    assert s[..k] == CURRENCY_SIGN + g;
    assert s[k + 1..] == FixedDigits(cents % 100, 2);
    s
  }

  /** The digits of `s`, every other character dropped. */
  function OnlyDigits(s: string): (r: string)
    ensures AllDigits(r) && |r| <= |s|
  {
    if s == [] then [] else (if IsDigit(s[0]) then [s[0]] else []) + OnlyDigits(s[1..])
  }

  lemma {:induction false} OnlyDigitsAppend(a: string, b: string)
    ensures OnlyDigits(a + b) == OnlyDigits(a) + OnlyDigits(b)
  {
    if a == [] {
      assert a + b == b;
    } else {
      assert (a + b)[0] == a[0] && (a + b)[1..] == a[1..] + b;
      OnlyDigitsAppend(a[1..], b);
    }
  }

  lemma {:induction false} OnlyDigitsOfDigits(s: string)
    requires AllDigits(s)
    ensures OnlyDigits(s) == s
  {
    if s != [] {
      OnlyDigitsOfDigits(s[1..]);
      assert s == [s[0]] + s[1..];
    }
  }

  /** Text without a digit, ',', '-' or '.' leaves nothing behind either filter. */
  lemma {:induction false} NothingKept(s: string)
    requires forall i :: 0 <= i < |s| ==> !Kept(s[i])
    ensures OnlyDigits(s) == [] && Sanitized(s) == []
  {
    if s != [] {
      assert !Kept(s[0]);
      NothingKept(s[1..]);
    }
  }

  /** Reading digits after digits: the first run shifts left by the length of the second. */
  lemma {:induction false} DigitsValueAppend(a: string, b: string)
    requires AllDigits(a) && AllDigits(b)
    ensures DigitsValue(a + b) == DigitsValue(a) * Pow10(|b|) + DigitsValue(b)
    decreases |b|
  {
    assert AllDigits(a + b) by {
      forall i | 0 <= i < |a + b| ensures IsDigit((a + b)[i]) {
        if i >= |a| {
          assert (a + b)[i] == b[i - |a|];
        }
      }
    }
    if b == [] {
      assert a + b == a;
    } else {
      var init := b[..|b| - 1];
      var d := (b[|b| - 1] as int) - ('0' as int);
      assert (a + b)[..|a + b| - 1] == a + init;
      assert (a + b)[|a + b| - 1] == b[|b| - 1];
      DigitsValueAppend(a, init);
      var x, y, p := DigitsValue(a), DigitsValue(init), Pow10(|init|);
      assert DigitsValue(a + b) == (x * p + y) * 10 + d;
      assert DigitsValue(b) == y * 10 + d;
      assert Pow10(|b|) == p * 10;
      ShiftDigit(x, p, y);
    }
  }

  lemma ShiftDigit(x: nat, p: nat, y: nat)
    ensures (x * p + y) * 10 == x * (p * 10) + y * 10
  {
    assert (x * p) * 10 == x * (p * 10);
  }

  /** Dropping the separators from a grouped integer part gives back its value. */
  lemma {:induction false} GroupedValue(n: nat)
    ensures DigitsValue(OnlyDigits(Grouped(n))) == n
    decreases n
  {
    if n < 1000 {
      OnlyDigitsOfDigits(NatText(n));
    } else {
      var g, p := Grouped(n / 1000), FixedDigits(n % 1000, 3);
      assert Grouped(n) == (g + ".") + p;
      OnlyDigitsAppend(g + ".", p);
      OnlyDigitsAppend(g, ".");
      assert OnlyDigits(".") == [] by {
        assert "."[1..] == [];
      }
      OnlyDigitsOfDigits(p);
      assert OnlyDigits(Grouped(n)) == OnlyDigits(g) + p;
      GroupedValue(n / 1000);
      DigitsValueAppend(OnlyDigits(g), p);
      assert Pow10(3) == 1000 by {
        assert Pow10(1) == 10 && Pow10(2) == 100;
      }
      assert n == (n / 1000) * 1000 + n % 1000;
    }
  }

  /**
   * The received amount read from the field as pt-BR currency text: '.'
   * separates thousands, the first ',' starts the cents, every other
   * character is ignored.
   */
  function ParseReceived(t: string): (v: real)
    ensures v >= 0.0
  {
    var k := FirstComma(t);
    var whole := OnlyDigits(t[..k]);
    var frac := if k < |t| then OnlyDigits(t[k + 1..]) else [];
    DigitsValue(whole) as real + Fraction(frac)
  }

  /** Digits read after a decimal point: "05" is 0.05. */
  function Fraction(s: string): (v: real)
    requires AllDigits(s)
    ensures 0.0 <= v < 1.0
  {
    if s == [] then 0.0
    else
      var n, p := DigitsValue(s) as real, Pow10(|s|) as real;
      assert 0.0 <= n < p;
      var v := n / p;
      assert (p - n) / p > 0.0;
      assert p / p == 1.0;
      assert v + (p - n) / p == p / p;
      v
  }

  /** Reading back what the formatter writes gives the amount it was given. */
  lemma ReceivedRoundTrip(cents: nat)
    ensures ParseReceived(FormatBRL(cents)) == cents as real / 100.0
  {
    var n, c := cents / 100, cents % 100;
    var t := FormatBRL(cents);
    FormatWhole(cents);
    GroupedValue(n);
    FormatCents(cents);
    assert ParseReceived(t) == n as real + c as real / 100.0;
    assert cents == 100 * n + c;
  }

  /** The digits after the formatter's comma read as the cents. */
  lemma FormatCents(cents: nat)
    ensures var t := FormatBRL(cents);
      Fraction(OnlyDigits(t[FirstComma(t) + 1..])) == (cents % 100) as real / 100.0
  {
    var t := FormatBRL(cents);
    var frac := FixedDigits(cents % 100, 2);
    assert t[FirstComma(t) + 1..] == frac;
    OnlyDigitsOfDigits(frac);
    CentsFraction(frac);
  }

  lemma CentsFraction(d: string)
    requires |d| == 2 && AllDigits(d)
    ensures Fraction(d) == DigitsValue(d) as real / 100.0
  {
    assert Pow10(|d|) == 100 by {
      assert Pow10(1) == 10;
    }
  }

  /** The digits before the formatter's comma are those of the grouped integer part. */
  lemma FormatWhole(cents: nat)
    ensures var t := FormatBRL(cents);
      OnlyDigits(t[..FirstComma(t)]) == OnlyDigits(Grouped(cents / 100))
  {
    var t := FormatBRL(cents);
    var g := Grouped(cents / 100);
    assert t[..FirstComma(t)] == CURRENCY_SIGN + g;
    OnlyDigitsAppend(CURRENCY_SIGN, g);
    NothingKept(CURRENCY_SIGN);
    assert OnlyDigits(CURRENCY_SIGN + g) == [] + OnlyDigits(g);
  }

  /** The characters `/[^0-9,-\.]/g` keeps: digits and the range ',' to '.', that is ',', '-' and '.'. */
  predicate Kept(c: char) {
    IsDigit(c) || (',' <= c <= '.')
  }

  /** `v.replace(/[^0-9,-\.]/g, '')`. */
  function Sanitized(t: string): (r: string)
    ensures |r| <= |t| && forall i :: 0 <= i < |r| ==> Kept(r[i])
  {
    if t == [] then [] else (if Kept(t[0]) then [t[0]] else []) + Sanitized(t[1..])
  }

  lemma {:induction false} SanitizedAppend(a: string, b: string)
    ensures Sanitized(a + b) == Sanitized(a) + Sanitized(b)
  {
    if a == [] {
      assert a + b == b;
    } else {
      assert (a + b)[0] == a[0] && (a + b)[1..] == a[1..] + b;
      SanitizedAppend(a[1..], b);
    }
  }

  lemma {:induction false} SanitizedOfDigits(s: string)
    requires AllDigits(s)
    ensures Sanitized(s) == s
  {
    if s != [] {
      SanitizedOfDigits(s[1..]);
      assert s == [s[0]] + s[1..];
    }
  }

  /** How many decimal digits `s` starts with. */
  function LeadingDigits(s: string): (n: nat)
    ensures n <= |s| && AllDigits(s[..n])
    ensures n < |s| ==> !IsDigit(s[n])
  {
    if s != [] && IsDigit(s[0]) then
      var n := 1 + LeadingDigits(s[1..]);
      assert forall i :: 1 <= i < n ==> s[..n][i] == s[1..][..n - 1][i - 1];
      n
    else 0
  }

  /**
   * `parseFloat` on text without white space, exponent or letters: an
   * optional '-', digits, optionally '.' and more digits; the longest such
   * prefix is read and the rest ignored. None is NaN: no digit was found.
   */
  function ParseFloatPrefix(s: string): (r: Option<real>)
    ensures r.Some? && (s == [] || s[0] != '-') ==> r.value >= 0.0
  {
    var neg := s != [] && s[0] == '-';
    var u := if neg then s[1..] else s;
    var i := LeadingDigits(u);
    var rest := u[i..];
    var f := if rest != [] && rest[0] == '.' then LeadingDigits(rest[1..]) else 0;
    var frac := if f > 0 then rest[1..][..f] else [];
    if i == 0 && f == 0 then None
    else
      var v := DigitsValue(u[..i]) as real + Fraction(frac);
      Some(if neg then -v else v)
  }

  /** `parseFloat(v.replace(/[^0-9,-\.]/g, '')) || 0`, the received amount as the finalize button reads it. */
  function ReceivedAsWritten(t: string): real {
    ParseFloatPrefix(Sanitized(t)).GetOr(0.0)
  }

  /** `parseFloat` stops at a ',': digits followed by a comma read as those digits alone. */
  lemma ParseFloatStopsAtComma(w: string, rest: string)
    requires |w| >= 1 && AllDigits(w)
    requires rest != [] && rest[0] == ','
    ensures ParseFloatPrefix(w + rest) == Some(DigitsValue(w) as real)
  {
    var s := w + rest;
    assert s[0] == w[0] && s[|w|] == ',';
    assert s[..|w|] == w && s[|w|..] == rest;
    LeadingDigitsOfRun(s, |w|);
    assert s != [] && s[0] != '-';
    assert rest[0] != '.';
  }

  /** A run of `n` digits followed by a non-digit is read as exactly those `n` digits. */
  lemma {:induction false} LeadingDigitsOfRun(s: string, n: nat)
    requires n <= |s| && AllDigits(s[..n]) && (n < |s| ==> !IsDigit(s[n]))
    ensures LeadingDigits(s) == n
  {
    if n > 0 {
      assert s[0] == s[..n][0];
      assert s[1..][..n - 1] == s[..n][1..];
      LeadingDigitsOfRun(s[1..], n - 1);
    }
  }

  /** Below R$ 1.000,00 the sanitized field is the reais, a comma and the cents. */
  lemma SanitizedFormat(cents: nat)
    requires cents < 100000
    ensures Sanitized(FormatBRL(cents)) == NatText(cents / 100) + ("," + FixedDigits(cents % 100, 2))
  {
    var w, d := NatText(cents / 100), FixedDigits(cents % 100, 2);
    assert FormatBRL(cents) == CURRENCY_SIGN + (w + ("," + d));
    SanitizedAppend(CURRENCY_SIGN, w + ("," + d));
    NothingKept(CURRENCY_SIGN);
    SanitizedAppend(w, "," + d);
    SanitizedOfDigits(w);
    SanitizedOfDigits(d);
    assert ("," + d)[0] == ',' && ("," + d)[1..] == d;
    assert Sanitized("," + d) == "," + d;
  }

  /**
   * As written, the cents of an amount the formatter wrote are dropped: below
   * R$ 1.000,00 the comma stops `parseFloat`, which reads the whole reais only,
   * so any amount with cents reads as less than it is.
   */
  lemma ReceivedAsWrittenDropsCents(cents: nat)
    requires cents < 100000
    ensures ReceivedAsWritten(FormatBRL(cents)) == (cents / 100) as real
    ensures cents % 100 != 0 ==> ReceivedAsWritten(FormatBRL(cents)) < ParseReceived(FormatBRL(cents))
  {
    var w := NatText(cents / 100);
    SanitizedFormat(cents);
    ParseFloatStopsAtComma(w, "," + FixedDigits(cents % 100, 2));
    ReceivedRoundTrip(cents);
    assert cents == 100 * (cents / 100) + cents % 100;
  }
}
