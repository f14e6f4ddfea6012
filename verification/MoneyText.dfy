/** platform_/kernel/money.py: decimal strings to exact minor units and back. */
module MoneyText {
  import opened Kernel

  predicate IsDigit(c: char) { '0' <= c <= '9' }

  predicate AllDigits(s: string) { forall i :: 0 <= i < |s| ==> IsDigit(s[i]) }

  function Pow10(n: nat): nat
    ensures Pow10(n) >= 1
  {
    if n == 0 then 1 else 10 * Pow10(n - 1)
  }

  /** `int(s)` on ASCII digits; the empty string stands for the `"0"` the source substitutes. */
  function Number(s: string): nat
    requires AllDigits(s)
  {
    if s == [] then 0 else 10 * Number(s[..|s| - 1]) + (s[|s| - 1] as int - '0' as int)
  }

  function Digit(d: nat): char
    requires d < 10
  {
    ('0' as int + d) as char
  }

  /** Decimal notation without leading zeros. */
  function Decimal(n: nat): string {
    if n < 10 then [Digit(n)] else Decimal(n / 10) + [Digit(n % 10)]
  }

  /** Exactly `width` digits. */
  function Fixed(n: nat, width: nat): string {
    if width == 0 then [] else Fixed(n / 10, width - 1) + [Digit(n % 10)]
  }

  function IndexOf(s: string, c: char): nat {
    if s == [] then 0 else if s[0] == c then 0 else 1 + IndexOf(s[1..], c)
  }

  /** Python's `$` also matches before one final newline, so the pattern accepts one. */
  function WithoutNewline(raw: string): string {
    if raw != [] && raw[|raw| - 1] == '\n' then raw[..|raw| - 1] else raw
  }

  function Zeros(n: nat): string { seq(n, _ => '0') }

  /** `str.ljust(width, "0")`. */
  function PadRight(s: string, width: nat): string {
    if |s| < width then s + Zeros(width - |s|) else s
  }

  const MAJOR_DIGITS: nat := 12
  const MINOR_DIGITS: nat := 2

  /** The grammar: one to twelve digits, optionally a point and one or two more. */
  predicate Matches(body: string) {
    var dot := IndexOf(body, '.');
    && dot <= |body|
    && 1 <= dot <= MAJOR_DIGITS && AllDigits(body[..dot])
    && (dot < |body| ==> 1 <= |body| - dot - 1 <= MINOR_DIGITS && AllDigits(body[dot + 1..]))
  }

  function Fraction(body: string): string
    requires Matches(body)
    ensures AllDigits(Fraction(body)) && |Fraction(body)| <= MINOR_DIGITS
  {
    var dot := IndexOf(body, '.');
    if dot < |body| then body[dot + 1..] else []
  }

  /** `from_decimal_string`. */
  function Parse(raw: string, exponent: nat): Result<nat> {
    var body := WithoutNewline(raw);
    if !Matches(body) then Err(InvalidAmount)
    else if |Fraction(body)| > exponent then Err(InvalidAmount)
    else
      Ok(Number(body[..IndexOf(body, '.')]) * Pow10(exponent) + Number(PadRight(Fraction(body), exponent)))
  }

  function Whole(n: nat, unit: nat): nat
    requires unit >= 1
  {
    n / unit
  }

  function Part(n: nat, unit: nat): nat
    requires unit >= 1
  {
    n % unit
  }

  function Magnitude(minor: int): nat { if minor < 0 then -minor else minor }

  /** `to_decimal_string`. */
  function Print(minor: int, exponent: nat): string {
    var sign := if minor < 0 then "-" else "";
    var magnitude, unit := Magnitude(minor), Pow10(exponent);
    if exponent == 0 then sign + Decimal(magnitude)
    else sign + Decimal(Whole(magnitude, unit)) + "." + Fixed(Part(magnitude, unit), exponent)
  }

  // -- numbers and digits ---------------------------------------------------

  lemma {:induction false} DecimalReads(n: nat)
    ensures AllDigits(Decimal(n)) && Number(Decimal(n)) == n && |Decimal(n)| >= 1
  {
    if n < 10 {
      assert Decimal(n)[..0] == [];
    } else {
      DecimalReads(n / 10);
      assert Decimal(n)[..|Decimal(n)| - 1] == Decimal(n / 10);
    }
  }

  /** The number of digits is governed by powers of ten. */
  lemma {:induction false} DecimalLength(n: nat, k: nat)
    requires k >= 1
    ensures |Decimal(n)| <= k <==> n < Pow10(k)
  {
    if n < 10 {
      assert Pow10(k) == 10 * Pow10(k - 1);
    } else if k == 1 {
      assert Pow10(1) == 10 * Pow10(0);
      DecimalReads(n / 10);
    } else {
      DecimalLength(n / 10, k - 1);
    }
  }

  lemma {:induction false} FixedReads(n: nat, width: nat)
    ensures AllDigits(Fixed(n, width)) && |Fixed(n, width)| == width
    ensures n < Pow10(width) ==> Number(Fixed(n, width)) == n
  {
    if width > 0 {
      FixedReads(n / 10, width - 1);
      var front, s := Fixed(n / 10, width - 1), Fixed(n, width);
      assert s == front + [Digit(n % 10)] && s[..width - 1] == front;
      assert AllDigits(s);
      assert n < Pow10(width) ==> n / 10 < Pow10(width - 1);
    }
  }

  lemma {:induction false} NumberBelow(s: string)
    requires AllDigits(s)
    ensures Number(s) < Pow10(|s|)
  {
    if s != [] {
      NumberBelow(s[..|s| - 1]);
    }
  }

  lemma {:induction false} IndexOfSeparator(s: string, t: string, c: char)
    requires forall i :: 0 <= i < |s| ==> s[i] != c
    ensures IndexOf(s + [c] + t, c) == |s| && IndexOf(s, c) == |s|
  {
    if s == [] {
      assert s + [c] + t == [c] + t;
    } else {
      IndexOfSeparator(s[1..], t, c);
      assert (s + [c] + t)[1..] == s[1..] + [c] + t;
    }
  }

  lemma {:induction false} IndexOfBound(s: string, c: char)
    ensures IndexOf(s, c) <= |s|
    ensures IndexOf(s, c) < |s| ==> s[IndexOf(s, c)] == c
  {
    if s != [] && s[0] != c {
      IndexOfBound(s[1..], c);
    }
  }

  // -- round trip -----------------------------------------------------------

  /** The amounts the textual form can carry. */
  predicate Printable(minor: int, exponent: nat) {
    exponent <= 2 && 0 <= minor && Whole(minor, Pow10(exponent)) < 1_000_000_000_000
  }

  lemma TwelveDigits()
    ensures Pow10(MAJOR_DIGITS) == 1_000_000_000_000
  {
    assert Pow10(3) == 1_000 by { assert Pow10(2) == 100 by { assert Pow10(1) == 10 * Pow10(0); } }
    assert Pow10(6) == 1_000_000 by { assert Pow10(5) == 100_000 by { assert Pow10(4) == 10_000; } }
    assert Pow10(9) == 1_000_000_000 by { assert Pow10(8) == 100_000_000 by { assert Pow10(7) == 10_000_000; } }
    assert Pow10(12) == 1_000_000_000_000 by { assert Pow10(11) == 100_000_000_000 by { assert Pow10(10)
        == 10_000_000_000; } }
  }

  lemma NoNewline(s: string)
    requires s != [] && IsDigit(s[|s| - 1])
    ensures WithoutNewline(s) == s
  {
  }

  lemma PrintWhole(minor: nat)
    ensures Parse(Print(minor, 0), 0) == if minor < Pow10(MAJOR_DIGITS) then Ok(minor) else Err(InvalidAmount)
  {
    hide Pow10, Decimal, Number;
    var s := Decimal(minor);
    DecimalReads(minor);
    DecimalLength(minor, MAJOR_DIGITS);
    assert "" + s == s;
    NoNewline(s);
    IndexOfSeparator(s, [], '.');
    assert s[..|s|] == s;
    assert Pow10(0) == 1 by { Tens(); }
    assert Number([]) == 0 by { Tens(); }
  }

  lemma Tens()
    ensures Pow10(0) == 1 && Number([]) == 0
  {
  }

  lemma PrintFraction(minor: nat, exponent: nat)
    requires exponent > 0
    ensures Parse(Print(minor, exponent), exponent)
         == if exponent <= MINOR_DIGITS && Whole(minor, Pow10(exponent)) < Pow10(MAJOR_DIGITS)
            then Ok(minor) else Err(InvalidAmount)
  {
    hide Pow10, Decimal, Number, Fixed, IndexOf;
    var unit := Pow10(exponent);
    var major, fraction := Decimal(Whole(minor, unit)), Fixed(Part(minor, unit), exponent);
    DecimalReads(Whole(minor, unit));
    DecimalLength(Whole(minor, unit), MAJOR_DIGITS);
    FixedReads(Part(minor, unit), exponent);
    var s := Print(minor, exponent);
    assert s == major + ['.'] + fraction;
    assert s[|s| - 1] == fraction[exponent - 1];
    NoNewline(s);
    IndexOfSeparator(major, fraction, '.');
    assert s[..|major|] == major && s[|major| + 1..] == fraction;
    assert minor == (Whole(minor, unit)) * unit + Part(minor, unit);
  }

  lemma PrintNegative(minor: int, exponent: nat)
    requires minor < 0
    ensures Parse(Print(minor, exponent), exponent) == Err(InvalidAmount)
  {
    hide Pow10, Decimal, Number, Fixed;
    var s := Print(minor, exponent);
    assert s[0] == '-';
    if exponent == 0 { DecimalReads(-minor); } else { DecimalReads(Whole(-minor, Pow10(exponent))); }
    var body := WithoutNewline(s);
    assert body[0] == '-';
    var dot := IndexOf(body, '.');
    assert 1 <= dot <= |body| ==> !IsDigit(body[..dot][0]);
  }

  /** Printing and reading back gives the amount exactly when it is printable, and is refused otherwise. */
  lemma RoundTrip(minor: int, exponent: nat)
    ensures Parse(Print(minor, exponent), exponent)
         == if Printable(minor, exponent) then Ok(minor) else Err(InvalidAmount)
  {
    TwelveDigits();
    if minor < 0 {
      PrintNegative(minor, exponent);
    } else if exponent == 0 {
      PrintWhole(minor);
      assert Whole(minor, Pow10(0)) == minor by { Tens(); }
    } else {
      PrintFraction(minor, exponent);
    }
  }

  lemma PadReads(fraction: string, exponent: nat)
    requires AllDigits(fraction) && |fraction| <= exponent
    ensures AllDigits(PadRight(fraction, exponent)) && Number(PadRight(fraction, exponent)) < Pow10(exponent)
  {
    assert AllDigits(PadRight(fraction, exponent)) && |PadRight(fraction, exponent)| == exponent;
    NumberBelow(PadRight(fraction, exponent));
  }

  lemma QuotientOf(major: nat, minor: nat, unit: nat)
    requires minor < unit
    ensures Whole(major * unit + minor, unit) == major
  {
    var v := major * unit + minor;
    var q := Whole(v, unit);
    assert q * unit <= v < (q + 1) * unit;
    Cancels(major, q + 1, unit);
    assert v < (major + 1) * unit;
    Cancels(q, major + 1, unit);
  }

  /**
   * Any accepted text denotes a printable amount (for the exponents in use), so printing it and reading it back is
   * stable.
   */
  lemma ParseThenPrint(raw: string, exponent: nat)
    requires exponent <= 2 && Parse(raw, exponent).Ok?
    ensures var minor := Parse(raw, exponent).value;
      Printable(minor, exponent) && Parse(Print(minor, exponent), exponent) == Ok(minor)
  {
    TwelveDigits();
    hide Pow10, Number, Print;
    var body := WithoutNewline(raw);
    var dot := IndexOf(body, '.');
    var major, minor := Number(body[..dot]), Number(PadRight(Fraction(body), exponent));
    PadReads(Fraction(body), exponent);
    NumberBelow(body[..dot]);
    PowersGrow(dot, MAJOR_DIGITS);
    QuotientOf(major, minor, Pow10(exponent));
    RoundTrip(major * Pow10(exponent) + minor, exponent);
  }

  lemma {:induction false} PowersGrow(a: nat, b: nat)
    requires a <= b
    ensures Pow10(a) <= Pow10(b)
    decreases b - a
  {
    if a < b {
      PowersGrow(a + 1, b);
    }
  }

  // -- place value ----------------------------------------------------------

  lemma {:induction false} PowersMultiply(a: nat, b: nat)
    ensures Pow10(a + b) == Pow10(a) * Pow10(b)
  {
    if b > 0 {
      PowersMultiply(a, b - 1);
      assert Pow10(a + b) == 10 * Pow10(a + b - 1);
      assert 10 * (Pow10(a) * Pow10(b - 1)) == Pow10(a) * (10 * Pow10(b - 1));
    }
  }

  lemma DigitAppended(s: string, c: char)
    requires AllDigits(s) && IsDigit(c)
    ensures AllDigits(s + [c]) && Number(s + [c]) == 10 * Number(s) + (c as int - '0' as int)
  {
    var t := s + [c];
    assert t[..|t| - 1] == s;
  }

  lemma Shuffles(n: nat, p: nat)
    ensures 10 * (n * p) == n * (10 * p)
  {
  }

  /** Zeros to the right multiply. */
  lemma {:induction false} ZerosMultiply(s: string, k: nat)
    requires AllDigits(s)
    ensures AllDigits(s + Zeros(k)) && Number(s + Zeros(k)) == Number(s) * Pow10(k)
  {
    hide Number;
    if k == 0 {
      assert s + Zeros(0) == s;
    } else {
      ZerosMultiply(s, k - 1);
      DigitAppended(s + Zeros(k - 1), '0');
      assert s + Zeros(k) == s + Zeros(k - 1) + ['0'];
      Shuffles(Number(s), Pow10(k - 1));
    }
  }

  lemma Distributes(w: nat, e: nat, p: nat, f: nat, k: nat)
    requires e == p * k
    ensures (w * e + f * k) * p == (w * p + f) * e
  {
    calc {
      (w * e + f * k) * p;
      w * e * p + f * k * p;
      { assert f * k * p == f * (p * k); }
      w * e * p + f * e;
      { assert w * e * p == w * p * e; }
      (w * p + f) * e;
    }
  }

  /** An accepted text is worth its digits: whole part and fraction read as one number, scaled to minor units. */
  lemma PlaceValue(raw: string, exponent: nat)
    requires Parse(raw, exponent).Ok?
    ensures var body := WithoutNewline(raw);
      var w, f := body[..IndexOf(body, '.')], Fraction(body);
      Parse(raw, exponent).value * Pow10(|f|) == (Number(w) * Pow10(|f|) + Number(f)) * Pow10(exponent)
  {
    hide Pow10, Number;
    var body := WithoutNewline(raw);
    var w, f := body[..IndexOf(body, '.')], Fraction(body);
    var k := exponent - |f|;
    assert PadRight(f, exponent) == f + Zeros(k) by { assert k == 0 ==> f + Zeros(0) == f; }
    ZerosMultiply(f, k);
    PowersMultiply(|f|, k);
    Distributes(Number(w), Pow10(exponent), Pow10(|f|), Number(f), Pow10(k));
  }

  /** A zero more at the end of a fraction changes nothing, as long as both limits leave room for it. */
  lemma TrailingZero(body: string, exponent: nat)
    requires Matches(body) && IndexOf(body, '.') < |body|
    requires |Fraction(body)| < MINOR_DIGITS && |Fraction(body)| < exponent
    ensures Parse(body + "0", exponent) == Parse(body, exponent)
  {
    hide Pow10, Number;
    var longer := body + "0";
    var dot := IndexOf(body, '.');
    EndsInDigit(body);
    NoNewline(body);
    NoNewline(longer);
    IndexOfBound(body, '.');
    IndexKept(body, "0", '.');
    var f := Fraction(body);
    assert longer[..dot] == body[..dot] && longer[dot + 1..] == f + "0";
    assert Matches(longer) && Fraction(longer) == f + "0";
    assert PadRight(f + "0", exponent) == PadRight(f, exponent);
  }

  lemma {:induction false} IndexKept(s: string, t: string, c: char)
    requires IndexOf(s, c) < |s|
    ensures IndexOf(s + t, c) == IndexOf(s, c)
  {
    if s[0] != c {
      IndexKept(s[1..], t, c);
      assert (s + t)[1..] == s[1..] + t;
    }
  }

  /** For instance "1.5" is 150 and prints as "1.50". */
  lemma HalfExample()
    ensures Parse("1.5", 2) == Ok(150) && Print(150, 2) == "1.50"
  {
    hide Number, Parse, Fixed, Pow10, Decimal;
    Reads("1", "5", "50");
    Numerals();
    assert "1" + ['.'] + "5" == "1.5";
    assert "" + "1" + "." + "50" == "1.50";
  }

  /** And "0.07" is 7 and prints as "0.07". */
  lemma SevenExample()
    ensures Parse("0.07", 2) == Ok(7) && Print(7, 2) == "0.07"
  {
    hide Number, Parse, Fixed, Pow10, Decimal;
    Reads("0", "07", "07");
    Numerals();
    assert "0" + ['.'] + "07" == "0.07";
    assert "" + "0" + "." + "07" == "0.07";
  }

  lemma Numerals()
    ensures Pow10(2) == 100 && Decimal(1) == "1" && Decimal(0) == "0" && Fixed(50, 2) == "50" && Fixed(7, 2) == "07"
    ensures Number("1") == 1 && Number("0") == 0 && Number("50") == 50 && Number("07") == 7
  {
    hide Number;
    Tens();
    assert Pow10(2) == 100 by { assert Pow10(1) == 10 * Pow10(0); }
    DigitAppended([], '1');
    DigitAppended([], '0');
    DigitAppended([], '5');
    DigitAppended("5", '0');
    DigitAppended("0", '7');
    assert [] + ['1'] == "1" && [] + ['0'] == "0" && [] + ['5'] == "5" && "5" + ['0'] == "50" && "0" + ['7'] == "07";
    assert Fixed(50, 2) == Fixed(5, 1) + [Digit(0)] && Fixed(5, 1) == Fixed(0, 0) + [Digit(5)];
    assert Fixed(7, 2) == Fixed(0, 1) + [Digit(7)] && Fixed(0, 1) == Fixed(0, 0) + [Digit(0)];
    assert Digit(0) == '0' && Digit(5) == '5' && Digit(7) == '7';
  }

  lemma Reads(w: string, f: string, padded: string)
    requires |w| == 1 && AllDigits(w) && 1 <= |f| <= 2 && AllDigits(f) && padded == PadRight(f, 2)
    ensures AllDigits(padded) && Parse(w + ['.'] + f, 2) == Ok(Number(w) * Pow10(2) + Number(padded))
  {
    hide Number, Pow10;
    var body := w + ['.'] + f;
    IndexOfSeparator(w, f, '.');
    NoNewline(body);
    assert body[..1] == w && body[2..] == f;
    PadReads(f, 2);
  }

  /** `raw` is a grammatical amount followed by one newline. */
  predicate NewlineEnded(raw: string, exponent: nat) {
    && raw != [] && raw[|raw| - 1] == '\n'
    && Matches(raw[..|raw| - 1]) && |Fraction(raw[..|raw| - 1])| <= exponent
  }

  lemma EndsInDigit(body: string)
    requires Matches(body)
    ensures body != [] && IsDigit(body[|body| - 1])
  {
    IndexOfBound(body, '.');
    var dot := IndexOf(body, '.');
    if dot == |body| {
      assert body[..dot][dot - 1] == body[|body| - 1];
    } else {
      assert body[dot + 1..][|body| - dot - 2] == body[|body| - 1];
    }
  }

  /**
   * The comment above the grammar promises to reject whitespace. The pattern departs from the grammar in exactly one
   * way: it also admits one trailing newline, and reads past it.
   */
  lemma OnlyNewlineDeparts(raw: string, exponent: nat)
    ensures Parse(raw, exponent).Ok? && !Matches(raw) <==> NewlineEnded(raw, exponent)
    ensures NewlineEnded(raw, exponent) ==> Parse(raw, exponent) == Parse(raw[..|raw| - 1], exponent)
  {
    hide Number, PadRight, Pow10;
    if Matches(raw) {
      EndsInDigit(raw);
    }
    if NewlineEnded(raw, exponent) {
      EndsInDigit(raw[..|raw| - 1]);
      NoNewline(raw[..|raw| - 1]);
    }
  }

  lemma ReadsWhole(w: string)
    requires |w| == 1 && AllDigits(w)
    ensures Matches(w) && Fraction(w) == [] && Parse(w, 2) == Ok(Number(w) * Pow10(2))
  {
    hide Number, Pow10;
    assert IndexOf(w, '.') == 1 + IndexOf(w[1..], '.') == 1;
    assert w[..1] == w;
    NoNewline(w);
    assert PadRight([], 2) == [] + Zeros(2);
    ZerosMultiply([], 2);
    assert Number([]) == 0 by { EmptyIsZero(); }
  }

  lemma EmptyIsZero()
    ensures AllDigits([]) && Number([]) == 0
  {
  }

  /** For instance "1\n". */
  lemma NewlineAccepted()
    ensures Parse("1\n", 2) == Ok(100) && !Matches("1\n")
  {
    hide Number, Parse, Pow10, Matches, Fixed, Decimal;
    var raw, body := "1\n", "1";
    assert raw[..1] == body;
    ReadsWhole(body);
    Numerals();
    OnlyNewlineDeparts(raw, 2);
  }
}
