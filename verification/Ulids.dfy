/** platform_/kernel/ids.py: Crockford base-32 encoding and ULID order. */
module Ulids {
  import opened Kernel

  const CROCKFORD: string := "0123456789ABCDEFGHJKMNPQRSTVWXYZ"

  function Symbol(d: nat): char
    requires d < 32
  {
    CROCKFORD[d]
  }

  function Pow32(n: nat): nat { if n == 0 then 1 else 32 * Pow32(n - 1) }

  /** The digits of `value` in base 32, most significant first, exactly `length` of them. */
  function Digits(value: nat, length: nat): (digits: seq<nat>)
    ensures |digits| == length
    ensures forall i :: 0 <= i < length ==> digits[i] < 32
  {
    if length == 0 then [] else Digits(value / 32, length - 1) + [value % 32]
  }

  function Symbols(digits: seq<nat>): string
    requires forall i :: 0 <= i < |digits| ==> digits[i] < 32
  {
    seq(|digits|, i requires 0 <= i < |digits| => Symbol(digits[i]))
  }

  function Encoded(value: nat, length: nat): string { Symbols(Digits(value, length)) }

  function Reversed<T>(s: seq<T>): seq<T> { seq(|s|, i requires 0 <= i < |s| => s[|s| - 1 - i]) }

  /** What is left of `value` after `k` digits have been divided off. */
  function Shifted(value: nat, k: nat): nat { if k == 0 then value else Shifted(value, k - 1) / 32 }

  lemma {:induction false} DigitFromEnd(value: nat, length: nat, k: nat)
    requires k < length
    ensures Digits(value, length)[length - 1 - k] == Shifted(value, k) % 32
  {
    if k > 0 {
      DigitFromEnd(value / 32, length - 1, k - 1);
      ShiftedOnce(value, k - 1);
    }
  }

  lemma {:induction false} ShiftedOnce(value: nat, k: nat)
    ensures Shifted(value / 32, k) == Shifted(value, k + 1)
  {
    if k > 0 {
      ShiftedOnce(value, k - 1);
    }
  }

  /** The character for the digit `k` places from the end. */
  function LowSymbol(value: nat, k: nat): char { Symbol(Shifted(value, k) % 32) }

  lemma EncodedFromEnd(value: nat, length: nat, i: nat)
    requires i < length
    ensures |Encoded(value, length)| == length && Encoded(value, length)[i] == LowSymbol(value, length - 1 - i)
  {
    hide Symbol, Shifted;
    DigitFromEnd(value, length, length - 1 - i);
  }

  /** Characters collected from the low end, reversed, are the encoding. */
  lemma ReversedIsEncoded(value: nat, length: nat, chars: string)
    requires |chars| == length && forall k :: 0 <= k < length ==> chars[k] == LowSymbol(value, k)
    ensures Reversed(chars) == Encoded(value, length)
  {
    hide Encoded, LowSymbol;
    assert |Encoded(value, length)| == length by { EncodedLength(value, length); }
    forall i | 0 <= i < length
      ensures Reversed(chars)[i] == Encoded(value, length)[i]
    {
      EncodedFromEnd(value, length, i);
    }
  }

  lemma EncodedLength(value: nat, length: nat)
    ensures |Encoded(value, length)| == length
  {
  }

  /** `_encode`: divides digits off the low end, then reverses. */
  method Encode(value: nat, length: nat) returns (text: string)
    ensures text == Encoded(value, length)
  {
    hide Symbol, Encoded, Reversed;
    var rest := value;
    var chars: string := [];
    var k := 0;
    while k < length
      invariant 0 <= k <= length && |chars| == k
      invariant rest == Shifted(value, k)
      invariant forall i :: 0 <= i < k ==> chars[i] == LowSymbol(value, i)
    {
      var remainder := rest % 32;
      rest := rest / 32;
      chars := chars + [Symbol(remainder)];
      k := k + 1;
    }
    text := Reversed(chars);
    ReversedIsEncoded(value, length, chars);
  }

  // -- order ----------------------------------------------------------------

  /** String order, as the database compares ids. */
  predicate Before(a: string, b: string) {
    b != [] && (a == [] || a[0] < b[0] || (a[0] == b[0] && Before(a[1..], b[1..])))
  }

  predicate DigitsBefore(a: seq<nat>, b: seq<nat>) {
    b != [] && (a == [] || a[0] < b[0] || (a[0] == b[0] && DigitsBefore(a[1..], b[1..])))
  }

  /** The alphabet is in ascending character order. */
  lemma AlphabetAscends(i: nat, j: nat)
    requires i < j < 32
    ensures CROCKFORD[i] < CROCKFORD[j]
    decreases j - i
  {
    assert forall k :: 0 <= k < 31 ==> CROCKFORD[k] < CROCKFORD[k + 1];
    if i + 1 < j {
      AlphabetAscends(i + 1, j);
    }
  }

  /** Thirty-two distinct digits and capitals, without I, L, O and U. */
  lemma AlphabetIsCrockford(c: char)
    ensures |CROCKFORD| == 32
    ensures c in CROCKFORD <==> '0' <= c <= '9' || ('A' <= c <= 'Z' && c !in {'I', 'L', 'O', 'U'})
  {
    assert forall i :: 0 <= i < 10 ==> CROCKFORD[i] == ('0' as int + i) as char;
    assert forall i :: 10 <= i < 18 ==> CROCKFORD[i] == ('A' as int + i - 10) as char;
    if '0' <= c <= '9' {
      assert CROCKFORD[c as int - '0' as int] == c;
    } else if 'A' <= c <= 'H' {
      assert CROCKFORD[10 + c as int - 'A' as int] == c;
    }
    assert CROCKFORD[18] == 'J' && CROCKFORD[19] == 'K' && CROCKFORD[20] == 'M' && CROCKFORD[21] == 'N';
    assert CROCKFORD[22] == 'P' && CROCKFORD[23] == 'Q' && CROCKFORD[24] == 'R' && CROCKFORD[25] == 'S';
    assert CROCKFORD[26] == 'T' && CROCKFORD[27] == 'V' && CROCKFORD[28] == 'W' && CROCKFORD[29] == 'X';
    assert CROCKFORD[30] == 'Y' && CROCKFORD[31] == 'Z';
  }

  lemma {:induction false} SymbolsKeepOrder(a: seq<nat>, b: seq<nat>)
    requires forall i :: 0 <= i < |a| ==> a[i] < 32
    requires forall i :: 0 <= i < |b| ==> b[i] < 32
    ensures DigitsBefore(a, b) ==> Before(Symbols(a), Symbols(b))
  {
    if a != [] && b != [] {
      if a[0] < b[0] {
        AlphabetAscends(a[0], b[0]);
      } else if a[0] == b[0] {
        SymbolsKeepOrder(a[1..], b[1..]);
        assert Symbols(a)[1..] == Symbols(a[1..]) && Symbols(b)[1..] == Symbols(b[1..]);
      }
    }
  }

  lemma {:induction false} AppendKeepsOrder(a: seq<nat>, b: seq<nat>, x: seq<nat>, y: seq<nat>)
    requires |a| == |b|
    ensures DigitsBefore(a, b) ==> DigitsBefore(a + x, b + y)
    ensures DigitsBefore(x, y) ==> DigitsBefore(a + x, a + y)
  {
    if a == [] {
      assert a + x == x && a + y == y && b + y == y;
    } else {
      AppendKeepsOrder(a[1..], b[1..], x, y);
      assert (a + x)[1..] == a[1..] + x && (a + y)[1..] == a[1..] + y && (b + y)[1..] == b[1..] + y;
    }
  }

  /** Digits grow with the value, as long as they fit. */
  lemma {:induction false} DigitsAscend(v: nat, w: nat, length: nat)
    requires v < w < Pow32(length)
    ensures DigitsBefore(Digits(v, length), Digits(w, length))
  {
    var a, b := Digits(v / 32, length - 1), Digits(w / 32, length - 1);
    if v / 32 < w / 32 {
      DigitsAscend(v / 32, w / 32, length - 1);
      AppendKeepsOrder(a, b, [v % 32], [w % 32]);
    } else {
      assert v / 32 == w / 32 && v % 32 < w % 32;
      AppendKeepsOrder(a, a, [v % 32], [w % 32]);
    }
  }

  /** Fixed-width encoding is strictly monotone, in both directions, and so injective. */
  lemma EncodedAscends(v: nat, w: nat, length: nat)
    requires v < Pow32(length) && w < Pow32(length)
    ensures v < w <==> Before(Encoded(v, length), Encoded(w, length))
    ensures v == w <==> Encoded(v, length) == Encoded(w, length)
  {
    if v < w {
      DigitsAscend(v, w, length);
      SymbolsKeepOrder(Digits(v, length), Digits(w, length));
      BeforeIsStrict(Encoded(v, length), Encoded(w, length));
    } else if w < v {
      DigitsAscend(w, v, length);
      SymbolsKeepOrder(Digits(w, length), Digits(v, length));
      BeforeIsStrict(Encoded(w, length), Encoded(v, length));
    } else {
      BeforeIsStrict(Encoded(v, length), Encoded(v, length));
    }
  }

  lemma {:induction false} BeforeIsStrict(a: string, b: string)
    ensures Before(a, b) ==> a != b && !Before(b, a)
  {
    if a != [] && b != [] {
      BeforeIsStrict(a[1..], b[1..]);
    }
  }

  // -- ULIDs ----------------------------------------------------------------

  const TIME_LIMIT: nat := 0x1_0000_0000_0000

  /** `new_ulid`: ten characters of time, sixteen of randomness; `None` when the time does not fit 48 bits. */
  function NewUlid(ms: int, randomness: nat): Option<string> {
    if 0 <= ms < TIME_LIMIT then Some(Encoded(ms, 10) + Encoded(randomness, 16)) else None
  }

  /** A ULID is made exactly for times of forty-eight bits, and has twenty-six characters. */
  lemma UlidShape(ms: int, randomness: nat)
    ensures NewUlid(ms, randomness).Some? <==> 0 <= ms < 281_474_976_710_656
    ensures NewUlid(ms, randomness).Some? ==> |NewUlid(ms, randomness).value| == 26
  {
    hide Encoded;
    if ms >= 0 {
      EncodedLength(ms, 10);
    }
    EncodedLength(randomness, 16);
  }

  lemma TimeFits(ms: nat)
    requires ms < TIME_LIMIT
    ensures ms < Pow32(10)
  {
    assert Pow32(5) == 33_554_432 by { assert Pow32(2) == 1024 && Pow32(3) == 32_768; }
    assert Pow32(8) == 1_099_511_627_776 by { assert Pow32(6) == 1_073_741_824; }
    assert Pow32(10) == 1_125_899_906_842_624 by { assert Pow32(9) == 35_184_372_088_832; }
  }

  lemma {:induction false} StringAppendKeepsOrder(a: string, b: string, x: string, y: string)
    requires |a| == |b|
    ensures Before(a, b) ==> Before(a + x, b + y)
  {
    if a != [] {
      StringAppendKeepsOrder(a[1..], b[1..], x, y);
      assert (a + x)[1..] == a[1..] + x && (b + y)[1..] == b[1..] + y;
    }
  }

  /** An earlier millisecond gives a smaller id, whatever the random parts. */
  lemma EarlierIsSmaller(ms: int, later: int, r: nat, q: nat)
    requires 0 <= ms < later < TIME_LIMIT
    ensures NewUlid(ms, r).Some? && NewUlid(later, q).Some?
    ensures Before(NewUlid(ms, r).value, NewUlid(later, q).value) && |NewUlid(ms, r).value| == 26
  {
    hide Encoded, Before;
    TimeFits(ms);
    TimeFits(later);
    EncodedAscends(ms, later, 10);
    assert |Encoded(ms, 10)| == 10 && |Encoded(later, 10)| == 10 && |Encoded(r, 16)|
        == 16 by { EncodedLength(ms, 10); EncodedLength(later, 10); EncodedLength(r, 16); }
    StringAppendKeepsOrder(Encoded(ms, 10), Encoded(later, 10), Encoded(r, 16), Encoded(q, 16));
  }
}
