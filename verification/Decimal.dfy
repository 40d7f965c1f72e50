/** Exact amounts: decimalToAtomic and atomicDecimal of internal/app/service.go, formatBTC of
    internal/bitcoinwallet/manager.go. */
module Decimal {
  import opened Basics
  import opened Trade
  import opened Terms

  function Zeros(n: nat): (s: string)
    ensures |s| == n && AllDigits(s) && forall i :: 0 <= i < n ==> s[i] == '0'
  {
    seq(n, _ => '0')
  }

  function TrimLeft(s: string): string {
    if |s| > 0 && s[0] == '0' then TrimLeft(s[1..]) else s
  }

  function TrimRight(s: string): string {
    if |s| > 0 && s[|s| - 1] == '0' then TrimRight(s[..|s| - 1]) else s
  }

  /** Where the first dot stands, or the length without one. */
  function Dot(s: string): (i: nat)
    ensures i <= |s| && (i < |s| ==> s[i] == '.') && forall k :: 0 <= k < i ==> s[k] != '.'
  {
    if |s| == 0 || s[0] == '.' then 0 else 1 + Dot(s[1..])
  }

  function Whole(s: string): string {
    s[..Dot(s)]
  }

  function Fraction(s: string): string {
    if Dot(s) == |s| then "" else s[Dot(s) + 1..]
  }

  function Unit(decimals: nat): string {
    "1" + Zeros(decimals)
  }

  predicate UnitValid(unit: string) {
    |unit| > 0 && unit == Unit(|unit| - 1)
  }

  /** A plain decimal number of at most `decimals` places. */
  predicate Plain(s: string, decimals: nat) {
    && s != "" && s[0] != '+' && s[0] != '-'
    && Whole(s) != "" && (Dot(s) < |s| ==> Fraction(s) != "")
    && |Fraction(s)| <= decimals
    && AllDigits(Whole(s)) && AllDigits(Fraction(s))
  }

  function OrZero(s: string): string {
    if s == "" then "0" else s
  }

  function DecimalToAtomic(value: string, unit: string): Option<string> {
    var s := TrimSpace(value);
    if s == "" || s[0] == '+' || s[0] == '-' then None
    else if !UnitValid(unit) then None
    else
      var decimals := |unit| - 1;
      if !Plain(s, decimals) then None
      else
        var encoded := TrimLeft(OrZero(TrimLeft(Whole(s))) + Fraction(s) + Zeros(decimals - |Fraction(s)|));
        if encoded == "" then None else Some(encoded)
  }

  /** At least one digit before the places. */
  function Padded(atomic: string, digits: nat): (value: string)
    ensures |value| > digits
  {
    if |atomic| <= digits then Zeros(digits + 1 - |atomic|) + atomic else atomic
  }

  function Joined(whole: string, fraction: string): string {
    if fraction == "" then whole else whole + "." + fraction
  }

  function AtomicDecimal(atomic: string, unit: string): string
    requires |unit| > 0
  {
    var digits := |unit| - 1;
    var value := Padded(atomic, digits);
    var whole := value[..|value| - digits];
    if digits == 0 then whole else Joined(whole, TrimRight(value[|value| - digits..]))
  }

  // ----- values

  function Pow10(n: nat): (p: nat)
    ensures p > 0
  {
    if n == 0 then 1 else 10 * Pow10(n - 1)
  }

  lemma {:induction false} ValueConcat(a: string, b: string)
    requires AllDigits(a) && AllDigits(b)
    ensures AllDigits(a + b) && Value(a + b) == Value(a) * Pow10(|b|) + Value(b)
  {
    if |b| == 0 {
      assert a + b == a;
    } else {
      var front := b[..|b| - 1];
      assert (a + b)[..|a + b| - 1] == a + front;
      ValueConcat(a, front);
      assert Value(a + b) == Value(a + front) * 10 + DigitValue(b[|b| - 1]);
      assert Value(a) * Pow10(|b|) == Value(a) * Pow10(|front|) * 10;
    }
  }

  lemma {:induction false} ValueZeros(n: nat)
    ensures Value(Zeros(n)) == 0
  {
    if n > 0 {
      assert Zeros(n)[..n - 1] == Zeros(n - 1);
      ValueZeros(n - 1);
    }
  }

  lemma {:induction false} ValueBound(s: string)
    requires AllDigits(s)
    ensures Value(s) < Pow10(|s|)
  {
    if |s| > 0 {
      ValueBound(s[..|s| - 1]);
    }
  }

  /** Digit strings of one length are determined by their value. */
  lemma {:induction false} SameValueSameText(a: string, b: string)
    requires AllDigits(a) && AllDigits(b) && |a| == |b| && Value(a) == Value(b)
    ensures a == b
  {
    if |a| > 0 {
      var i := |a| - 1;
      assert Value(a) == Value(a[..i]) * 10 + DigitValue(a[i]);
      assert Value(b) == Value(b[..i]) * 10 + DigitValue(b[i]);
      assert DigitValue(a[i]) == DigitValue(b[i]) && Value(a[..i]) == Value(b[..i]);
      SameValueSameText(a[..i], b[..i]);
      assert a == a[..i] + [a[i]] && b == b[..i] + [b[i]];
    }
  }

  /** A positive integer as the records write it: no leading zero. */
  predicate Canonical(s: string) {
    |s| > 0 && AllDigits(s) && s[0] != '0'
  }

  lemma {:induction false} CanonicalLarge(s: string)
    requires Canonical(s)
    ensures Value(s) >= Pow10(|s| - 1)
  {
    if |s| == 1 {
      assert s[..0] == "";
    } else {
      CanonicalLarge(s[..|s| - 1]);
    }
  }

  lemma Pow10Monotone(a: nat, b: nat)
    requires a <= b
    ensures Pow10(a) <= Pow10(b)
  {
    if a < b {
      Pow10Monotone(a, b - 1);
    }
  }

  lemma ShorterIsSmaller(a: string, b: string)
    requires Canonical(a) && Canonical(b) && |a| < |b|
    ensures Value(a) < Value(b)
  {
    ValueBound(a);
    Pow10Monotone(|a|, |b| - 1);
    CanonicalLarge(b);
  }

  /** Canonical texts are determined by their value. */
  lemma CanonicalUnique(a: string, b: string)
    requires Canonical(a) && Canonical(b) && Value(a) == Value(b)
    ensures a == b
  {
    if |a| < |b| {
      ShorterIsSmaller(a, b);
    } else if |b| < |a| {
      ShorterIsSmaller(b, a);
    } else {
      SameValueSameText(a, b);
    }
  }

  // ----- trimming

  /** Trimming takes off zeros and nothing else, and leaves no leading one. */
  lemma {:induction false} TrimLeftShape(s: string)
    ensures |TrimLeft(s)| <= |s| && s == Zeros(|s| - |TrimLeft(s)|) + TrimLeft(s)
    ensures TrimLeft(s) != "" ==> TrimLeft(s)[0] != '0'
  {
    if |s| > 0 && s[0] == '0' {
      TrimLeftShape(s[1..]);
      var n := |s[1..]| - |TrimLeft(s)|;
      assert s == ['0'] + s[1..];
      assert ['0'] + Zeros(n) == Zeros(n + 1);
    }
  }

  lemma {:induction false} TrimRightShape(s: string)
    ensures |TrimRight(s)| <= |s| && s == TrimRight(s) + Zeros(|s| - |TrimRight(s)|)
    ensures TrimRight(s) != "" ==> TrimRight(s)[|TrimRight(s)| - 1] != '0'
  {
    if |s| > 0 && s[|s| - 1] == '0' {
      TrimRightShape(s[..|s| - 1]);
      var n := |s| - 1 - |TrimRight(s)|;
      assert s == s[..|s| - 1] + ['0'];
      assert Zeros(n) + ['0'] == Zeros(n + 1);
    }
  }

  lemma {:induction false} TrimLeftOver(n: nat, s: string)
    ensures TrimLeft(Zeros(n) + s) == TrimLeft(s)
  {
    if n == 0 {
      assert Zeros(0) + s == s;
    } else {
      assert (Zeros(n) + s)[1..] == Zeros(n - 1) + s;
      TrimLeftOver(n - 1, s);
    }
  }

  lemma {:induction false} TrimRightOver(s: string, n: nat)
    ensures TrimRight(s + Zeros(n)) == TrimRight(s)
  {
    if n == 0 {
      assert s + Zeros(0) == s;
    } else {
      assert (s + Zeros(n))[..|s| + n - 1] == s + Zeros(n - 1);
      TrimRightOver(s, n - 1);
    }
  }

  lemma ValueTrimmed(s: string)
    requires AllDigits(s)
    ensures AllDigits(TrimLeft(s)) && Value(TrimLeft(s)) == Value(s)
    ensures TrimLeft(s) == "" <==> Value(s) == 0
    ensures TrimLeft(s) != "" ==> Canonical(TrimLeft(s))
  {
    TrimLeftShape(s);
    var n := |s| - |TrimLeft(s)|;
    assert forall i :: 0 <= i < |TrimLeft(s)| ==> TrimLeft(s)[i] == s[n + i];
    ValueConcat(Zeros(n), TrimLeft(s));
    ValueZeros(n);
    if TrimLeft(s) != "" {
      CanonicalLarge(TrimLeft(s));
    }
  }

  // ----- decimalToAtomic is exact

  /** The digits of a plain decimal, the fraction filled up to all its places. */
  function Filled(s: string, decimals: nat): string
    requires |Fraction(s)| <= decimals
  {
    Whole(s) + Fraction(s) + Zeros(decimals - |Fraction(s)|)
  }

  /** Leading zeros of the whole part make no difference to the result. */
  lemma EncodedTrims(s: string, decimals: nat)
    requires Plain(s, decimals)
    ensures TrimLeft(OrZero(TrimLeft(Whole(s))) + Fraction(s) + Zeros(decimals - |Fraction(s)|)) == TrimLeft(Filled(s, decimals))
  {
    var whole, rest := Whole(s), Fraction(s) + Zeros(decimals - |Fraction(s)|);
    TrimLeftShape(whole);
    var n := |whole| - |TrimLeft(whole)|;
    assert Filled(s, decimals) == Zeros(n) + (TrimLeft(whole) + rest);
    TrimLeftOver(n, TrimLeft(whole) + rest);
    if TrimLeft(whole) == "" {
      assert "0" + rest == Zeros(1) + rest;
      TrimLeftOver(1, rest);
      assert "" + rest == rest;
      assert "0" + Fraction(s) + Zeros(decimals - |Fraction(s)|) == "0" + rest;
    } else {
      assert TrimLeft(whole) + Fraction(s) + Zeros(decimals - |Fraction(s)|) == TrimLeft(whole) + rest;
    }
  }

  /** It accepts exactly the positive plain decimals of at most `decimals` places, and returns the value
      times ten to that power, exactly and in canonical form. */
  lemma DecimalExact(value: string, decimals: nat)
    ensures
      var s := TrimSpace(value);
      var atomic := DecimalToAtomic(value, Unit(decimals));
      && (atomic.Some? <==> Plain(s, decimals) && Value(Whole(s) + Fraction(s)) > 0)
      && (atomic.Some? ==>
            && Canonical(atomic.value)
            && Value(atomic.value) * Pow10(|Fraction(s)|) == Value(Whole(s) + Fraction(s)) * Pow10(decimals)
            && Value(atomic.value) == Value(Whole(s)) * Pow10(decimals) + Value(Fraction(s)) * Pow10(decimals - |Fraction(s)|))
  {
    var s := TrimSpace(value);
    if Plain(s, decimals) {
      var whole, fraction := Whole(s), Fraction(s);
      var missing := decimals - |fraction|;
      EncodedTrims(s, decimals);
      ValueConcat(whole, fraction);
      ValueConcat(whole + fraction, Zeros(missing));
      ValueZeros(missing);
      ValueTrimmed(Filled(s, decimals));
      Powers(|fraction|, missing);
      Distributed(Value(whole), Pow10(|fraction|), Value(fraction), Pow10(missing), Pow10(decimals));
    }
  }

  lemma {:induction false} Powers(a: nat, b: nat)
    ensures Pow10(a) * Pow10(b) == Pow10(a + b)
  {
    if a > 0 {
      Powers(a - 1, b);
      assert Pow10(a) * Pow10(b) == 10 * (Pow10(a - 1) * Pow10(b));
    }
  }

  lemma Distributed(w: nat, f10: nat, f: nat, m10: nat, d10: nat)
    requires f10 * m10 == d10
    ensures (w * f10 + f) * m10 == w * d10 + f * m10
    ensures (w * f10 + f) * m10 > 0 <==> w * f10 + f > 0 && m10 > 0
    ensures ((w * f10 + f) * m10) * f10 == (w * f10 + f) * d10
  {
    assert (w * f10 + f) * m10 == (w * f10) * m10 + f * m10;
    assert (w * f10) * m10 == w * (f10 * m10);
    assert ((w * f10 + f) * m10) * f10 == (w * f10 + f) * (m10 * f10);
  }

  // ----- atomicDecimal and back

  lemma AtomicDecimalSplits(atomic: string, digits: nat)
    ensures
      var value := Padded(atomic, digits);
      && |value| > digits
      && AtomicDecimal(atomic, Unit(digits)) == Joined(value[..|value| - digits], TrimRight(value[|value| - digits..]))
  {
    hide Padded;
    var value := Padded(atomic, digits);
    assert |Unit(digits)| - 1 == digits;
    if digits == 0 {
      assert value[|value|..] == "";
    }
  }

  lemma {:induction false} DotOfJoined(whole: string, rest: string)
    requires AllDigits(whole)
    ensures Dot(whole + "." + rest) == |whole|
  {
    var s := whole + "." + rest;
    assert s[|whole|] == '.';
    assert forall k :: 0 <= k < |whole| ==> s[k] == whole[k];
  }

  lemma DigitsHaveNoDot(s: string)
    requires AllDigits(s)
    ensures Dot(s) == |s|
  {
  }

  /** A text that begins and ends with a digit is trimmed already. */
  lemma NoSpaceTrimmed(s: string)
    requires |s| > 0 && IsDigit(s[0]) && IsDigit(s[|s| - 1])
    ensures TrimSpace(s) == s
  {
    assert LeadingSpace(s) == 0 && TrailingSpace(s) == 0;
  }

  /** A joined decimal is read back as the parts it was made of. */
  lemma JoinedReads(whole: string, fraction: string)
    requires AllDigits(whole) && AllDigits(fraction) && whole != ""
    ensures
      var s := Joined(whole, fraction);
      TrimSpace(s) == s && Whole(s) == whole && Fraction(s) == fraction && s != "" && s[0] != '+' && s[0] != '-' &&
      (Dot(s) < |s| ==> Fraction(s) != "")
  {
    var s := Joined(whole, fraction);
    assert s[0] == whole[0];
    NoSpaceTrimmed(s);
    if fraction == "" {
      DigitsHaveNoDot(whole);
    } else {
      DotOfJoined(whole, fraction);
      assert s[|whole| + 1..] == fraction;
    }
  }

  lemma PaddedDigits(atomic: string, digits: nat)
    requires Canonical(atomic)
    ensures AllDigits(Padded(atomic, digits)) && TrimLeft(Padded(atomic, digits)) == atomic
    ensures |Padded(atomic, digits)| > digits
  {
    if |atomic| <= digits {
      TrimLeftOver(digits + 1 - |atomic|, atomic);
    }
  }

  lemma ReadsFilled(s: string, digits: nat)
    requires TrimSpace(s) == s && Plain(s, digits)
    ensures
      var encoded := TrimLeft(Filled(s, digits));
      DecimalToAtomic(s, Unit(digits)) == if encoded == "" then None else Some(encoded)
  {
    hide TrimSpace, TrimLeft, Filled;
    assert |Unit(digits)| - 1 == digits;
    EncodedTrims(s, digits);
  }

  /** Printing a canonical amount and reading it again gives the amount back. */
  lemma AtomicRoundTrip(atomic: string, digits: nat)
    requires Canonical(atomic)
    ensures DecimalToAtomic(AtomicDecimal(atomic, Unit(digits)), Unit(digits)) == Some(atomic)
  {
    hide DecimalToAtomic, AtomicDecimal, TrimSpace, TrimLeft, TrimRight, Padded, Whole, Fraction, Dot, Joined, Unit;
    var value := Padded(atomic, digits);
    PaddedDigits(atomic, digits);
    AtomicDecimalSplits(atomic, digits);
    var whole, places := value[..|value| - digits], value[|value| - digits..];
    var fraction := TrimRight(places);
    TrimRightShape(places);
    assert forall i :: 0 <= i < |fraction| ==> fraction[i] == places[i];
    JoinedReads(whole, fraction);
    var s := Joined(whole, fraction);
    assert Filled(s, digits) == value by {
      assert value == whole + places && places == fraction + Zeros(digits - |fraction|);
      assert whole + fraction + Zeros(digits - |fraction|) == whole + (fraction + Zeros(digits - |fraction|));
    }
    ReadsFilled(s, digits);
  }

  /** Reading a decimal and printing the amount only strips redundant zeros. */
  lemma DecimalRoundTrip(value: string, digits: nat)
    requires DecimalToAtomic(value, Unit(digits)).Some?
    ensures
      var s := TrimSpace(value);
      AtomicDecimal(DecimalToAtomic(value, Unit(digits)).value, Unit(digits)) ==
      Joined(OrZero(TrimLeft(Whole(s))), TrimRight(Fraction(s)))
  {
    var s := TrimSpace(value);
    var atomic := DecimalToAtomic(value, Unit(digits)).value;
    var whole := OrZero(TrimLeft(Whole(s)));
    var places := Fraction(s) + Zeros(digits - |Fraction(s)|);
    DecimalExact(value, digits);
    PaddedIsWhole(s, digits);
    AtomicDecimalSplits(atomic, digits);
    assert (whole + places)[..|whole + places| - digits] == whole;
    assert (whole + places)[|whole + places| - digits..] == places;
    TrimRightOver(Fraction(s), digits - |Fraction(s)|);
  }

  /** The padded amount is the whole part without leading zeros followed by all the places. */
  lemma PaddedIsWhole(s: string, digits: nat)
    requires Plain(s, digits)
    ensures
      var whole := OrZero(TrimLeft(Whole(s)));
      var places := Fraction(s) + Zeros(digits - |Fraction(s)|);
      Padded(TrimLeft(whole + places), digits) == whole + places
    ensures TrimLeft(OrZero(TrimLeft(Whole(s))) + Fraction(s) + Zeros(digits - |Fraction(s)|)) ==
            TrimLeft(OrZero(TrimLeft(Whole(s))) + (Fraction(s) + Zeros(digits - |Fraction(s)|)))
  {
    var whole := OrZero(TrimLeft(Whole(s)));
    var places := Fraction(s) + Zeros(digits - |Fraction(s)|);
    assert whole + Fraction(s) + Zeros(digits - |Fraction(s)|) == whole + places;
    TrimLeftShape(Whole(s));
    if TrimLeft(Whole(s)) == "" {
      assert whole + places == Zeros(1) + places;
      TrimLeftOver(1, places);
      TrimLeftShape(places);
      var n := digits - |TrimLeft(places)|;
      assert Zeros(n + 1) + TrimLeft(places) == Zeros(1) + (Zeros(n) + TrimLeft(places));
    } else {
      assert (whole + places)[0] == whole[0];
    }
  }

  // ----- formatBTC

  /** The decimal text of a natural number. */
  function Digits(n: nat): (s: string)
    ensures |s| > 0 && AllDigits(s) && Value(s) == n && (n > 0 ==> s[0] != '0') && (n == 0 ==> s == "0")
  {
    if n < 10 then
      var s := [('0' as nat + n) as char];
      assert s[..0] == "";
      s
    else
      var front := Digits(n / 10);
      var s := front + [('0' as nat + n % 10) as char];
      assert s[..|s| - 1] == front;
      s
  }

  /** Go's %d. */
  function Shown(n: int): string {
    if n < 0 then "-" + Digits(-n) else Digits(n)
  }

  /** Go's %08d: the sign counts towards the width. */
  function ShownWide(n: int): string {
    var digits := Digits(if n < 0 then -n else n);
    var width := if n < 0 then 7 else 8;
    (if n < 0 then "-" else "") + (if |digits| < width then Zeros(width - |digits|) + digits else digits)
  }

  const SATOSHIS_PER_COIN: nat := 100_000_000

  method FormatBTC(amount: int64) returns (text: string)
    ensures amount >= 0 ==> text == AtomicDecimal(Digits(amount), Unit(8))
    ensures -(TWO_TO_63 as int) < amount < 0 ==> text == "-" + AtomicDecimal(Digits(-amount), Unit(8))
  {
    hide AtomicDecimal, Unit, Digits, Shown, ShownWide, Quotient, WrapS64;
    NegationExact(amount);
    var sign, satoshis := "", amount;
    if satoshis < 0 {
      sign, satoshis := "-", WrapS64(-satoshis);
    }
    var whole := Quotient(satoshis, SATOSHIS_PER_COIN);
    var fraction := satoshis - whole * SATOSHIS_PER_COIN;
    if satoshis >= 0 {
      CoinSplits(satoshis);
    }
    if fraction == 0 {
      return sign + Shown(whole);
    }
    var formatted := Stripped(ShownWide(fraction));
    text := sign + Shown(whole) + "." + formatted;
    assert sign + Shown(whole) + "." + formatted == sign + (Shown(whole) + "." + formatted);
  }

  /** Its loop, which drops the zeros at the end one by one. */
  method Stripped(text: string) returns (formatted: string)
    ensures formatted == TrimRight(text)
  {
    formatted := text;
    while |formatted| > 0 && formatted[|formatted| - 1] == '0'
      invariant TrimRight(formatted) == TrimRight(text)
    {
      formatted := formatted[..|formatted| - 1];
    }
  }

  lemma NegationExact(amount: int64)
    ensures -(TWO_TO_63 as int) < amount < 0 ==> WrapS64(-amount) == -amount
  {
  }

  lemma EightPlaces()
    ensures Pow10(8) == SATOSHIS_PER_COIN
  {
    Powers(4, 4);
  }

  /** Cutting eight digits off a text divides its value by a hundred million. */
  lemma CutValue(head: string, tail: string)
    requires AllDigits(head) && AllDigits(tail) && |tail| == 8
    ensures AllDigits(head + tail)
    ensures Value(head) == Value(head + tail) / SATOSHIS_PER_COIN && Value(tail) == Value(head + tail) % SATOSHIS_PER_COIN
  {
    hide Value, Pow10;
    ValueConcat(head, tail);
    ValueBound(tail);
    EightPlaces();
  }

  /** Dividing the number is cutting its text. */
  lemma CoinSplits(satoshis: nat)
    ensures
      var whole, fraction := satoshis / SATOSHIS_PER_COIN, satoshis % SATOSHIS_PER_COIN;
      && Quotient(satoshis, SATOSHIS_PER_COIN) == whole && satoshis - whole * SATOSHIS_PER_COIN == fraction
      && AtomicDecimal(Digits(satoshis), Unit(8)) == Joined(Shown(whole), TrimRight(ShownWide(fraction)))
      && (TrimRight(ShownWide(fraction)) == "" <==> fraction == 0)
  {
    hide AtomicDecimal, Unit, Digits, ShownWide, TrimRight, Value, Padded, Joined;
    var whole, fraction := satoshis / SATOSHIS_PER_COIN, satoshis % SATOSHIS_PER_COIN;
    var value := Padded(Digits(satoshis), 8);
    AtomicDecimalSplits(Digits(satoshis), 8);
    var head, tail := value[..|value| - 8], value[|value| - 8..];
    PaddedValue(satoshis);
    assert value == head + tail;
    CutValue(head, tail);
    WideFraction(fraction);
    SameValueSameText(tail, ShownWide(fraction));
    HeadIsWhole(satoshis, head, whole);
    AllZeros(tail);
  }

  lemma ZerosTrimAway(n: nat)
    ensures TrimRight(Zeros(n)) == ""
  {
    TrimRightOver("", n);
    assert "" + Zeros(n) == Zeros(n);
  }

  lemma AllZeros(s: string)
    requires AllDigits(s)
    ensures TrimRight(s) == "" <==> Value(s) == 0
  {
    TrimRightShape(s);
    ValueZeros(|s|);
    if Value(s) == 0 {
      SameValueSameText(s, Zeros(|s|));
      ZerosTrimAway(|s|);
    }
    if TrimRight(s) == "" {
      assert s == Zeros(|s|);
    }
  }

  lemma PaddedValue(n: nat)
    ensures AllDigits(Padded(Digits(n), 8)) && Value(Padded(Digits(n), 8)) == n && |Padded(Digits(n), 8)| > 8
  {
    var digits := Digits(n);
    if |digits| <= 8 {
      ValueConcat(Zeros(9 - |digits|), digits);
      ValueZeros(9 - |digits|);
    }
  }

  lemma DigitsShort(n: nat)
    requires n < SATOSHIS_PER_COIN
    ensures |Digits(n)| <= 8
  {
    EightPlaces();
    if |Digits(n)| > 8 {
      LongIsLarge(Digits(n));
    }
  }

  lemma LongIsLarge(s: string)
    requires Canonical(s) && |s| > 8
    ensures Value(s) >= Pow10(8)
  {
    Pow10Monotone(8, |s| - 1);
    CanonicalLarge(s);
  }

  lemma WideFraction(fraction: nat)
    requires fraction < SATOSHIS_PER_COIN
    ensures |ShownWide(fraction)| == 8 && AllDigits(ShownWide(fraction)) && Value(ShownWide(fraction)) == fraction
  {
    hide Digits, Value, Pow10;
    DigitsShort(fraction);
    var digits := Digits(fraction);
    var zeros := Zeros(8 - |digits|);
    ValueConcat(zeros, digits);
    ValueZeros(8 - |digits|);
    assert ShownWide(fraction) == zeros + digits;
  }

  lemma HeadIsWhole(n: nat, head: string, whole: nat)
    requires head == Padded(Digits(n), 8)[..|Padded(Digits(n), 8)| - 8] && |Padded(Digits(n), 8)| > 8
    requires AllDigits(head) && Value(head) == whole
    ensures head == Digits(whole)
  {
    if |Digits(n)| <= 8 {
      assert head == Zeros(1);
      ValueZeros(1);
    } else {
      assert head[0] == Digits(n)[0];
      CanonicalLarge(head);
      CanonicalUnique(head, Digits(whole));
    }
  }
}
