/** Token amounts as decimal text (shared/src/units.ts). */
module Units {
  import opened Types
  import opened Decimal

  /** value.split("."): the text before the first dot, and between the first and the second. */
  function Before(s: string, c: char): string {
    if s == "" || s[0] == c then "" else [s[0]] + Before(s[1..], c)
  }

  function After(s: string, c: char): string {
    if s == "" then "" else if s[0] == c then s[1..] else After(s[1..], c)
  }

  function PadEnd(s: string, k: nat): string { if |s| >= k then s else s + Zeros(k - |s|) }

  function PadStart(s: string, k: nat): string { if |s| >= k then s else Zeros(k - |s|) + s }

  /** replace(/0+$/, ""): trailing zeros go. */
  function Trimmed(s: string): string {
    if s != "" && s[|s| - 1] == '0' then Trimmed(s[..|s| - 1]) else s
  }

  /** BigInt(s || "0"). */
  function BigIntOrZero(s: string): Option<int> { if s == "" then Some(0) else Read(s) }

  /** None stands for the SyntaxError of BigInt. */
  function ToTokenAmount(value: string, decimals: nat): Option<int> {
    var negative := value != "" && value[0] == '-';
    var v := if negative then value[1..] else value;
    var padded := PadEnd(Before(After(v, '.'), '.'), decimals)[..decimals];
    match (BigIntOrZero(Before(v, '.')), BigIntOrZero(padded))
    case (Some(whole), Some(frac)) =>
      var result := whole * Pow10(decimals) + frac;
      Some(if negative then -result else result)
    case _ => None
  }

  function Whole(v: nat, one: nat): (w: nat)
    requires one > 0
  {
    v / one
  }

  function Fraction(v: nat, one: nat): (f: nat)
    requires one > 0
    ensures f < one && v == Whole(v, one) * one + f
  {
    v % one
  }

  function FromUnit(value: int, decimals: nat): string {
    var v := if value < 0 then -value else value;
    var one := Pow10(decimals);
    var whole, frac := Whole(v, one), Fraction(v, one);
    var s := if frac == 0 then Digits(whole) else Digits(whole) + "." + Trimmed(PadStart(Digits(frac), decimals));
    if value < 0 then "-" + s else s
  }

  // ------------------------------------------------------------------ the round trip

  lemma {:induction false} SplitAtDot(a: string, b: string)
    requires '.' !in a
    ensures Before(a + "." + b, '.') == a && After(a + "." + b, '.') == b
  {
    var s := a + "." + b;
    if a != "" {
      assert s[1..] == a[1..] + "." + b;
      SplitAtDot(a[1..], b);
    } else {
      assert s[1..] == b;
    }
  }

  lemma {:induction false} NoDot(a: string)
    requires '.' !in a
    ensures Before(a, '.') == a && After(a, '.') == ""
  {
    if a != "" { NoDot(a[1..]); }
  }

  lemma {:induction false} TrimAndPad(s: string)
    ensures |Trimmed(s)| <= |s| && PadEnd(Trimmed(s), |s|) == s
    ensures AllDigits(s) ==> AllDigits(Trimmed(s))
  {
    if s != "" && s[|s| - 1] == '0' {
      TrimAndPad(s[..|s| - 1]);
      assert s == s[..|s| - 1] + "0";
      var t := Trimmed(s);
      assert s[..|s| - 1] == t + Zeros(|s| - 1 - |t|);
      assert Zeros(|s| - |t|) == Zeros(|s| - 1 - |t|) + "0";
    } else {
      assert s + Zeros(0) == s;
    }
  }

  lemma PadStartValue(n: nat, k: nat)
    requires n < Pow10(k) && k > 0
    ensures |PadStart(Digits(n), k)| == k && AllDigits(PadStart(Digits(n), k)) && Value(PadStart(Digits(n), k)) == n
  {
    DigitsFit(n, k);
    ValueOfDigits(n);
    var zeros := Zeros(k - |Digits(n)|);
    ValueOfZeros(|zeros|);
    if |Digits(n)| < k { ValueOfConcat(zeros, Digits(n)); }
  }

  /** Parsing digits, a dot and digits. */
  lemma ParsesBoth(w: string, t: string, decimals: nat)
    requires w != "" && AllDigits(w) && AllDigits(t)
    requires var p := PadEnd(t, decimals)[..decimals]; p != "" && AllDigits(p)
    ensures ToTokenAmount(w + "." + t, decimals) == Some(Value(w) * Pow10(decimals) + Value(PadEnd(t, decimals)[..decimals]))
  {
    hide Before, After, Pow10, Value, Trimmed;
    SplitAtDot(w, t);
    NoDot(t);
    var p := PadEnd(t, decimals)[..decimals];
    assert IsDigit(p[0]) && IsDigit(w[0]) && (w + "." + t)[0] == w[0];
  }

  lemma ParsesWhole(w: string, decimals: nat)
    requires w != "" && AllDigits(w)
    ensures ToTokenAmount(w, decimals) == Some(Value(w) * Pow10(decimals))
  {
    assert Before("", '.') == "" && PadEnd("", decimals)[..decimals] == Zeros(decimals);
    hide Before, After, Pow10, Value, PadEnd, Zeros;
    NoDot(w);
    ValueOfZeros(decimals);
    assert IsDigit(w[0]) && (decimals > 0 ==> IsDigit(Zeros(decimals)[0]));
  }

  lemma NonnegativeRoundTrip(v: nat, decimals: nat)
    ensures ToTokenAmount(FromUnit(v, decimals), decimals) == Some(v)
    ensures |FromUnit(v, decimals)| > 0 && FromUnit(v, decimals)[0] != '-'
  {
    hide Pow10, Digits, Value, Trimmed, ToTokenAmount, PadEnd, PadStart, Whole;
    var one := Pow10(decimals);
    var whole, frac := Whole(v, one), Fraction(v, one);
    hide Fraction;
    var w := Digits(whole);
    ValueOfDigits(whole);
    assert IsDigit(w[0]);
    if frac == 0 {
      ParsesWhole(w, decimals);
    } else {
      assert decimals > 0 by { if decimals == 0 { PowZero(); } }
      var padded := PadStart(Digits(frac), decimals);
      PadStartValue(frac, decimals);
      TrimAndPad(padded);
      assert padded[..decimals] == padded;
      ParsesBoth(w, Trimmed(padded), decimals);
    }
  }

  lemma PowZero()
    ensures Pow10(0) == 1
  {
  }

  /** Printing an amount and parsing it back loses nothing, for every integer and every precision. */
  lemma AmountRoundTrip(v: int, decimals: nat)
    ensures ToTokenAmount(FromUnit(v, decimals), decimals) == Some(v)
  {
    hide *;
    if v < 0 {
      NonnegativeRoundTrip(-v, decimals);
      MinusSign(-v, decimals);
    } else {
      NonnegativeRoundTrip(v, decimals);
    }
  }

  lemma MinusSign(v: int, decimals: nat)
    requires v > 0 && FromUnit(v, decimals) != "" && FromUnit(v, decimals)[0] != '-'
    ensures var amount := ToTokenAmount(FromUnit(v, decimals), decimals);
            ToTokenAmount(FromUnit(-v, decimals), decimals) == if amount.Some? then Some(-amount.value) else None
  {
    hide Pow10, Before, After, PadEnd, BigIntOrZero, Digits, Trimmed, PadStart, Whole, Fraction;
    var s := FromUnit(v, decimals);
    assert FromUnit(-v, decimals) == "-" + s;
    assert ("-" + s)[1..] == s;
  }

  /** Printing is therefore injective. */
  lemma PrintingIsInjective(v: int, w: int, decimals: nat)
    requires FromUnit(v, decimals) == FromUnit(w, decimals)
    ensures v == w
  {
    AmountRoundTrip(v, decimals);
    AmountRoundTrip(w, decimals);
  }
}
