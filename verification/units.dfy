/**
 Exact decimal printing of base-unit amounts. `Read` is the independent reference: it parses a decimal
 string back to an integer at a given scale, and rejects anything malformed.
 */
module Units {

  // ---------------------------------------------------------------- digits

  function Digit(d: nat): char
    requires d < 10
  {
    '0' + d as char
  }

  /** The digits of a natural number, without leading zeros. */
  function Digits(n: nat): (s: string)
    ensures |s| > 0
  {
    if n < 10 then [Digit(n)] else Digits(n / 10) + [Digit(n % 10)]
  }

  /** Go's `big.Int.String`. */
  function Show(v: int): string {
    if v < 0 then "-" + Digits(-v) else Digits(v)
  }

  function Zeros(n: nat): (s: string)
    ensures |s| == n
  {
    seq(n, _ => '0')
  }

  /** Drops trailing zeros. */
  function TrimZeros(s: string): string {
    if s != [] && s[|s| - 1] == '0' then TrimZeros(s[..|s| - 1]) else s
  }

  function Pow10(n: nat): (p: nat)
    ensures p >= 1
  {
    if n == 0 then 1 else 10 * Pow10(n - 1)
  }

  function Abs(v: int): nat { if v < 0 then -v else v }

  // ---------------------------------------------------------------- the printer

  function Div(m: nat, d: nat): nat
    requires d > 0
  {
    m / d
  }

  /** Magnitudes of the quotient and remainder that `QuoRem` gives: both truncate toward zero. */
  function Quo(v: int, decimals: nat): nat {
    Div(Abs(v), Pow10(decimals))
  }

  function Rem(v: int, decimals: nat): nat {
    Abs(v) % Pow10(decimals)
  }

  /** Renders `v` base units at `decimals`. */
  function FormatUnits(v: int, decimals: nat): string {
    if decimals == 0 then Show(v)
    else
      var whole: int := if v < 0 then -(Quo(v, decimals) as int) else Quo(v, decimals);
      var frac := Rem(v, decimals);
      if frac == 0 then Show(whole)
      else
        var digits := Digits(frac);
        var padded := if |digits| < decimals then Zeros(decimals - |digits|) + digits else digits;
        var wholeStr := if v < 0 && whole == 0 then "-" + Show(whole) else Show(whole);
        wholeStr + "." + TrimZeros(padded)
  }

  /** The index of the first dot, or the length. */
  function DotAt(s: string): (i: nat)
    ensures i <= |s|
    ensures i < |s| ==> s[i] == '.'
    ensures forall k :: 0 <= k < i ==> s[k] != '.'
  {
    if s == [] then 0 else if s[0] == '.' then 0 else 1 + DotAt(s[1..])
  }

  /** At most six decimals, for logs. */
  function LogValue(v: string): string {
    var i := DotAt(v);
    if i == |v| then v
    else
      var cut := if |v| > i + 7 then v[..i + 7] else v;
      var trimmed := TrimZeros(cut);
      if trimmed != [] && trimmed[|trimmed| - 1] == '.' then trimmed[..|trimmed| - 1] else trimmed
  }

  // ---------------------------------------------------------------- the reference reader

  datatype Parsed = Value(v: int) | Malformed

  predicate IsDigit(c: char) { '0' <= c <= '9' }

  predicate AllDigits(s: string) { forall i :: 0 <= i < |s| ==> IsDigit(s[i]) }

  function DigitValue(c: char): nat
    requires IsDigit(c)
  {
    (c - '0') as nat
  }

  /** The number a digit string stands for. */
  function ReadDigits(s: string): nat
    requires AllDigits(s)
  {
    if s == [] then 0 else 10 * ReadDigits(s[..|s| - 1]) + DigitValue(s[|s| - 1])
  }

  /** `whole.frac` at a scale of `decimals`: the integer whole * 10^decimals + frac padded right. */
  function ReadUnsigned(s: string, decimals: nat): Parsed {
    var i := DotAt(s);
    var whole, frac := s[..i], if i < |s| then s[i + 1..] else [];
    if whole == [] || !AllDigits(whole) || !AllDigits(frac) || |frac| > decimals || (i < |s| && frac == []) then Malformed
    else Value(ReadDigits(whole) * Pow10(decimals) + ReadDigits(frac) * Pow10(decimals - |frac|))
  }

  function Read(s: string, decimals: nat): Parsed {
    if s != [] && s[0] == '-' then
      match ReadUnsigned(s[1..], decimals)
      case Value(v) => Value(-v)
      case Malformed => Malformed
    else ReadUnsigned(s, decimals)
  }

  // ---------------------------------------------------------------- lemmas

  lemma {:induction false} DigitsRead(n: nat)
    ensures AllDigits(Digits(n)) && ReadDigits(Digits(n)) == n
  {
    if n < 10 {
      assert Digits(n)[..0] == [];
    } else {
      DigitsRead(n / 10);
      var s := Digits(n);
      assert s[..|s| - 1] == Digits(n / 10);
    }
  }

  /** Reading splits at any point. */
  lemma {:induction false} ReadConcat(a: string, b: string)
    requires AllDigits(a) && AllDigits(b)
    ensures AllDigits(a + b) && ReadDigits(a + b) == ReadDigits(a) * Pow10(|b|) + ReadDigits(b)
  {
    if b == [] {
      assert a + b == a;
    } else {
      var b', s := b[..|b| - 1], a + b;
      ReadConcat(a, b');
      assert s[..|s| - 1] == a + b' && s[|s| - 1] == b[|b| - 1];
      assert AllDigits(s);
      assert ReadDigits(s) == 10 * ReadDigits(a + b') + DigitValue(b[|b| - 1]);
      MulAssoc(ReadDigits(a), Pow10(|b'|));
    }
  }

  lemma MulAssoc(a: nat, p: nat)
    ensures 10 * (a * p) == a * (10 * p)
  {
  }

  lemma {:induction false} ZerosRead(n: nat)
    ensures AllDigits(Zeros(n)) && ReadDigits(Zeros(n)) == 0
  {
    if n > 0 {
      ZerosRead(n - 1);
      assert Zeros(n)[..n - 1] == Zeros(n - 1);
    }
  }

  lemma {:induction false} DigitsShort(n: nat, decimals: nat)
    requires 0 < decimals && n < Pow10(decimals)
    ensures |Digits(n)| <= decimals
  {
    if n >= 10 {
      assert decimals > 1;
      DigitsShort(n / 10, decimals - 1);
    }
  }

  /** Trimming keeps the value at a fixed scale, and leaves no trailing zero. */
  lemma {:induction false} TrimKeepsValue(s: string, decimals: nat)
    requires AllDigits(s) && |s| <= decimals
    ensures var t := TrimZeros(s);
            && AllDigits(t) && |t| <= |s| && (t != [] ==> t[|t| - 1] != '0')
            && ReadDigits(t) * Pow10(decimals - |t|) == ReadDigits(s) * Pow10(decimals - |s|)
    decreases |s|
  {
    if s != [] && s[|s| - 1] == '0' {
      var s' := s[..|s| - 1];
      TrimKeepsValue(s', decimals);
      ScaleTen(ReadDigits(s'), decimals - |s|);
      assert DigitValue('0') == 0;
      assert ReadDigits(s) == 10 * ReadDigits(s');
    }
  }

  lemma ScaleTen(a: nat, k: nat)
    ensures (10 * a) * Pow10(k) == a * Pow10(k + 1)
  {
    MulAssoc(a, Pow10(k));
    assert (10 * a) * Pow10(k) == 10 * (a * Pow10(k)) by { MulSwap(a, Pow10(k)); }
  }

  lemma MulSwap(a: nat, p: nat)
    ensures (10 * a) * p == 10 * (a * p)
  {
  }

  lemma MulZero(p: nat)
    ensures 0 * p == 0
  {
  }

  lemma PrefixDot(a: string, b: string)
    requires AllDigits(a)
    ensures DotAt(a + "." + b) == |a|
    ensures DotAt(a) == |a|
  {
    var s := a + "." + b;
    assert s[|a|] == '.';
    forall k | 0 <= k < |a| ensures s[k] != '.' && a[k] != '.' { assert IsDigit(a[k]); }
  }

  lemma ShowReads(v: nat, decimals: nat)
    ensures ReadUnsigned(Show(v), decimals) == Value(v * Pow10(decimals))
  {
    hide Digits;
    DigitsRead(v);
    PrefixDot(Show(v), []);
    var s := Show(v);
    assert s[..|s|] == s;
    assert ReadDigits([]) == 0;
    MulZero(Pow10(decimals));
  }

  lemma DottedReads(whole: nat, frac: string, decimals: nat)
    requires AllDigits(frac) && 0 < |frac| <= decimals
    ensures ReadUnsigned(Show(whole) + "." + frac, decimals)
         == Value(whole * Pow10(decimals) + ReadDigits(frac) * Pow10(decimals - |frac|))
  {
    var s := Show(whole) + "." + frac;
    hide Digits, ReadDigits, Pow10;
    DigitsRead(whole);
    PrefixDot(Show(whole), frac);
    assert s[..|Show(whole)|] == Show(whole) && s[|Show(whole)| + 1..] == frac;
  }

  /** The padded fraction reads as the remainder. */
  lemma PaddedReads(frac: nat, decimals: nat)
    requires 0 < frac < Pow10(decimals) && decimals > 0
    ensures var padded := (if |Digits(frac)| < decimals then Zeros(decimals - |Digits(frac)|) + Digits(frac) else Digits(frac));
            AllDigits(padded) && |padded| == decimals && ReadDigits(padded) == frac
  {
    hide Digits, ReadDigits, Zeros;
    DigitsRead(frac);
    DigitsShort(frac, decimals);
    if |Digits(frac)| < decimals {
      ZerosRead(decimals - |Digits(frac)|);
      ReadConcat(Zeros(decimals - |Digits(frac)|), Digits(frac));
      MulZero(Pow10(|Digits(frac)|));
    }
  }

  /** The printed fraction: its value at full scale is the remainder, and it ends in a non-zero digit. */
  function Fraction(frac: nat, decimals: nat): string {
    TrimZeros(if |Digits(frac)| < decimals then Zeros(decimals - |Digits(frac)|) + Digits(frac) else Digits(frac))
  }

  lemma FractionReads(frac: nat, decimals: nat)
    requires 0 < frac < Pow10(decimals) && decimals > 0
    ensures var t := Fraction(frac, decimals);
            && AllDigits(t) && 0 < |t| <= decimals && t[|t| - 1] != '0'
            && ReadDigits(t) * Pow10(decimals - |t|) == frac
  {
    hide Digits, Zeros, TrimZeros;
    PaddedReads(frac, decimals);
    var padded := if |Digits(frac)| < decimals then Zeros(decimals - |Digits(frac)|) + Digits(frac) else Digits(frac);
    TrimKeepsValue(padded, decimals);
    var t := TrimZeros(padded);
    assert Pow10(decimals - |padded|) == 1;
    if t == [] {
      assert ReadDigits(t) == 0;
      MulZero(Pow10(decimals - |t|));
    }
  }

  /** The printed form of an amount with a fraction. */
  lemma FormatShape(v: int, decimals: nat)
    requires decimals > 0 && Rem(v, decimals) != 0
    ensures FormatUnits(v, decimals)
         == (if v < 0 then "-" else "") + (Show(Quo(v, decimals)) + "." + Fraction(Rem(v, decimals), decimals))
  {
    hide Digits, Zeros, TrimZeros, Quo, Rem;
    var w, tail := Quo(v, decimals), "." + Fraction(Rem(v, decimals), decimals);
    if v < 0 {
      assert ("-" + Show(w)) + tail == "-" + (Show(w) + tail);
    } else {
      assert "" + (Show(w) + tail) == Show(w) + tail;
    }
  }

  /** The printed form of a whole amount. */
  lemma FormatWhole(v: int, decimals: nat)
    requires decimals == 0 || Rem(v, decimals) == 0
    ensures FormatUnits(v, decimals) == (if v < 0 then "-" else "") + Show(Quo(v, decimals))
  {
    hide Digits, Quo, Rem, Pow10;
    QuoRem(v, decimals);
    assert "" + Show(Quo(v, decimals)) == Show(Quo(v, decimals));
  }

  lemma QuoRem(v: int, decimals: nat)
    ensures Quo(v, decimals) * Pow10(decimals) + Rem(v, decimals) == Abs(v)
    ensures Rem(v, decimals) < Pow10(decimals)
    ensures decimals == 0 ==> Quo(v, decimals) == Abs(v) && Rem(v, decimals) == 0
    ensures Rem(v, decimals) == 0 && v != 0 ==> Quo(v, decimals) > 0
  {
    DivMod(Abs(v), Pow10(decimals));
    MulZero(Pow10(decimals));
  }

  /** A leading minus negates. */
  lemma ReadNegative(s: string, decimals: nat, v: int)
    requires ReadUnsigned(s, decimals) == Value(v)
    ensures Read("-" + s, decimals) == Value(-v)
  {
    assert ("-" + s)[0] == '-' && ("-" + s)[1..] == s;
  }

  lemma DivMod(m: nat, d: nat)
    requires d > 0
    ensures (m / d) * d + m % d == m
  {
  }

  /** Printing an amount and reading it back at the same scale gives the amount: every integer, every scale. */
  lemma FormatReads(v: int, decimals: nat)
    ensures Read(FormatUnits(v, decimals), decimals) == Value(v)
  {
    hide Show, Pow10, FormatUnits, Read, ReadUnsigned, Fraction, ReadDigits, TrimZeros, Quo, Rem;
    var w, frac := Quo(v, decimals), Rem(v, decimals);
    QuoRem(v, decimals);
    if decimals == 0 || frac == 0 {
      FormatWhole(v, decimals);
      ShowReads(w, decimals);
      ReadSigned(v, Show(w), decimals);
    } else {
      FormatShape(v, decimals);
      FractionalReads(v, w, frac, decimals);
    }
  }

  lemma FractionalReads(v: int, w: nat, frac: nat, decimals: nat)
    requires decimals > 0 && 0 < frac < Pow10(decimals) && Abs(v) == w * Pow10(decimals) + frac
    ensures Read((if v < 0 then "-" else "") + (Show(w) + "." + Fraction(frac, decimals)), decimals) == Value(v)
  {
    hide Show, Pow10, Read, ReadUnsigned, Fraction, ReadDigits, TrimZeros;
    FractionReads(frac, decimals);
    var t := Fraction(frac, decimals);
    DottedReads(w, t, decimals);
    ReadSigned(v, Show(w) + "." + t, decimals);
  }

  /** Reading the signed form of a string that reads as |v|. */
  lemma ReadSigned(v: int, s: string, decimals: nat)
    requires ReadUnsigned(s, decimals) == Value(Abs(v))
    ensures Read((if v < 0 then "-" else "") + s, decimals) == Value(v)
  {
    if v < 0 {
      ReadNegative(s, decimals, Abs(v));
    } else {
      assert "" + s == s;
      if s != [] && s[0] == '-' { MinusUnreadable(s, decimals); }
    }
  }

  lemma MinusUnreadable(s: string, decimals: nat)
    requires s != [] && s[0] == '-'
    ensures ReadUnsigned(s, decimals).Malformed?
  {
    var i := DotAt(s);
    assert s[..i][0] == '-';
  }

  /** A printed fraction has at most `decimals` digits and no trailing zero; a whole amount has no point. */
  lemma FormatCanonical(v: int, decimals: nat)
    ensures var s := FormatUnits(v, decimals);
            var i := DotAt(s);
            && (i < |s| <==> decimals > 0 && Rem(v, decimals) != 0)
            && (i < |s| ==> i + 1 < |s| <= i + 1 + decimals && s[|s| - 1] != '0')
  {
    hide Show, FormatUnits, Fraction, TrimZeros, Pow10, Quo, Rem;
    var w, frac := Quo(v, decimals), Rem(v, decimals);
    QuoRem(v, decimals);
    ShownDigits(w);
    if decimals == 0 || frac == 0 {
      FormatWhole(v, decimals);
      SignedDot(v, Show(w));
    } else {
      FormatShape(v, decimals);
      FractionDots(w, frac, decimals);
      SignedDot(v, Show(w) + "." + Fraction(frac, decimals));
    }
  }

  lemma FractionDots(w: nat, frac: nat, decimals: nat)
    requires decimals > 0 && 0 < frac < Pow10(decimals)
    ensures var s := Show(w) + "." + Fraction(frac, decimals);
            DotAt(s) + 1 < |s| <= DotAt(s) + 1 + decimals && s[|s| - 1] != '0'
  {
    hide Show, Fraction, ReadDigits, TrimZeros, Pow10, Digits;
    ShownDigits(w);
    FractionReads(frac, decimals);
    PrefixDot(Show(w), Fraction(frac, decimals));
  }

  lemma ShownDigits(n: nat)
    ensures AllDigits(Show(n)) && Show(n) != [] && DotAt(Show(n)) == |Show(n)|
  {
    DigitsRead(n);
    PrefixDot(Show(n), []);
  }

  lemma SignedDot(v: int, s: string)
    ensures var r := (if v < 0 then "-" else "") + s;
            |r| - DotAt(r) == |s| - DotAt(s) && (s != [] ==> r[|r| - 1] == s[|s| - 1])
  {
    MinusDot(s);
    assert "" + s == s;
  }

  lemma MinusDot(s: string)
    ensures DotAt("-" + s) == 1 + DotAt(s)
  {
    assert ("-" + s)[1..] == s;
  }

  // ---------------------------------------------------------------- log values

  lemma {:induction false} TrimAfterDot(a: string, b: string)
    ensures TrimZeros(a + "." + b) == a + "." + TrimZeros(b)
    decreases |b|
  {
    var s := a + "." + b;
    if b == [] {
      assert s[|s| - 1] == '.';
    } else {
      assert s[|s| - 1] == b[|b| - 1];
      if b[|b| - 1] == '0' {
        assert s[..|s| - 1] == a + "." + b[..|b| - 1];
        TrimAfterDot(a, b[..|b| - 1]);
      }
    }
  }

  lemma {:induction false} ReadBelow(s: string)
    requires AllDigits(s)
    ensures ReadDigits(s) < Pow10(|s|)
  {
    if s != [] { ReadBelow(s[..|s| - 1]); }
  }

  lemma {:induction false} Pow10Add(a: nat, b: nat)
    ensures Pow10(a + b) == Pow10(a) * Pow10(b)
  {
    if a > 0 {
      Pow10Add(a - 1, b);
      MulSwap(Pow10(a - 1), Pow10(b));
    }
  }

  lemma MulLess(x: nat, y: nat, p: nat)
    requires x < y && p > 0
    ensures x * p < y * p
  {
  }

  lemma Distribute(a: nat, b: nat, c: nat, p: nat)
    ensures (a * b + c) * p == a * (b * p) + c * p
  {
  }

  /** Cutting a fraction after six digits loses less than one unit of the sixth. */
  lemma CutLoses(t: string, decimals: nat)
    requires AllDigits(t) && 6 < |t| <= decimals
    ensures var kept, full := ReadDigits(t[..6]) * Pow10(decimals - 6), ReadDigits(t) * Pow10(decimals - |t|);
            kept <= full < kept + Pow10(decimals - 6)
  {
    hide ReadDigits, Pow10;
    var a, b := t[..6], t[6..];
    assert t == a + b;
    ReadConcat(a, b);
    ReadBelow(b);
    var p := Pow10(decimals - |t|);
    Pow10Add(|b|, decimals - |t|);
    Distribute(ReadDigits(a), Pow10(|b|), ReadDigits(b), p);
    MulLess(ReadDigits(b), Pow10(|b|), p);
  }

  /** What a log value reads as, for a fraction `t` of a whole part `w`. */
  lemma LogValueReads(w: nat, t: string, decimals: nat)
    requires AllDigits(t) && 0 < |t| <= decimals && t[|t| - 1] != '0'
    ensures var kept := if |t| > 6 then t[..6] else t;
            Read(LogValue(Show(w) + "." + t), decimals)
            == Value(w * Pow10(decimals) + ReadDigits(kept) * Pow10(decimals - |kept|))
  {
    hide Show, Read, ReadUnsigned, ReadDigits, Pow10, TrimZeros;
    var kept := if |t| > 6 then t[..6] else t;
    var u := TrimZeros(kept);
    LogValueShape(w, t);
    TrimKeepsValue(kept, decimals);
    if u == [] {
      EmptyReads();
      MulZero(Pow10(decimals - |u|));
      ShowReads(w, decimals);
      ReadSigned(w * Pow10(decimals), Show(w), decimals);
      assert "" + Show(w) == Show(w);
    } else {
      DottedReads(w, u, decimals);
      var r := w * Pow10(decimals) + ReadDigits(u) * Pow10(decimals - |u|);
      ReadSigned(r, Show(w) + "." + u, decimals);
      assert "" + (Show(w) + "." + u) == Show(w) + "." + u;
    }
  }

  /** Cut to six decimals, trailing zeros and then a trailing point dropped. */
  lemma LogValueShape(w: nat, t: string)
    requires AllDigits(t)
    ensures var u := TrimZeros(if |t| > 6 then t[..6] else t);
            LogValue(Show(w) + "." + t) == if u == [] then Show(w) else Show(w) + "." + u
  {
    hide Show, TrimZeros, Digits;
    var kept := if |t| > 6 then t[..6] else t;
    var s, i := Show(w) + "." + t, |Show(w)|;
    ShownDigits(w);
    PrefixDot(Show(w), t);
    assert (if |s| > i + 7 then s[..i + 7] else s) == Show(w) + "." + kept;
    TrimAfterDot(Show(w), kept);
    TrimKeepsValue(kept, |kept|);
    var u := TrimZeros(kept);
    var trimmed := Show(w) + "." + u;
    if u == [] {
      assert trimmed[|trimmed| - 1] == '.' && trimmed[..|trimmed| - 1] == Show(w);
    } else {
      assert trimmed[|trimmed| - 1] == u[|u| - 1] && IsDigit(u[|u| - 1]);
    }
  }

  lemma EmptyReads()
    ensures ReadDigits([]) == 0
  {
  }

  /**
   The log form of a non-negative amount reads as an amount that never exceeds it and differs by less than
   a millionth of a whole unit; up to six decimals nothing is lost.
   */
  lemma LogValueClose(v: nat, decimals: nat)
    ensures var r := Read(LogValue(FormatUnits(v, decimals)), decimals);
            && r.Value? && r.v <= v
            && (decimals <= 6 ==> r.v == v)
            && (decimals > 6 ==> v < r.v + Pow10(decimals - 6))
  {
    hide Show, TrimZeros, Fraction, ReadDigits, Read, LogValue, Pow10, FormatUnits, Quo, Rem;
    var w, frac := Quo(v, decimals), Rem(v, decimals);
    QuoRem(v, decimals);
    if decimals == 0 || frac == 0 {
      FormatReads(v, decimals);
      WholeLogs(v, decimals);
    } else {
      FormatShape(v, decimals);
      FractionReads(frac, decimals);
      var t := Fraction(frac, decimals);
      assert "" + (Show(w) + "." + t) == Show(w) + "." + t;
      LogValueReads(w, t, decimals);
      if |t| > 6 { CutLoses(t, decimals); }
    }
  }

  lemma WholeLogs(v: nat, decimals: nat)
    requires decimals == 0 || Rem(v, decimals) == 0
    ensures LogValue(FormatUnits(v, decimals)) == FormatUnits(v, decimals)
  {
    hide FormatUnits, Rem, Pow10;
    FormatCanonical(v, decimals);
  }
}
