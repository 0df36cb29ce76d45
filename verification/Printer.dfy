/** The number printer and parser of the small C library, on 64-bit signed values. */
module Printer {

  const MIN_LONG := -0x8000_0000_0000_0000
  const MAX_LONG := 0x7fff_ffff_ffff_ffff

  type long = x: int | MIN_LONG <= x <= MAX_LONG witness 0

  /** 64-bit two's complement. */
  function Wrap(x: int): long {
    (x + 0x8000_0000_0000_0000) % 0x1_0000_0000_0000_0000 - 0x8000_0000_0000_0000
  }

  /** Division and remainder of C, which round toward zero. */
  function Quot(a: int, b: nat): int
    requires b > 0
  {
    if a >= 0 then a / b else -(-a / b)
  }

  function Rem(a: int, b: nat): (r: int)
    requires b > 0
    ensures r < b && r + b > 0 && (a >= 0 ==> r >= 0)
  {
    if a >= 0 then a % b else -(-a % b)
  }

  // ---------- Digits ----------

  function DigitChar(d: int, upper: bool): char
    requires -16 < d < 16
  {
    if d < 10 then ((('0' as int) + d) as char)
    else (((if upper then 'A' else 'a') as int) + d - 10) as char
  }

  /** The digits of v, lowest first. */
  function Low(v: nat, radix: nat, upper: bool): (s: string)
    requires 2 <= radix <= 16
    ensures |s| > 0
    decreases v
  {
    [DigitChar(v % radix, upper)] + (if v / radix > 0 then Low(v / radix, radix, upper) else [])
  }

  function Rev(s: string): (r: string)
    ensures |r| == |s|
  {
    if s == [] then [] else Rev(s[1..]) + [s[0]]
  }

  lemma {:induction false} RevAt(s: string, k: nat)
    requires k < |s|
    ensures Rev(s)[k] == s[|s| - 1 - k]
  {
    if k < |s| - 1 {
      RevAt(s[1..], k);
    }
  }

  lemma {:induction false} RevJoin(s: string, t: string)
    ensures Rev(s + t) == Rev(t) + Rev(s)
  {
    if s == [] {
      assert s + t == t;
      assert Rev(t) + [] == Rev(t);
    } else {
      assert (s + t)[1..] == s[1..] + t && (s + t)[0] == s[0];
      RevJoin(s[1..], t);
    }
  }

  function Zeros(n: int): string {
    if n <= 0 then [] else Zeros(n - 1) + ['0']
  }

  lemma ZerosAt(n: int)
    ensures |Zeros(n)| == (if n <= 0 then 0 else n) && forall i :: 0 <= i < |Zeros(n)| ==> Zeros(n)[i] == '0'
  {
  }

  lemma RevZeros(n: int)
    ensures Rev(Zeros(n)) == Zeros(n)
  {
    ZerosAt(n);
    var z := Zeros(n);
    forall k | 0 <= k < |z|
      ensures Rev(z)[k] == z[k]
    {
      RevAt(z, k);
    }
  }

  /** The value that is printed digit by digit: the least long has no opposite and stays as it is. */
  function Magnitude(value: long, unsig: bool): long {
    var x: int := value;
    if x < 0 && !unsig then Wrap(-x) else value
  }

  /** The characters of the digit loop: all digits, lowest first, or one character for a negative value. */
  function Written(m: long, radix: nat, upper: bool): (s: string)
    requires 2 <= radix <= 16
    ensures |s| > 0
  {
    if m >= 0 then Low(m, radix, upper) else [DigitChar(Rem(m, radix), upper)]
  }

  /** The digits built back to front; a value still negative gives one character. */
  function LowDigits(value: long, radix: nat, upper: bool, unsig: bool): (s: string)
    requires 2 <= radix <= 16
    ensures |s| > 0
  {
    Written(Magnitude(value, unsig), radix, upper)
  }

  /** What is in the buffer before it is reversed. */
  function Built(value: long, radix: nat, upper: bool, unsig: bool, zeroPad: nat): string
    requires 2 <= radix <= 16
  {
    var s := LowDigits(value, radix, upper, unsig);
    s + Zeros(zeroPad - |s|) + (if value < 0 && !unsig then ['-'] else [])
  }

  /** What mini_itoa prints. */
  function Text(value: long, radix: nat, upper: bool, unsig: bool, zeroPad: nat): string
    requires 2 <= radix <= 16
  {
    Rev(Built(value, radix, upper, unsig, zeroPad))
  }

  // ---------- atol ----------

  function Digit(c: char, base: nat): int {
    if '0' <= c <= '9' then c as int - '0' as int
    else if base == 16 && 'a' <= c <= 'f' then c as int - 'a' as int + 10
    else if base == 16 && 'A' <= c <= 'F' then c as int - 'A' as int + 10
    else -1
  }

  predicate AllDigits(s: string, base: nat) {
    forall i :: 0 <= i < |s| ==> Digit(s[i], base) >= 0
  }

  /** The number that the digits say, in 64 bits. */
  function Number(s: string, base: nat): long {
    if s == [] then 0 else Wrap(Number(s[..|s| - 1], base) * base + Digit(s[|s| - 1], base))
  }

  predicate Hex(s: string) {
    |s| >= 2 && s[0] == '0' && (s[1] == 'x' || s[1] == 'X')
  }

  /** What atol returns for the characters before the terminating 0. */
  function Atol(s: string): long {
    var base := if Hex(s) then 16 else 10;
    var t := if Hex(s) then s[2..] else s;
    if AllDigits(t, base) then Number(t, base) else 0
  }

  // ---------- They undo each other ----------

  lemma DigitOfChar(d: nat, radix: nat, upper: bool)
    requires d < radix && (radix == 10 || radix == 16)
    ensures Digit(DigitChar(d, upper), radix) == d
  {
  }

  lemma WrapIs(x: int)
    requires MIN_LONG <= x <= MAX_LONG
    ensures Wrap(x) == x
  {
  }

  lemma {:induction false} LowDigitsValid(v: nat, radix: nat, upper: bool)
    requires radix == 10 || radix == 16
    ensures forall i :: 0 <= i < |Low(v, radix, upper)| ==> Digit(Low(v, radix, upper)[i], radix) >= 0
    decreases v
  {
    DigitOfChar(v % radix, radix, upper);
    if v / radix > 0 {
      LowDigitsValid(v / radix, radix, upper);
    }
  }

  lemma NumberSnoc(t: string, c: char, base: nat)
    ensures Number(t + [c], base) == Wrap(Number(t, base) * base + Digit(c, base))
  {
    assert (t + [c])[..|t|] == t;
  }

  lemma LowStep(v: nat, radix: nat, upper: bool)
    requires 2 <= radix <= 16
    ensures Rev(Low(v, radix, upper)) ==
      (if v / radix > 0 then Rev(Low(v / radix, radix, upper)) else []) + [DigitChar(v % radix, upper)]
  {
    var s := Low(v, radix, upper);
    assert s[1..] == if v / radix > 0 then Low(v / radix, radix, upper) else [];
  }

  /** Reading the digits from the front, behind any number of zeros, gives the value back. */
  lemma {:induction false} NumberOfText(v: nat, radix: nat, upper: bool, n: int)
    requires (radix == 10 || radix == 16) && v <= MAX_LONG
    ensures Number(Zeros(n) + Rev(Low(v, radix, upper)), radix) == v
    decreases v
  {
    hide Rev, Low, Zeros, Number, Digit, DigitChar, Wrap;
    var z, q, c := Zeros(n), v / radix, DigitChar(v % radix, upper);
    LowStep(v, radix, upper);
    DigitOfChar(v % radix, radix, upper);
    assert v == q * radix + v % radix && q <= v;
    WrapIs(v);
    if q > 0 {
      var t := Rev(Low(q, radix, upper));
      assert z + (t + [c]) == (z + t) + [c];
      NumberSnoc(z + t, c, radix);
      NumberOfText(q, radix, upper, n);
    } else {
      assert z + ([] + [c]) == z + [c];
      NumberSnoc(z, c, radix);
      NumberOfZeros(n, radix);
    }
  }

  lemma {:induction false} NumberOfZeros(n: int, base: nat)
    ensures Number(Zeros(n), base) == 0
    decreases if n <= 0 then 0 else n
  {
    if n > 0 {
      var z := Zeros(n);
      assert z[..|z| - 1] == Zeros(n - 1);
      NumberOfZeros(n - 1, base);
      WrapIs(0);
    }
  }

  /** The text of a value that is not negative: zeros, then its digits. */
  lemma TextOf(v: long, radix: nat, upper: bool, unsig: bool, zeroPad: nat)
    requires 2 <= radix <= 16 && v >= 0
    ensures (var s := Low(v, radix, upper); Text(v, radix, upper, unsig, zeroPad) == Zeros(zeroPad - |s|) + Rev(s))
  {
    var s := Low(v, radix, upper);
    var z := Zeros(zeroPad - |s|);
    assert Built(v, radix, upper, unsig, zeroPad) == s + z;
    RevJoin(s, z);
    RevZeros(zeroPad - |s|);
  }

  lemma TextDigits(v: long, radix: nat, upper: bool, unsig: bool, zeroPad: nat)
    requires (radix == 10 || radix == 16) && v >= 0
    ensures AllDigits(Text(v, radix, upper, unsig, zeroPad), radix)
  {
    hide Rev, Low, Zeros, Built;
    var s := Low(v, radix, upper);
    TextOf(v, radix, upper, unsig, zeroPad);
    LowDigitsValid(v, radix, upper);
    RevDigits(s, radix);
    ZerosDigits(zeroPad - |s|, radix);
  }

  lemma RevDigits(s: string, base: nat)
    requires AllDigits(s, base)
    ensures AllDigits(Rev(s), base)
  {
    hide Rev, Digit;
    forall k | 0 <= k < |s|
      ensures Digit(Rev(s)[k], base) >= 0
    {
      RevAt(s, k);
    }
  }

  lemma ZerosDigits(n: int, base: nat)
    ensures AllDigits(Zeros(n), base)
  {
    hide Zeros;
    ZerosAt(n);
  }

  /** Decimal: atol gives back what mini_itoa printed exactly when that was not negative, with any padding. */
  lemma DecimalRoundTrip(v: long, unsig: bool, upper: bool, zeroPad: nat)
    ensures Atol(Text(v, 10, upper, unsig, zeroPad)) == v <==> v >= 0
  {
    hide Rev, Low, Built, Zeros, Number, AllDigits, Text;
    var t := Text(v, 10, upper, unsig, zeroPad);
    if v >= 0 {
      TextDigits(v, 10, upper, unsig, zeroPad);
      TextOf(v, 10, upper, unsig, zeroPad);
      NumberOfText(v, 10, upper, zeroPad - |Low(v, 10, upper)|);
      NoHex(t);
    } else if unsig {
      NegativeBits(v, upper, zeroPad);
    } else {
      NegativeSign(v, upper, zeroPad);
    }
  }

  lemma NoHex(t: string)
    requires AllDigits(t, 10)
    ensures !Hex(t)
  {
  }

  /** A negative value prints a sign, which atol does not know. */
  lemma NegativeSign(v: long, upper: bool, zeroPad: nat)
    requires v < 0
    ensures Atol(Text(v, 10, upper, false, zeroPad)) == 0
  {
    hide Rev, LowDigits, Zeros, Number;
    var b := Built(v, 10, upper, false, zeroPad);
    RevAt(b, 0);
    assert Digit(Rev(b)[0], 10) < 0;
  }

  /** As an unsigned number it prints one character that is no digit, or 0. */
  lemma NegativeBits(v: long, upper: bool, zeroPad: nat)
    requires v < 0
    ensures Atol(Text(v, 10, upper, true, zeroPad)) == 0
  {
    hide Rev, Zeros, Number, Digit;
    var z, c := Zeros(zeroPad - 1), DigitChar(Rem(v, 10), upper);
    OneChar(v, 10, upper, zeroPad);
    ZerosAt(zeroPad - 1);
    NotLetter(v, upper);
    LastNotHex(z + [c]);
    if Digit(c, 10) >= 0 {
      NumberSnoc(z, c, 10);
      NumberOfZeros(zeroPad - 1, 10);
      WrapIs(0);
    } else {
      assert (z + [c])[|z|] == c;
    }
  }

  lemma OneChar(v: long, radix: nat, upper: bool, zeroPad: nat)
    requires 2 <= radix <= 16 && v < 0
    ensures Text(v, radix, upper, true, zeroPad) == Zeros(zeroPad - 1) + [DigitChar(Rem(v, radix), upper)]
  {
    hide Zeros, Rev, Rem, DigitChar;
    var z, c := Zeros(zeroPad - 1), DigitChar(Rem(v, radix), upper);
    assert Built(v, radix, upper, true, zeroPad) == [c] + z;
    RevJoin([c], z);
    RevZeros(zeroPad - 1);
    RevOne(c);
  }

  lemma RevOne(c: char)
    ensures Rev([c]) == [c]
  {
  }

  lemma NotLetter(v: long, upper: bool)
    requires v < 0
    ensures var c := DigitChar(Rem(v, 10), upper); c != 'x' && c != 'X' && Digit(c, 10) <= 0
  {
  }

  lemma LastNotHex(t: string)
    requires |t| > 0 && t[|t| - 1] != 'x' && t[|t| - 1] != 'X' && forall i :: 0 <= i < |t| - 1 ==> t[i] == '0'
    ensures !Hex(t)
  {
  }

  /** Hexadecimal, with its prefix: always, in either letter case. */
  lemma HexRoundTrip(v: long, upper: bool, zeroPad: nat)
    requires v >= 0
    ensures Atol("0x" + Text(v, 16, upper, true, zeroPad)) == v
  {
    hide Rev, Low, Built, Zeros, Number, AllDigits, Text;
    var t := Text(v, 16, upper, true, zeroPad);
    var s := "0x" + t;
    assert s[2..] == t && Hex(s);
    TextDigits(v, 16, upper, true, zeroPad);
    TextOf(v, 16, upper, true, zeroPad);
    NumberOfText(v, 16, upper, zeroPad - |Low(v, 16, upper)|);
  }

  /** The number that decimal digits say, without any bound. */
  function Value(s: string): int {
    if s == [] then 0 else Value(s[..|s| - 1]) * 10 + Digit(s[|s| - 1], 10)
  }

  lemma {:induction false} ValuePositive(s: string)
    requires AllDigits(s, 10)
    ensures Value(s) >= 0 && (s != [] && s[0] != '0' ==> Value(s) > 0)
  {
    if s != [] {
      ValuePositive(s[..|s| - 1]);
    }
  }

  lemma {:induction false} NumberIsValue(s: string)
    requires AllDigits(s, 10) && Value(s) <= MAX_LONG
    ensures Number(s, 10) == Value(s)
  {
    ValuePositive(s);
    if s != [] {
      ValuePositive(s[..|s| - 1]);
      NumberIsValue(s[..|s| - 1]);
      WrapIs(Value(s));
    }
  }

  lemma CharOfDigit(c: char, upper: bool)
    requires Digit(c, 10) >= 0
    ensures DigitChar(Digit(c, 10), upper) == c && Digit(c, 10) < 10
  {
  }

  lemma {:induction false} LowOfValue(s: string, upper: bool)
    requires AllDigits(s, 10) && s != [] && (s[0] != '0' || |s| == 1)
    ensures Value(s) >= 0 && Rev(Low(Value(s), 10, upper)) == s
  {
    hide Rev, Low, Digit, DigitChar;
    ValuePositive(s);
    var t, c := s[..|s| - 1], s[|s| - 1];
    assert s == t + [c];
    ValuePositive(t);
    CharOfDigit(c, upper);
    var d := Digit(c, 10);
    assert Value(s) / 10 == Value(t) && Value(s) % 10 == d;
    LowStep(Value(s), 10, upper);
    if t != [] {
      LowOfValue(t, upper);
    } else {
      assert [] + [c] == s;
    }
  }

  /** The other way round: digits without needless zeros, read by atol, are printed as they were. */
  lemma PrintedAsRead(s: string, unsig: bool, upper: bool)
    requires AllDigits(s, 10) && s != [] && (s[0] != '0' || |s| == 1) && Value(s) <= MAX_LONG
    ensures Text(Atol(s), 10, upper, unsig, 0) == s
  {
    hide Rev, Low, Digit, Built, Zeros, Number, Value;
    NoHex(s);
    ValuePositive(s);
    NumberIsValue(s);
    LowOfValue(s, upper);
    var v := Value(s);
    TextOf(v, 10, upper, unsig, 0);
    NoZeros(0 - |Low(v, 10, upper)|);
    assert [] + s == s;
  }

  lemma NoZeros(n: int)
    requires n <= 0
    ensures Zeros(n) == []
  {
  }

  // ---------- What the reader of the text sees ----------

  /** The worth of a character as a digit, in either letter case. */
  function Worth(c: char): int {
    if '0' <= c <= '9' then c as int - 48
    else if 'A' <= c <= 'F' then c as int - 55
    else if 'a' <= c <= 'f' then c as int - 87
    else -1
  }

  /** A digit of the radix, a letter being of the case asked for. */
  predicate DigitOf(c: char, radix: nat, upper: bool) {
    0 <= Worth(c) < radix && ('a' <= c <= 'f' ==> !upper) && ('A' <= c <= 'F' ==> upper)
  }

  predicate DigitsOf(s: string, radix: nat, upper: bool) {
    forall i :: 0 <= i < |s| ==> DigitOf(s[i], radix, upper)
  }

  /** The number that a text means in a radix. */
  function Meaning(s: string, radix: nat): int {
    if s == [] then 0 else Meaning(s[..|s| - 1], radix) * radix + Worth(s[|s| - 1])
  }

  lemma MeaningSnoc(t: string, c: char, radix: nat)
    ensures Meaning(t + [c], radix) == Meaning(t, radix) * radix + Worth(c)
  {
    assert (t + [c])[..|t|] == t;
  }

  lemma {:induction false} MeaningOfZeros(n: int, radix: nat)
    requires radix >= 2
    ensures Meaning(Zeros(n), radix) == 0
    decreases if n <= 0 then 0 else n
  {
    hide Meaning;
    if n > 0 {
      MeaningOfZeros(n - 1, radix);
      MeaningSnoc(Zeros(n - 1), '0', radix);
    } else {
      MeaningNone(radix);
    }
  }

  lemma MeaningNone(radix: nat)
    ensures Meaning([], radix) == 0
  {
  }

  lemma CharIsDigit(d: nat, radix: nat, upper: bool)
    requires d < radix <= 16
    ensures DigitOf(DigitChar(d, upper), radix, upper) && Worth(DigitChar(d, upper)) == d
  {
  }

  lemma Divided(v: nat, radix: nat)
    requires radix >= 2
    ensures v == v / radix * radix + v % radix && v / radix <= v && v % radix < radix
    ensures v > 0 ==> v / radix < v
  {
    var q := v / radix;
    assert v == radix * q + v % radix;
    if q > 0 {
      assert radix * q >= 2 * q;
    }
  }

  lemma MeaningAppend(t: string, c: char, radix: nat, v: nat)
    requires radix >= 2 && Meaning(t, radix) == v / radix && Worth(c) == v % radix
    ensures Meaning(t + [c], radix) == v
  {
    hide Meaning, Worth;
    MeaningSnoc(t, c, radix);
    Divided(v, radix);
  }

  /** The digits of v behind zeros mean v. */
  lemma {:induction false} DigitsMean(v: nat, radix: nat, upper: bool, n: int)
    requires 2 <= radix <= 16
    ensures Meaning(Zeros(n) + Rev(Low(v, radix, upper)), radix) == v
    decreases v
  {
    hide Rev, Low, Zeros, Meaning, DigitOf, DigitChar, Worth;
    var z, q, c := Zeros(n), v / radix, DigitChar(v % radix, upper);
    LowStep(v, radix, upper);
    CharIsDigit(v % radix, radix, upper);
    Divided(v, radix);
    if q > 0 {
      var t := Rev(Low(q, radix, upper));
      assert z + (t + [c]) == (z + t) + [c];
      DigitsMean(q, radix, upper, n);
      MeaningAppend(z + t, c, radix, v);
    } else {
      assert z + ([] + [c]) == z + [c];
      MeaningOfZeros(n, radix);
      MeaningAppend(z, c, radix, v);
    }
  }

  /** They are digits of the radix in the case asked for, and the first is 0 only when v is. */
  lemma {:induction false} DigitsLook(v: nat, radix: nat, upper: bool)
    requires 2 <= radix <= 16
    ensures (var s := Rev(Low(v, radix, upper));
      s != [] && (s[0] == '0' ==> v == 0 && |s| == 1) && DigitsOf(s, radix, upper))
    decreases v
  {
    hide Rev, Low, DigitOf, DigitChar;
    LowStep(v, radix, upper);
    Divided(v, radix);
    CharIsDigit(v % radix, radix, upper);
    if v / radix > 0 {
      DigitsLook(v / radix, radix, upper);
    } else {
      ZeroChar(v % radix, upper);
    }
  }

  lemma ZeroChar(d: nat, upper: bool)
    requires d < 16
    ensures DigitChar(d, upper) == '0' <==> d == 0
  {
  }

  /** In every radix the text means the value, in digits of the case asked for, and is as short as the padding lets it be. */
  lemma TextMeans(v: long, radix: nat, upper: bool, unsig: bool, zeroPad: nat)
    requires 2 <= radix <= 16 && v >= 0
    ensures (var t := Text(v, radix, upper, unsig, zeroPad);
      Meaning(t, radix) == v && DigitsOf(t, radix, upper) && |t| >= 1 && |t| >= zeroPad &&
      (|t| > zeroPad && |t| > 1 ==> t[0] != '0'))
  {
    hide Rev, Low, Zeros, Built, Meaning, DigitsOf;
    var s := Low(v, radix, upper);
    var n := zeroPad - |s|;
    TextOf(v, radix, upper, unsig, zeroPad);
    DigitsMean(v, radix, upper, n);
    DigitsLook(v, radix, upper);
    ZerosLook(n, radix, upper, Rev(s));
  }

  lemma ZerosLook(n: int, radix: nat, upper: bool, s: string)
    requires radix >= 2 && DigitsOf(s, radix, upper)
    ensures DigitsOf(Zeros(n) + s, radix, upper) && |Zeros(n)| == (if n <= 0 then 0 else n)
  {
    hide Zeros;
    ZerosAt(n);
  }

  /** -n: a sign before the text of n. The least long, and every value printed unsigned, is one character behind zeros. */
  lemma TextBelowZero(n: int, radix: nat, upper: bool, zeroPad: nat)
    requires 2 <= radix <= 16 && 0 < n <= 0x8000_0000_0000_0000
    ensures n <= MAX_LONG ==> Text(-n, radix, upper, false, zeroPad) == "-" + Text(n, radix, upper, false, zeroPad)
    ensures n > MAX_LONG ==> Text(-n, radix, upper, false, zeroPad) == "-" + Text(-n, radix, upper, true, zeroPad)
    ensures Text(-n, radix, upper, true, zeroPad) == Zeros(zeroPad - 1) + [(48 - n % radix) as char]
  {
    hide Zeros, Rev, Low;
    var v: long := -n;
    OneChar(v, radix, upper, zeroPad);
    var w := if n <= MAX_LONG then n else v;
    var b := Built(w, radix, upper, n > MAX_LONG, zeroPad);
    assert Built(v, radix, upper, false, zeroPad) == b + ['-'];
    RevJoin(b, ['-']);
    RevOne('-');
  }

  /** A character that is neither part of the prefix 0x nor a digit, the letters being digits behind that prefix alone. */
  predicate Foreign(s: string) {
    if |s| >= 2 && s[0] == '0' && s[1] in "xX" then exists c :: c in s[2..] && c !in "0123456789abcdefABCDEF"
    else exists c :: c in s && c !in "0123456789"
  }

  lemma DigitInAlphabet(c: char, h: bool)
    requires Digit(c, if h then 16 else 10) >= 0
    ensures c in if h then "0123456789abcdefABCDEF" else "0123456789"
  {
    var n := c as int;
    if h {
      var k := if n < 58 then n - 48 else if n < 71 then n - 49 else n - 87;
      assert "0123456789abcdefABCDEF"[k] == c;
    } else {
      assert "0123456789"[n - 48] == c;
    }
  }

  /** Any other character makes atol return 0. */
  lemma ForeignGivesZero(s: string)
    requires Foreign(s)
    ensures Atol(s) == 0
  {
    hide Number;
    var h := |s| >= 2 && s[0] == '0' && s[1] in "xX";
    var t := if h then s[2..] else s;
    var c :| c in t && c !in (if h then "0123456789abcdefABCDEF" else "0123456789");
    if Digit(c, if h then 16 else 10) >= 0 {
      DigitInAlphabet(c, h);
    }
  }

  // ---------- As they are written ----------

  /** The loop that reverses the first len characters in place. */
  method ReverseInPlace(buffer: array<char>, len: nat)
    requires len <= buffer.Length
    modifies buffer
    ensures buffer[..len] == Rev(old(buffer[..len]))
    ensures forall k :: len <= k < buffer.Length ==> buffer[k] == old(buffer[k])
  {
    for i := 0 to len / 2
      invariant forall k :: 0 <= k < i ==> buffer[k] == old(buffer[len - k - 1]) && buffer[len - k - 1] == old(buffer[k])
      invariant forall k :: i <= k < len - i ==> buffer[k] == old(buffer[k])
      invariant forall k :: len <= k < buffer.Length ==> buffer[k] == old(buffer[k])
    {
      var j := buffer[i];
      buffer[i] := buffer[len - i - 1];
      buffer[len - i - 1] := j;
    }
    ghost var was := old(buffer[..len]);
    forall k | 0 <= k < len
      ensures buffer[k] == Rev(was)[k]
    {
      RevAt(was, k);
    }
  }

  /** The digit loop of mini_itoa; it runs at least once, and once only for a value below zero. */
  method PutDigits(value: long, radix: nat, upper: bool, buffer: array<char>) returns (n: nat)
    requires 2 <= radix <= 16 && |Written(value, radix, upper)| <= buffer.Length
    modifies buffer
    ensures n <= buffer.Length && buffer[..n] == Written(value, radix, upper)
    ensures forall k :: n <= k < buffer.Length ==> buffer[k] == old(buffer[k])
  {
    hide Low, Rem, Quot, DigitChar, Written;
    ghost var all := Written(value, radix, upper);
    WrittenHead(value, radix, upper);
    buffer[0] := DigitChar(Rem(value, radix), upper);
    n := 1;
    var v := Quot(value, radix);
    assert buffer[..1] == [DigitChar(Rem(value, radix), upper)];
    while v > 0
      invariant 1 <= n <= |all| && all == buffer[..n] + Rest(v, radix, upper)
      invariant forall k :: n <= k < buffer.Length ==> buffer[k] == old(buffer[k])
      decreases v
    {
      ghost var before := buffer[..n];
      RestHead(v, radix, upper);
      buffer[n] := DigitChar(Rem(v, radix), upper);
      assert buffer[..n + 1] == before + [DigitChar(Rem(v, radix), upper)];
      n := n + 1;
      v := Quot(v, radix);
    }
  }

  /** The digits still to come. */
  function Rest(v: int, radix: nat, upper: bool): (s: string)
    requires 2 <= radix <= 16
    ensures v > 0 ==> |s| > 0
    ensures v <= 0 ==> s == []
  {
    if v > 0 then Low(v, radix, upper) else []
  }

  lemma RestHead(v: int, radix: nat, upper: bool)
    requires 2 <= radix <= 16 && v > 0
    ensures 0 <= Quot(v, radix) < v
    ensures Rest(v, radix, upper) == [DigitChar(Rem(v, radix), upper)] + Rest(Quot(v, radix), radix, upper)
  {
    QuotLess(v, radix);
  }

  lemma QuotLess(v: int, radix: nat)
    requires 2 <= radix && v > 0
    ensures 0 <= Quot(v, radix) < v
  {
    TwiceLess(v, radix, v / radix);
  }

  lemma TwiceLess(v: int, radix: nat, q: nat)
    requires 2 <= radix && v > 0 && radix * q <= v
    ensures q < v
  {
    assert radix * q >= 2 * q;
  }

  lemma WrittenHead(value: long, radix: nat, upper: bool)
    requires 2 <= radix <= 16
    ensures Written(value, radix, upper) == [DigitChar(Rem(value, radix), upper)] + Rest(Quot(value, radix), radix, upper)
  {
    if value < 0 {
      var m: int := value;
      assert (0 - m) / radix >= 0;
      assert Written(value, radix, upper) + [] == Written(value, radix, upper);
    }
  }

  /** mini_itoa; for a radix over 16 it leaves the buffer alone. */
  method MiniItoa(value: long, radix: nat, upper: bool, unsig: bool, buffer: array<char>, zeroPad: nat) returns (len: nat)
    requires radix >= 2
    requires radix <= 16 ==> |Text(value, radix, upper, unsig, zeroPad)| < buffer.Length
    modifies buffer
    ensures radix > 16 ==> len == 0 && buffer[..] == old(buffer[..])
    ensures radix <= 16 ==>
      len == |Text(value, radix, upper, unsig, zeroPad)| && len < buffer.Length &&
      buffer[..len] == Text(value, radix, upper, unsig, zeroPad) && buffer[len] == '\0' &&
      forall k :: len < k < buffer.Length ==> buffer[k] == old(buffer[k])
  {
    hide Rev, Low;
    if radix > 16 {
      return 0;
    }
    var v, negative := value, false;
    if value < 0 && !unsig {
      negative := true;
      v := Magnitude(value, unsig);
    }
    BuiltLength(value, radix, upper, unsig, zeroPad);
    ghost var digits := LowDigits(value, radix, upper, unsig);
    var n := PutDigits(v, radix, upper, buffer);
    assert buffer[..n] == digits;
    n := PadZeros(buffer, n, zeroPad);
    if negative {
      ghost var before := buffer[..n];
      buffer[n] := '-';
      assert buffer[..n + 1] == before + ['-'];
      n := n + 1;
    } else {
      assert buffer[..n] == buffer[..n] + [];
    }
    assert buffer[..n] == Built(value, radix, upper, unsig, zeroPad);
    buffer[n] := '\0';
    assert buffer[..n] == Built(value, radix, upper, unsig, zeroPad);
    ReverseInPlace(buffer, n);
    len := n;
  }

  lemma BuiltLength(value: long, radix: nat, upper: bool, unsig: bool, zeroPad: nat)
    requires 2 <= radix <= 16
    ensures (var d := |LowDigits(value, radix, upper, unsig)|;
      |Text(value, radix, upper, unsig, zeroPad)| ==
      (if d < zeroPad then zeroPad else d) + (if value < 0 && !unsig then 1 else 0))
  {
    ZerosAt(zeroPad - |LowDigits(value, radix, upper, unsig)|);
  }

  /** The padding loop of mini_itoa. */
  method PadZeros(buffer: array<char>, n: nat, zeroPad: nat) returns (m: nat)
    requires n <= buffer.Length && zeroPad <= buffer.Length
    modifies buffer
    ensures m == if n < zeroPad then zeroPad else n
    ensures buffer[..m] == old(buffer[..n]) + Zeros(zeroPad - n)
    ensures forall k :: m <= k < buffer.Length ==> buffer[k] == old(buffer[k])
  {
    m := n;
    ghost var was := buffer[..n];
    assert buffer[..m] == was + Zeros(m - n);
    while m < zeroPad
      invariant n <= m && (n < zeroPad ==> m <= zeroPad) && (n >= zeroPad ==> m == n)
      invariant buffer[..m] == was + Zeros(m - n)
      invariant forall k :: m <= k < buffer.Length ==> buffer[k] == old(buffer[k])
    {
      ghost var before := buffer[..m];
      buffer[m] := '0';
      assert buffer[..m + 1] == before + ['0'];
      assert was + Zeros(m - n) + ['0'] == was + Zeros(m + 1 - n);
      m := m + 1;
    }
    if n >= zeroPad {
      NoZeros(zeroPad - n);
    }
  }

  /** atol, of a string that ends with 0. */
  method AtolOf(str: string) returns (ret: long)
    requires |str| > 0 && str[|str| - 1] == '\0' && forall i :: 0 <= i < |str| - 1 ==> str[i] != '\0'
    ensures ret == Atol(str[..|str| - 1])
  {
    hide Number, Digit;
    ghost var s := str[..|str| - 1];
    var base, p := 10, 0;
    if str[0] == '0' && (str[1] == 'x' || str[1] == 'X') {
      base := 16;
      p := 2;
    }
    assert base == if Hex(s) then 16 else 10;
    ghost var start := p;
    ghost var t := s[start..];
    assert t == if Hex(s) then s[2..] else s;
    ret := 0;
    assert Number(t[..0], base) == 0 by { NumberNone(t, base); }
    while str[p] != '\0'
      invariant start <= p < |str| && AllDigits(t[..p - start], base) && ret == Number(t[..p - start], base)
      decreases |str| - p
    {
      var c := str[p];
      assert t[p - start] == c;
      assert t[..p + 1 - start] == t[..p - start] + [c];
      NumberSnoc(t[..p - start], c, base);
      DigitCases(c, base);
      if '0' <= c <= '9' {
        ret := Wrap(ret * base + (c as int - '0' as int));
      } else if base == 16 {
        if 'a' <= c <= 'f' {
          ret := Wrap(ret * base + (c as int - 'a' as int + 10));
        } else if 'A' <= c <= 'F' {
          ret := Wrap(ret * base + (c as int - 'A' as int + 10));
        } else {
          return 0;
        }
      } else {
        return 0;
      }
      p := p + 1;
    }
    assert t[..p - start] == t;
  }

  lemma NumberNone(t: string, base: nat)
    ensures Number(t[..0], base) == 0
  {
  }

  lemma DigitCases(c: char, base: nat)
    ensures '0' <= c <= '9' ==> Digit(c, base) == c as int - '0' as int >= 0
    ensures base == 16 && 'a' <= c <= 'f' ==> Digit(c, base) == c as int - 'a' as int + 10 >= 0
    ensures base == 16 && 'A' <= c <= 'F' ==> Digit(c, base) == c as int - 'A' as int + 10 >= 0
    ensures !('0' <= c <= '9') && !(base == 16 && ('a' <= c <= 'f' || 'A' <= c <= 'F')) ==> Digit(c, base) < 0
  {
  }
}
