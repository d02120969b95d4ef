/** The decimal conversions the operator stores in annotations: `strconv.Itoa` and `strconv.Atoi`
    on 64-bit integers, with Atoi's syntax error, its range error, and the saturated value
    that accompanies a range error. */
module Strconv {

  const MAX_INT: int := 0x7FFF_FFFF_FFFF_FFFF
  const MAX_UINT: int := 0xFFFF_FFFF_FFFF_FFFF

  function DigitChar(d: nat): char
    requires d < 10
  {
    '0' + d as char
  }

  predicate IsDigit(c: char) {
    '0' <= c <= '9'
  }

  function DigitValue(c: char): nat
    requires IsDigit(c)
  {
    (c - '0') as int
  }

  function NatText(n: nat): string {
    if n < 10 then [DigitChar(n)] else NatText(n / 10) + [DigitChar(n % 10)]
  }

  function Itoa(n: int): string {
    if n < 0 then "-" + NatText(-n) else NatText(n)
  }

  /** What scanning a run of digits from the left yields; overflow of the unsigned
      accumulator is noticed before any later bad character. */
  datatype Scan = Number(n: nat) | BadDigit | Overflow

  function ScanDigits(s: string, acc: nat): Scan {
    if s == [] then Number(acc)
    else if !IsDigit(s[0]) then BadDigit
    else
      var next := 10 * acc + DigitValue(s[0]);
      if next > MAX_UINT then Overflow else ScanDigits(s[1..], next)
  }

  datatype Atoi = Parsed(n: int) | SyntaxError | RangeError(n: int) {
    /** The integer Go returns beside the error. */
    function Value(): int {
      match this
      case Parsed(n) => n
      case SyntaxError => 0
      case RangeError(n) => n
    }
  }

  function ParseInt(s: string): Atoi {
    if s == [] then SyntaxError
    else
      var negative := s[0] == '-';
      var body := if s[0] == '-' || s[0] == '+' then s[1..] else s;
      if body == [] then SyntaxError
      else
        match ScanDigits(body, 0)
        case BadDigit => SyntaxError
        case Overflow => RangeError(if negative then -MAX_INT - 1 else MAX_INT)
        case Number(magnitude) =>
          var n: int := magnitude;
          if negative then
            if n > MAX_INT + 1 then RangeError(-MAX_INT - 1) else Parsed(-n)
          else
            if n > MAX_INT then RangeError(MAX_INT) else Parsed(n)
  }

  /** The text is the decimal one: a digit behind a number multiplies it by ten. */
  lemma ItoaIsDecimal(n: nat, d: nat)
    requires d < 10
    ensures Itoa(d) == ["0123456789"[d]]
    ensures n > 0 ==> Itoa(10 * n + d) == Itoa(n) + Itoa(d) && Itoa(0 - n) == "-" + Itoa(n)
  {
  }

  lemma {:induction false} NatTextIsDigits(n: nat)
    ensures |NatText(n)| > 0
    ensures forall i :: 0 <= i < |NatText(n)| ==> IsDigit(NatText(n)[i])
  {
    if n >= 10 {
      NatTextIsDigits(n / 10);
    }
  }

  lemma {:induction false} ScanAppend(s: string, d: nat, acc: nat)
    requires d < 10
    ensures ScanDigits(s, acc).Number? ==>
              var n := 10 * ScanDigits(s, acc).n + d;
              ScanDigits(s + [DigitChar(d)], acc) == if n > MAX_UINT then Overflow else Number(n)
  {
    if s == [] {
      assert s + [DigitChar(d)] == [DigitChar(d)];
    } else {
      assert (s + [DigitChar(d)])[1..] == s[1..] + [DigitChar(d)];
      if IsDigit(s[0]) && 10 * acc + DigitValue(s[0]) <= MAX_UINT {
        ScanAppend(s[1..], d, 10 * acc + DigitValue(s[0]));
      }
    }
  }

  lemma {:induction false} ScanNatText(n: nat)
    requires n <= MAX_UINT
    ensures ScanDigits(NatText(n), 0) == Number(n)
  {
    if n < 10 {
      assert NatText(n)[1..] == [];
    } else {
      ScanNatText(n / 10);
      ScanAppend(NatText(n / 10), n % 10, 0);
    }
  }

  /** What one reconcile writes, the next one reads back. */
  lemma ParseItoa(n: int)
    requires -MAX_INT <= n <= MAX_INT
    ensures ParseInt(Itoa(n)) == Parsed(n)
  {
    var m: nat := if n < 0 then -n else n;
    NatTextIsDigits(m);
    ScanNatText(m);
    assert n < 0 ==> Itoa(n)[1..] == NatText(m);
    assert IsDigit(NatText(m)[0]);
  }

  /** Atoi of an unsigned decimal and of its signed forms: the number, or the nearest integer with an error. */
  lemma ParseReads(n: nat)
    requires n <= MAX_UINT
    ensures ParseInt(NatText(n)) == ParseInt("+" + NatText(n))
    ensures ParseInt(NatText(n)) == if n <= MAX_INT then Parsed(n) else RangeError(MAX_INT)
    ensures ParseInt("-" + NatText(n)) == if n <= MAX_INT + 1 then Parsed(-(n as int)) else RangeError(-MAX_INT - 1)
  {
    NatTextIsDigits(n);
    ScanNatText(n);
    assert ("+" + NatText(n))[1..] == NatText(n) && ("-" + NatText(n))[1..] == NatText(n);
    assert IsDigit(NatText(n)[0]);
  }

  lemma {:induction false} ScanStops(s: string, c: char, rest: string, acc: nat)
    requires !IsDigit(c) && ScanDigits(s, acc).Number?
    ensures ScanDigits(s + [c] + rest, acc) == BadDigit
  {
    if s != [] {
      assert (s + [c] + rest)[1..] == s[1..] + [c] + rest;
      ScanStops(s[1..], c, rest, 10 * acc + DigitValue(s[0]));
    }
  }

  /** Anything behind the digits is a syntax error, which reads as zero; so does a text without digits. */
  lemma OtherTextsAreErrors(n: nat, c: char, rest: string)
    requires n <= MAX_UINT && !IsDigit(c)
    ensures ParseInt(NatText(n) + [c] + rest) == SyntaxError && SyntaxError.Value() == 0
    ensures ParseInt("") == SyntaxError && ParseInt("+") == SyntaxError && ParseInt("-") == SyntaxError
  {
    NatTextIsDigits(n);
    ScanNatText(n);
    ScanStops(NatText(n), c, rest, 0);
    assert (NatText(n) + [c] + rest)[0] == NatText(n)[0];
  }
}
