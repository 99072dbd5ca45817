/**
  Left zero padding of a code before it is handed to the EAN-13 encoder
  (generate.py:183): Python's `str.zfill(12)`.
 */
module Padding {
  import opened Chars

  /** The number of data digits of an EAN-13 code; the encoder adds the
      thirteenth, the check digit. */
  const EanPayloadWidth := 12

  predicate IsSign(c: char)
  {
    c == '+' || c == '-'
  }

  predicate AllDigits(s: string)
  {
    forall i :: 0 <= i < |s| ==> IsDigit(s[i])
  }

  predicate AllZeros(s: string)
  {
    forall i :: 0 <= i < |s| ==> s[i] == '0'
  }

  function Zeros(n: nat): (z: string)
    ensures |z| == n && AllZeros(z)
  {
    seq(n, _ => '0')
  }

  /** Python's `str.zfill(width)`: a string at least `width` long is returned
      as it is; a shorter one is filled with `'0'` on the left up to `width`,
      the zeros going after a leading sign. */
  function ZFill(s: string, width: int): (r: string)
    ensures |r| == if |s| >= width then |s| else width
    ensures |s| >= width ==> r == s
  {
    if |s| >= width then s
    else
      var fill := Zeros(width - |s|);
      if s != [] && IsSign(s[0]) then [s[0]] + fill + s[1..] else fill + s
  }

  /** A shorter sign-free string ends the padded string, and everything
      before it is zeros. */
  lemma ZFillUnsigned(s: string, width: int)
    requires s == [] || !IsSign(s[0])
    requires |s| < width
    ensures var r := ZFill(s, width);
      |r| == width && r[width - |s|..] == s && AllZeros(r[..width - |s|])
  {
    var r := ZFill(s, width);
    assert r == Zeros(width - |s|) + s;
    assert r[..width - |s|] == Zeros(width - |s|);
  }

  /** A shorter signed string keeps its sign first, then zeros, then its
      remaining characters. */
  lemma ZFillSigned(s: string, width: int)
    requires s != [] && IsSign(s[0])
    requires |s| < width
    ensures var r := ZFill(s, width);
      |r| == width && r[0] == s[0] && r[width - |s| + 1..] == s[1..]
      && AllZeros(r[1..width - |s| + 1])
  {
    var r := ZFill(s, width);
    var fill := Zeros(width - |s|);
    assert r == [s[0]] + fill + s[1..];
    assert r[1..width - |s| + 1] == fill;
    assert r[width - |s| + 1..] == s[1..];
  }

  function DigitValue(c: char): (d: nat)
    requires IsDigit(c)
    ensures d < 10
  {
    (c as int) - ('0' as int)
  }

  function Pow10(n: nat): (p: nat)
    ensures p >= 1
  {
    if n == 0 then 1 else 10 * Pow10(n - 1)
  }

  /** The number a string of decimal digits denotes. */
  function Value(s: string): nat
    requires AllDigits(s)
  {
    if s == [] then 0 else DigitValue(s[0]) * Pow10(|s| - 1) + Value(s[1..])
  }

  /** Leading zeros do not change the number a digit string denotes. */
  lemma {:induction false} ZerosPrefixValue(n: nat, s: string)
    requires AllDigits(s)
    ensures AllDigits(Zeros(n) + s) && Value(Zeros(n) + s) == Value(s)
  {
    if n > 0 {
      ZerosPrefixValue(n - 1, s);
      var t := Zeros(n - 1) + s;
      var u := Zeros(n) + s;
      assert u == ['0'] + t;
      assert u[0] == '0' && u[1..] == t;
      assert AllDigits(u) by {
        forall i | 0 <= i < |u| ensures IsDigit(u[i]) {
          if i > 0 { assert u[i] == t[i - 1]; }
        }
      }
      assert DigitValue(u[0]) == 0;
      assert Value(u) == Value(t);
    } else {
      assert Zeros(n) + s == s;
    }
  }

  /** Padding a numeric code keeps it numeric and keeps its value. */
  lemma ZFillKeepsValue(s: string, width: int)
    requires AllDigits(s)
    ensures AllDigits(ZFill(s, width)) && Value(ZFill(s, width)) == Value(s)
  {
    if |s| < width {
      assert s == [] || !IsSign(s[0]);
      ZerosPrefixValue(width - |s|, s);
    }
  }

  /** The payload handed to the EAN-13 encoder for `code`. */
  function EanPayload(code: string): (payload: string)
    ensures |payload| == if |code| >= EanPayloadWidth then |code| else EanPayloadWidth
    ensures |code| >= EanPayloadWidth ==> payload == code
  {
    ZFill(code, EanPayloadWidth)
  }

  /** A numeric code of at most twelve digits becomes exactly twelve digits
      denoting the same number, ending with the code itself. */
  lemma EanPayloadOfNumeric(code: string)
    requires AllDigits(code) && |code| <= EanPayloadWidth
    ensures var p := EanPayload(code);
      |p| == EanPayloadWidth && AllDigits(p) && Value(p) == Value(code)
      && p[EanPayloadWidth - |code|..] == code
  {
    ZFillKeepsValue(code, EanPayloadWidth);
    if |code| < EanPayloadWidth {
      assert code == [] || !IsSign(code[0]);
      ZFillUnsigned(code, EanPayloadWidth);
    }
  }
}
