/**
 * The small pieces of C/C++ text handling the demos rely on:
 * `std::to_string(int)`, `atoi`, and `std::setw` right-alignment.
 */
module Text {

  predicate IsDigit(c: char) {
    '0' <= c <= '9'
  }

  function DigitValue(c: char): (d: nat)
    requires IsDigit(c)
    ensures d < 10
  {
    c as int - '0' as int
  }

  function DigitChar(d: nat): (c: char)
    requires d < 10
    ensures IsDigit(c) && DigitValue(c) == d
  {
    (d + '0' as int) as char
  }

  /** Decimal digits of `n`, most significant first, no leading zeros. */
  function NatToString(n: nat): (s: string)
    ensures |s| >= 1
    ensures forall i :: 0 <= i < |s| ==> IsDigit(s[i])
    ensures n >= 10 ==> s[0] != '0'
    // no leading zeros: a '0' in front only for 0 itself
    ensures |s| == 1 || s[0] != '0'
    decreases n
  {
    if n < 10 then [DigitChar(n)] else NatToString(n / 10) + [DigitChar(n % 10)]
  }

  /** `std::to_string(int)`: an optional '-' followed by the digits of the magnitude. */
  function IntToString(i: int): (s: string)
    ensures |s| >= 1
    ensures forall k :: 0 <= k < |s| ==> IsDigit(s[k]) || (k == 0 && s[k] == '-')
    ensures (s[0] == '-') <==> i < 0
    // the magnitude's digits have no leading zeros
    ensures var d := if i < 0 then s[1..] else s; |d| >= 1 && (|d| == 1 || d[0] != '0')
  {
    if i < 0 then "-" + NatToString(-i) else NatToString(i)
  }

  /** Value of a run of decimal digits (empty run gives 0). */
  function DigitsValue(ds: string): (v: nat)
    requires forall i :: 0 <= i < |ds| ==> IsDigit(ds[i])
  {
    if ds == [] then 0
    else DigitsValue(ds[..|ds| - 1]) * 10 + DigitValue(ds[|ds| - 1])
  }

  /** The longest prefix of `s` made of decimal digits. */
  function DigitPrefix(s: string): (ds: string)
    ensures |ds| <= |s| && ds == s[..|ds|]
    ensures forall i :: 0 <= i < |ds| ==> IsDigit(ds[i])
    ensures |ds| < |s| ==> !IsDigit(s[|ds|])
  {
    if s != [] && IsDigit(s[0]) then [s[0]] + DigitPrefix(s[1..]) else []
  }

  /** The characters C's `isspace` accepts in the "C" locale. */
  predicate IsSpace(c: char) {
    c == ' ' || c == '\t' || c == '\n' || c == '\r' || c == '\U{0B}' || c == '\U{0C}'
  }

  function SkipSpace(s: string): (t: string)
    ensures |t| <= |s| && t == s[|s| - |t|..]
    ensures t == [] || !IsSpace(t[0])
  {
    if s != [] && IsSpace(s[0]) then SkipSpace(s[1..]) else s
  }

  /**
   * C's `atoi`: leading white space, an optional sign, then as many decimal
   * digits as follow; anything after them is ignored and no digits give 0.
   */
  function Atoi(s: string): (r: int)
    // a negative value needs a minus sign after the white space
    ensures r < 0 ==> SkipSpace(s) != [] && SkipSpace(s)[0] == '-'
    // no digit after the white space and the optional sign gives 0
    ensures var t := SkipSpace(s);
            var u := if t != [] && (t[0] == '-' || t[0] == '+') then t[1..] else t;
            u == [] || !IsDigit(u[0]) ==> r == 0
  {
    var t := SkipSpace(s);
    if t != [] && t[0] == '-' then -(DigitsValue(DigitPrefix(t[1..])) as int)
    else if t != [] && t[0] == '+' then DigitsValue(DigitPrefix(t[1..]))
    else DigitsValue(DigitPrefix(t))
  }

  lemma {:induction false} DigitsValueSnoc(ds: string, c: char)
    requires forall i :: 0 <= i < |ds| ==> IsDigit(ds[i])
    requires IsDigit(c)
    ensures DigitsValue(ds + [c]) == DigitsValue(ds) * 10 + DigitValue(c)
  {
    assert (ds + [c])[..|ds + [c]| - 1] == ds;
  }

  /** Reading back the digits `NatToString` writes gives the number. */
  lemma {:induction false} DigitsValueOfNatToString(n: nat)
    ensures DigitsValue(NatToString(n)) == n
    decreases n
  {
    if n >= 10 {
      DigitsValueOfNatToString(n / 10);
      DigitsValueSnoc(NatToString(n / 10), DigitChar(n % 10));
    }
  }

  lemma {:induction false} DigitPrefixOfDigits(ds: string)
    requires forall i :: 0 <= i < |ds| ==> IsDigit(ds[i])
    ensures DigitPrefix(ds) == ds
    decreases |ds|
  {
    if ds != [] {
      DigitPrefixOfDigits(ds[1..]);
    }
  }

  /** The digit run ends where a non-digit begins. */
  lemma {:induction false} DigitPrefixStops(ds: string, rest: string)
    requires forall i :: 0 <= i < |ds| ==> IsDigit(ds[i])
    requires rest == [] || !IsDigit(rest[0])
    ensures DigitPrefix(ds + rest) == ds
    decreases |ds|
  {
    if ds != [] {
      assert (ds + rest)[1..] == ds[1..] + rest;
      DigitPrefixStops(ds[1..], rest);
    }
  }

  /** Leading blanks are skipped up to the first character that is not white space. */
  lemma {:induction false} SkipSpaceOver(pad: string, s: string)
    requires forall i :: 0 <= i < |pad| ==> pad[i] == ' '
    requires s == [] || !IsSpace(s[0])
    ensures SkipSpace(pad + s) == s
    decreases |pad|
  {
    if pad != [] {
      assert (pad + s)[1..] == pad[1..] + s;
      SkipSpaceOver(pad[1..], s);
    }
  }

  /** Blanks in front of a number do not change what `atoi` reads. */
  lemma AtoiAfterBlanks(pad: string, s: string)
    requires forall k :: 0 <= k < |pad| ==> pad[k] == ' '
    requires s == [] || !IsSpace(s[0])
    ensures Atoi(pad + s) == Atoi(s)
  {
    SkipSpaceOver(pad, s);
    assert SkipSpace(s) == s;
  }

  /** `atoi` of a run of digits and whatever non-digit follows is the run's value. */
  lemma AtoiOfDigitRun(ds: string, rest: string)
    requires |ds| >= 1 && forall k :: 0 <= k < |ds| ==> IsDigit(ds[k])
    requires rest == [] || !IsDigit(rest[0])
    ensures Atoi(ds + rest) == DigitsValue(ds)
  {
    var t := ds + rest;
    assert t[0] == ds[0];
    assert IsDigit(t[0]);
    assert !IsSpace(t[0]);
    assert SkipSpace(t) == t;
    assert t[0] != '-' && t[0] != '+';
    DigitPrefixStops(ds, rest);
    assert DigitPrefix(t) == ds;
    assert Atoi(t) == DigitsValue(DigitPrefix(t));
  }

  /** The same behind a minus sign. */
  lemma AtoiOfNegativeRun(ds: string, rest: string)
    requires forall k :: 0 <= k < |ds| ==> IsDigit(ds[k])
    requires rest == [] || !IsDigit(rest[0])
    ensures Atoi("-" + ds + rest) == -(DigitsValue(ds) as int)
  {
    var u := ds + rest;
    var t := ['-'] + u;
    assert "-" + ds + rest == t;
    assert t[0] == '-' && !IsSpace(t[0]);
    assert SkipSpace(t) == t;
    assert t[1..] == u;
    DigitPrefixStops(ds, rest);
    assert DigitPrefix(u) == ds;
    assert Atoi(t) == -(DigitsValue(DigitPrefix(u)) as int);
  }

  /** `atoi` reads back what `std::to_string` wrote, whatever non-digit follows it. */
  lemma AtoiOfNumber(i: int, rest: string)
    requires rest == [] || !IsDigit(rest[0])
    ensures Atoi(IntToString(i) + rest) == i
  {
    if i < 0 {
      AtoiOfNegativeRun(NatToString(-i), rest);
      DigitsValueOfNatToString(-i);
    } else {
      AtoiOfDigitRun(NatToString(i), rest);
      DigitsValueOfNatToString(i);
    }
  }

  /**
   * `atoi` reads back a number `std::to_string` wrote, right-aligned with
   * blanks and followed by anything that does not start with a digit.
   */
  lemma AtoiOfField(pad: string, i: int, rest: string)
    requires forall k :: 0 <= k < |pad| ==> pad[k] == ' '
    requires rest == [] || !IsDigit(rest[0])
    ensures Atoi(pad + IntToString(i) + rest) == i
  {
    var s := IntToString(i);
    assert pad + s + rest == pad + (s + rest);
    assert !IsSpace((s + rest)[0]);
    AtoiAfterBlanks(pad, s + rest);
    AtoiOfNumber(i, rest);
  }

  /** `atoi(std::to_string(i).c_str()) == i`: identifiers survive printing and re-reading. */
  lemma AtoiOfIntToString(i: int)
    ensures Atoi(IntToString(i)) == i
  {
    AtoiOfNumber(i, []);
    assert IntToString(i) + [] == IntToString(i);
  }

  /**
   * `out << std::setw(w) << s`: right-aligned in a field of `w` characters,
   * never truncated.
   */
  function PadLeft(s: string, w: nat): (r: string)
    ensures |r| == if |s| >= w then |s| else w
    ensures r[|r| - |s|..] == s
    ensures forall i :: 0 <= i < |r| - |s| ==> r[i] == ' '
  {
    if |s| >= w then s else seq(w - |s|, _ => ' ') + s
  }

  /** A number written with `std::setw` reads back through `atoi`, whatever non-digit follows it. */
  lemma AtoiOfPadded(i: int, w: nat, rest: string)
    requires rest == [] || !IsDigit(rest[0])
    ensures Atoi(PadLeft(IntToString(i), w) + rest) == i
  {
    var digits := IntToString(i);
    var padded := PadLeft(digits, w);
    var pad := padded[..|padded| - |digits|];
    assert padded == pad + digits;
    AtoiOfField(pad, i, rest);
  }
}
