/**
 * The three Python string operations the reply parsers rely on:
 * `str.strip()`, `str.upper()` and `int(str)`, plus `str(n)` for the
 * rank text. Only the behaviour that can change a parser's outcome is
 * modelled (see README, "Left out").
 */
module Text {
  import opened Wrappers

  /** The characters for which Python's `str.isspace()` holds. */
  predicate IsSpace(c: char): (b: bool)
    ensures b ==> !IsDigit(c) && c != '"' && c != '+' && c != '-' && c != '_'
  {
    c == ' ' || '\t' <= c <= '\r' || '\U{1C}' <= c <= '\U{1F}' || c == '\U{85}' || c == '\U{A0}'
    || c == '\U{1680}' || '\U{2000}' <= c <= '\U{200A}' || c == '\U{2028}' || c == '\U{2029}'
    || c == '\U{202F}' || c == '\U{205F}' || c == '\U{3000}'
  }

  function StripStart(s: string): string
  {
    if s != [] && IsSpace(s[0]) then StripStart(s[1..]) else s
  }

  function StripEnd(s: string): string
  {
    if s != [] && IsSpace(s[|s| - 1]) then StripEnd(s[..|s| - 1]) else s
  }

  /** `s.strip()`: drop leading and trailing white space. */
  function Strip(s: string): (r: string)
    ensures |r| <= |s|
    ensures r == [] || (!IsSpace(r[0]) && !IsSpace(r[|r| - 1]))
    ensures (s == [] || (!IsSpace(s[0]) && !IsSpace(s[|s| - 1]))) ==> r == s
  {
    StripStartSuffix(s);
    StripEndPrefix(StripStart(s));
    StripEnd(StripStart(s))
  }

  lemma {:induction false} StripStartSuffix(s: string)
    ensures var r := StripStart(s); |r| <= |s| && r == s[|s| - |r|..] && (r == [] || !IsSpace(r[0]))
  {
    if s != [] && IsSpace(s[0]) {
      StripStartSuffix(s[1..]);
    }
  }

  lemma {:induction false} StripEndPrefix(s: string)
    ensures var r := StripEnd(s); |r| <= |s| && r == s[..|r|] && (r == [] || !IsSpace(r[|r| - 1]))
  {
    if s != [] && IsSpace(s[|s| - 1]) {
      StripEndPrefix(s[..|s| - 1]);
    }
  }

  /** `strip()` keeps a contiguous piece of the text with no white space at either end. */
  lemma StripResult(s: string)
    ensures var r := Strip(s); var i := |s| - |StripStart(s)|;
      && 0 <= i <= i + |r| <= |s| && r == s[i..i + |r|]
      && (r == [] || (!IsSpace(r[0]) && !IsSpace(r[|r| - 1])))
  {
    StripStartSuffix(s);
    StripEndPrefix(StripStart(s));
  }

  /** Text with no white space at either end is left as it is. */
  lemma StripTrimmed(s: string)
    requires s == [] || (!IsSpace(s[0]) && !IsSpace(s[|s| - 1]))
    ensures Strip(s) == s
  {
    assert StripStart(s) == s;
  }

  /**
   * The upper-case form of one character, as `str.upper()` gives it for
   * ASCII letters and for every character whose upper-case form consists
   * only of the letters S, F and I; all other characters are kept.
   */
  function UpperChar(c: char): (r: string)
    ensures 1 <= |r| <= 3
    ensures forall i :: 0 <= i < |r| ==> !('a' <= r[i] <= 'z')
  {
    if 'a' <= c <= 'z' then [(c as int - 32) as char]
    else if c == '\U{DF}' then "SS"      // sharp s
    else if c == '\U{131}' then "I"      // dotless i
    else if c == '\U{17F}' then "S"      // long s
    else if c == '\U{FB00}' then "FF"    // ligature ff
    else if c == '\U{FB01}' then "FI"    // ligature fi
    else if c == '\U{FB03}' then "FFI"   // ligature ffi
    else [c]
  }

  /** `s.upper()`. */
  function Upper(s: string): (r: string)
    ensures |r| >= |s|
    ensures forall i :: 0 <= i < |r| ==> !('a' <= r[i] <= 'z')
  {
    if s == [] then [] else UpperChar(s[0]) + Upper(s[1..])
  }

  predicate IsDigit(c: char) {
    '0' <= c <= '9'
  }

  /**
   * A run of decimal digits in which single underscores may separate
   * digits, as Python's `int()` accepts it.
   */
  predicate WellFormedDigits(s: string) {
    |s| > 0 && IsDigit(s[0]) && DigitGroups(s[1..])
  }

  /** What may follow a digit: more digits, each optionally preceded by one underscore. */
  predicate DigitGroups(s: string) {
    if s == [] then true
    else if IsDigit(s[0]) then DigitGroups(s[1..])
    else |s| >= 2 && s[0] == '_' && IsDigit(s[1]) && DigitGroups(s[2..])
  }

  lemma {:induction false} AllDigitsGroups(s: string)
    requires forall i :: 0 <= i < |s| ==> IsDigit(s[i])
    ensures DigitGroups(s)
  {
    if s != [] {
      AllDigitsGroups(s[1..]);
    }
  }

  /** The value of the digits of `s`, underscores skipped. */
  function DigitsValue(s: string): (n: nat) {
    if s == [] then 0
    else if IsDigit(s[|s| - 1]) then DigitsValue(s[..|s| - 1]) * 10 + (s[|s| - 1] as int - '0' as int)
    else DigitsValue(s[..|s| - 1])
  }

  /** `int(s)` on a string: `None` where Python raises `ValueError`. */
  function ParseInt(s: string): (r: Option<int>)
    ensures var t := Strip(s);
      r.Some? <==> WellFormedDigits(t) || (|t| > 0 && (t[0] == '+' || t[0] == '-') && WellFormedDigits(t[1..]))
    ensures r.Some? && r.value < 0 ==> Strip(s)[0] == '-'
  {
    var t := Strip(s);
    if |t| > 0 && (t[0] == '+' || t[0] == '-') then
      if WellFormedDigits(t[1..]) then
        var m: int := DigitsValue(t[1..]);
        Some(if t[0] == '-' then -m else m)
      else None
    else if WellFormedDigits(t) then
      Some(DigitsValue(t))
    else None
  }

  /** `str(n)` for a natural number. */
  function NatToString(n: nat): (s: string)
    ensures |s| > 0
    ensures forall i :: 0 <= i < |s| ==> IsDigit(s[i])
  {
    if n < 10 then ['0' + n as char] else NatToString(n / 10) + ['0' + (n % 10) as char]
  }

  lemma {:induction false} DigitsValueOfNatToString(n: nat)
    ensures DigitsValue(NatToString(n)) == n
  {
    var s := NatToString(n);
    if n < 10 {
      assert s[..0] == [];
    } else {
      assert s[..|s| - 1] == NatToString(n / 10);
      DigitsValueOfNatToString(n / 10);
    }
  }

  /** A non-empty string of plain digits has no white space to strip. */
  lemma DigitsTrimmed(s: string)
    requires |s| > 0 && forall i :: 0 <= i < |s| ==> IsDigit(s[i])
    ensures Strip(s) == s
  {
    assert IsDigit(s[0]) && IsDigit(s[|s| - 1]);
    StripTrimmed(s);
  }

  /** Blanks around a non-empty string of digits are stripped off. */
  lemma DigitsPaddedStrip(s: string)
    requires |s| > 0 && forall i :: 0 <= i < |s| ==> IsDigit(s[i])
    ensures Strip(" " + s + " ") == s
  {
    var w := " " + s + " ";
    assert w[1..] == s + " ";
    assert StripStart(w) == StripStart(s + " ");
    assert IsDigit((s + " ")[0]);
    assert StripStart(s + " ") == s + " ";
    assert (s + " ")[..|s|] == s;
    assert IsDigit(s[|s| - 1]);
    assert StripEnd(s + " ") == StripEnd(s);
  }

  /** A non-empty string of plain digits reads as its decimal value. */
  lemma ParseIntDigits(s: string)
    requires |s| > 0 && forall i :: 0 <= i < |s| ==> IsDigit(s[i])
    ensures ParseInt(s) == Some(DigitsValue(s))
  {
    AllDigitsGroups(s[1..]);
    assert WellFormedDigits(s);
    assert IsDigit(s[0]) && IsDigit(s[|s| - 1]);
    StripTrimmed(s);
  }

  /** `int(str(n)) == n`: the decimal text of a number reads back as that number. */
  lemma ParseIntNatToString(n: nat)
    ensures ParseInt(NatToString(n)) == Some(n)
  {
    DigitsValueOfNatToString(n);
    ParseIntDigits(NatToString(n));
  }
}
