/**
  String helpers shared by the model: ASCII digits and decimal numerals
  (JavaScript's `String(n)` and `Number(s)` restricted to integers),
  `padStart`, `trim` and a global literal `replace`.
 */
module Text {
  import opened Wrappers

  predicate IsAsciiDigit(c: char) {
    '0' <= c <= '9'
  }

  predicate AllDigits(s: string) {
    forall i :: 0 <= i < |s| ==> IsAsciiDigit(s[i])
  }

  function DigitValue(c: char): (v: nat)
    requires IsAsciiDigit(c)
    ensures v < 10
  {
    c as int - '0' as int
  }

  function DigitChar(d: nat): (c: char)
    requires d < 10
    ensures IsAsciiDigit(c) && DigitValue(c) == d
  {
    ('0' as int + d) as char
  }

  /** The decimal value of a string of ASCII digits; leading zeros are
      ignored and the empty string is 0, as `Number("")` is. */
  function DigitsValue(s: string): nat
    requires AllDigits(s)
    decreases |s|
  {
    if s == [] then 0 else DigitsValue(s[..|s| - 1]) * 10 + DigitValue(s[|s| - 1])
  }

  /** `String(n)` for a non-negative integer: its decimal numeral. */
  function NatToString(n: nat): (s: string)
    ensures 1 <= |s| && AllDigits(s)
    ensures n >= 10 ==> s[0] != '0'
    decreases n
  {
    if n < 10 then [DigitChar(n)] else NatToString(n / 10) + [DigitChar(n % 10)]
  }

  lemma {:induction false} DigitsValueOfNatToString(n: nat)
    ensures DigitsValue(NatToString(n)) == n
    decreases n
  {
    if n >= 10 {
      var s := NatToString(n);
      assert s[..|s| - 1] == NatToString(n / 10);
      DigitsValueOfNatToString(n / 10);
    }
  }

  /** `String(i)` for an integer: a minus sign before the numeral of a negative value. */
  function IntToString(i: int): (s: string)
    ensures 1 <= |s|
    ensures i >= 0 ==> AllDigits(s)
    ensures i < 0 ==> 2 <= |s| && s[0] == '-' && AllDigits(s[1..])
  {
    if i < 0 then "-" + NatToString(-i) else NatToString(i)
  }

  /** Reads back an optionally negative decimal numeral. */
  function ParseInt(s: string): (r: Option<int>)
    ensures r.Some? ==> 1 <= |s|
  {
    if 2 <= |s| && s[0] == '-' && AllDigits(s[1..]) then Some(0 - DigitsValue(s[1..]))
    else if 1 <= |s| && AllDigits(s) then Some(DigitsValue(s))
    else None
  }

  lemma ParseIntOfIntToString(i: int)
    ensures ParseInt(IntToString(i)) == Some(i)
  {
    if i < 0 {
      var t := NatToString(-i);
      assert ("-" + t)[1..] == t;
      DigitsValueOfNatToString(-i);
    } else {
      var t := NatToString(i);
      assert t[0] != '-' by { assert IsAsciiDigit(t[0]); }
      DigitsValueOfNatToString(i);
    }
  }

  /** `s.padStart(width, fill)` for a one-character fill. */
  function PadStart(s: string, width: nat, fill: char): (r: string)
    ensures |r| == if |s| >= width then |s| else width
    ensures r[|r| - |s|..] == s
    ensures forall i :: 0 <= i < |r| - |s| ==> r[i] == fill
  {
    if |s| >= width then s else seq(width - |s|, i => fill) + s
  }

  lemma PadStartShort(s: string, fill: char)
    requires |s| == 1
    ensures PadStart(s, 2, fill) == [fill] + s
  {
    assert seq(1, i => fill) == [fill];
  }

  lemma PadStartWide(s: string, fill: char)
    requires |s| >= 2
    ensures PadStart(s, 2, fill) == s
  {
  }

  /** The numeral of a digit is that digit alone. */
  lemma NatToStringOfDigit(n: nat)
    requires n < 10
    ensures NatToString(n) == [DigitChar(n)] && IntToString(n) == [DigitChar(n)]
  {
  }

  /** The numeral of a two-digit number has two characters. */
  lemma NatToStringOfTwoDigits(n: nat)
    requires 10 <= n < 100
    ensures |NatToString(n)| == 2 && IntToString(n) == NatToString(n)
  {
    NatToStringOfDigit(n / 10);
  }

  /** The characters removed by `String.prototype.trim`: white space and line terminators. */
  predicate IsJsWhitespace(c: char) {
    c == '\t' || c == '\n' || c == '\U{B}' || c == '\U{C}' || c == '\r' || c == ' '
    || c == '\U{A0}' || c == '\U{1680}' || ('\U{2000}' <= c <= '\U{200A}')
    || c == '\U{2028}' || c == '\U{2029}' || c == '\U{202F}' || c == '\U{205F}'
    || c == '\U{3000}' || c == '\U{FEFF}'
  }

  function TrimStart(s: string): (r: string)
    ensures |r| <= |s| && r == s[|s| - |r|..]
    ensures forall i :: 0 <= i < |s| - |r| ==> IsJsWhitespace(s[i])
    ensures r != [] ==> !IsJsWhitespace(r[0])
  {
    if s != [] && IsJsWhitespace(s[0]) then
      var r := TrimStart(s[1..]);
      assert forall i :: 1 <= i < |s| ==> s[i] == s[1..][i - 1];
      r
    else s
  }

  function TrimEnd(s: string): (r: string)
    ensures |r| <= |s| && r == s[..|r|]
    ensures forall i :: |r| <= i < |s| ==> IsJsWhitespace(s[i])
    ensures r != [] ==> !IsJsWhitespace(r[|r| - 1])
  {
    if s != [] && IsJsWhitespace(s[|s| - 1]) then
      var r := TrimEnd(s[..|s| - 1]);
      assert forall i :: 0 <= i < |s| - 1 ==> s[i] == s[..|s| - 1][i];
      r
    else s
  }

  /** How many white-space characters `trim` removes from the front of `s`. */
  function LeadingBlanks(s: string): (k: nat)
    ensures k <= |s| && TrimStart(s) == s[k..]
  {
    |s| - |TrimStart(s)|
  }

  /** `s.trim()`. */
  function Trim(s: string): (r: string)
    ensures |r| <= |s|
    ensures r != [] ==> !IsJsWhitespace(r[0]) && !IsJsWhitespace(r[|r| - 1])
  {
    TrimEnd(TrimStart(s))
  }

  /** `trim` keeps a contiguous piece of `s` and removes only white space
      before and after it. */
  lemma TrimKeepsMiddle(s: string)
    ensures LeadingBlanks(s) + |Trim(s)| <= |s|
    ensures Trim(s) == s[LeadingBlanks(s)..LeadingBlanks(s) + |Trim(s)|]
    ensures forall i :: 0 <= i < LeadingBlanks(s) ==> IsJsWhitespace(s[i])
    ensures forall i :: LeadingBlanks(s) + |Trim(s)| <= i < |s| ==> IsJsWhitespace(s[i])
  {
    var t := TrimStart(s);
    var r := TrimEnd(t);
    var k := LeadingBlanks(s);
    assert t == s[k..] && r == t[..|r|];
    forall i | k + |r| <= i < |s|
      ensures IsJsWhitespace(s[i])
    {
      assert s[i] == t[i - k];
    }
  }

  predicate StartsWith(s: string, p: string) {
    |p| <= |s| && s[..|p|] == p
  }

  /** `p` occurs somewhere in `s`. */
  predicate Occurs(s: string, p: string)
    decreases |s|
  {
    StartsWith(s, p) || (s != [] && Occurs(s[1..], p))
  }

  /** `s.replace(/pat/g, rep)` for a literal pattern: left to right, a match
      is replaced and scanning resumes after it; matches never overlap. */
  function ReplaceAll(s: string, pat: string, rep: string): string
    requires pat != []
    decreases |s|
  {
    if s == [] then []
    else if StartsWith(s, pat) then rep + ReplaceAll(s[|pat|..], pat, rep)
    else [s[0]] + ReplaceAll(s[1..], pat, rep)
  }

  lemma {:induction false} ReplaceAllWithoutMatch(s: string, pat: string, rep: string)
    requires pat != []
    requires !Occurs(s, pat)
    ensures ReplaceAll(s, pat, rep) == s
    decreases |s|
  {
    if s != [] {
      ReplaceAllWithoutMatch(s[1..], pat, rep);
    }
  }

  /** A replacement as long as the pattern keeps the length. */
  lemma {:induction false} ReplaceAllLength(s: string, pat: string, rep: string)
    requires pat != [] && |rep| == |pat|
    ensures |ReplaceAll(s, pat, rep)| == |s|
    decreases |s|
  {
    if s != [] {
      if StartsWith(s, pat) {
        ReplaceAllLength(s[|pat|..], pat, rep);
      } else {
        ReplaceAllLength(s[1..], pat, rep);
      }
    }
  }

  /** Text without the pattern's first character is copied as it is, and the
      scan goes on after it. */
  lemma {:induction false} ReplaceAllCopiesPlain(a: string, b: string, pat: string, rep: string)
    requires pat != []
    requires forall i :: 0 <= i < |a| ==> a[i] != pat[0]
    ensures ReplaceAll(a + b, pat, rep) == a + ReplaceAll(b, pat, rep)
    decreases |a|
  {
    if a != [] {
      var t := a + b;
      assert t[0] == a[0] && t[1..] == a[1..] + b;
      assert !StartsWith(t, pat) by {
        if |pat| <= |t| {
          assert t[..|pat|][0] == t[0];
        }
      }
      ReplaceAllCopiesPlain(a[1..], b, pat, rep);
    } else {
      assert a + b == b;
    }
  }

  /** A match at the front is replaced, and the scan goes on after it. */
  lemma ReplaceAllMatch(b: string, pat: string, rep: string)
    requires pat != []
    ensures ReplaceAll(pat + b, pat, rep) == rep + ReplaceAll(b, pat, rep)
  {
    var t := pat + b;
    assert t[..|pat|] == pat && t[|pat|..] == b;
  }

  /** No occurrence of `p` starts inside `a` when `a` lacks `p`'s first character. */
  lemma {:induction false} NoOccurrenceAcross(a: string, b: string, p: string)
    requires p != []
    requires forall i :: 0 <= i < |a| ==> a[i] != p[0]
    requires !Occurs(b, p)
    ensures !Occurs(a + b, p)
    decreases |a|
  {
    if a == [] {
      assert a + b == b;
    } else {
      assert (a + b)[0] == a[0];
      assert (a + b)[1..] == a[1..] + b;
      NoOccurrenceAcross(a[1..], b, p);
    }
  }

  lemma ReplaceAllHead(t: string, pat: string, rep: string)
    requires pat != [] && rep != [] && StartsWith(t, pat)
    ensures ReplaceAll(t, pat, rep) != [] && ReplaceAll(t, pat, rep)[0] == rep[0]
  {
  }

  /** A prefix of the output that avoids the replacement's first character was copied from the input. */
  lemma {:induction false} CopiedPrefix(t: string, pat: string, rep: string, q: string)
    requires pat != [] && rep != []
    requires StartsWith(ReplaceAll(t, pat, rep), q)
    requires forall i :: 0 <= i < |q| ==> q[i] != rep[0]
    ensures StartsWith(t, q)
    decreases |t|
  {
    if q != [] && t != [] {
      var r := ReplaceAll(t, pat, rep);
      if StartsWith(t, pat) {
        ReplaceAllHead(t, pat, rep);
        assert false;
      } else {
        var r' := ReplaceAll(t[1..], pat, rep);
        assert r == [t[0]] + r';
        assert StartsWith(r', q[1..]) by {
          assert r'[..|q| - 1] == r[1..|q|];
        }
        CopiedPrefix(t[1..], pat, rep, q[1..]);
        assert t[..|q|] == [t[0]] + t[1..][..|q| - 1];
      }
    }
  }

  /** Replacing every match leaves none behind, when the replacement contains
      no character that could start a match and the pattern does not contain
      the replacement's first character. */
  lemma {:induction false} ReplaceAllRemovesPattern(s: string, pat: string, rep: string)
    requires pat != [] && rep != []
    requires forall i :: 0 <= i < |rep| ==> rep[i] != pat[0]
    requires forall i :: 0 <= i < |pat| ==> pat[i] != rep[0]
    ensures !Occurs(ReplaceAll(s, pat, rep), pat)
    decreases |s|
  {
    if s == [] {
      assert !StartsWith([], pat);
    } else if StartsWith(s, pat) {
      ReplaceAllRemovesPattern(s[|pat|..], pat, rep);
      NoOccurrenceAcross(rep, ReplaceAll(s[|pat|..], pat, rep), pat);
    } else {
      var r' := ReplaceAll(s[1..], pat, rep);
      var r := [s[0]] + r';
      ReplaceAllRemovesPattern(s[1..], pat, rep);
      assert r[1..] == r';
      if StartsWith(r, pat) {
        var q := pat[1..];
        assert StartsWith(r', q) by {
          assert r'[..|q|] == r[1..|pat|];
        }
        CopiedPrefix(s[1..], pat, rep, q);
        assert false;
      }
    }
  }
  /** `s` with every `c` deleted. */
  function Without(s: string, c: char): (r: string)
    ensures |r| <= |s|
    ensures forall i :: 0 <= i < |r| ==> r[i] != c && r[i] in s
    ensures forall x :: x in s && x != c ==> x in r
    ensures (forall i :: 0 <= i < |s| ==> s[i] != c) ==> r == s
  {
    if s == [] then []
    else if s[0] == c then Without(s[1..], c)
    else [s[0]] + Without(s[1..], c)
  }

  /** Deleting a character commutes with concatenation. */
  lemma {:induction false} WithoutAppend(a: string, b: string, c: char)
    ensures Without(a + b, c) == Without(a, c) + Without(b, c)
    decreases |a|
  {
    if a == [] {
      assert a + b == b;
    } else {
      assert (a + b)[0] == a[0];
      assert (a + b)[1..] == a[1..] + b;
      WithoutAppend(a[1..], b, c);
    }
  }

  /** A global replace of a one-character pattern by nothing deletes that character. */
  lemma {:induction false} ReplaceCharByNothing(s: string, c: char)
    ensures ReplaceAll(s, [c], []) == Without(s, c)
    decreases |s|
  {
    if s != [] {
      assert StartsWith(s, [c]) <==> s[0] == c by {
        assert |[c]| == 1;
        assert s[..1] == [s[0]];
      }
      assert s[|[c]|..] == s[1..];
      ReplaceCharByNothing(s[1..], c);
    }
  }

  /** The value of a JavaScript `Number(s)` call, as far as this model needs it. */
  datatype NumberValue = Finite(value: int) | NaN | Unmodelled

  /** Characters that can occur in some string `Number` accepts (decimal,
      exponent, hexadecimal/octal/binary prefixes, `Infinity`, signs, blanks). */
  predicate MayAppearInNumeral(c: char) {
    IsAsciiDigit(c) || IsJsWhitespace(c) || c in "+-.xXoObBaAcCdDeEfFInity"
  }

  /** No numeral holds a letter from beyond Latin-1, below the first non-Latin space. */
  lemma BeyondLatinNotNumeral(c: char)
    requires '\U{FF}' < c < '\U{1680}'
    ensures !MayAppearInNumeral(c)
  {
  }

  /** `Number(s)`: a string of ASCII digits (the empty string included) is its
      decimal value; a character that no numeral can hold gives NaN; other
      strings (signs, fractions, exponents, hexadecimal) are not modelled. */
  function JsNumber(s: string): NumberValue {
    if AllDigits(s) then Finite(DigitsValue(s))
    else if exists i :: 0 <= i < |s| && !MayAppearInNumeral(s[i]) then NaN
    else Unmodelled
  }
}
