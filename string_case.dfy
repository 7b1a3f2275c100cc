/**
  The string helpers: converting identifiers between camelCase and
  snake_case with global regular-expression replaces, and the guard cases
  of `digitSeparator`.
 */
module StringCase {
  import opened Text

  predicate IsLowerAscii(c: char) {
    'a' <= c <= 'z'
  }

  predicate IsUpperAscii(c: char) {
    'A' <= c <= 'Z'
  }

  /** `\w`: ASCII letters, digits and `_`. */
  predicate IsWordChar(c: char) {
    IsLowerAscii(c) || IsUpperAscii(c) || IsAsciiDigit(c) || c == '_'
  }

  function ToLowerAscii(c: char): (r: char)
    ensures !IsUpperAscii(r)
    ensures !IsUpperAscii(c) ==> r == c
    ensures IsUpperAscii(c) ==> IsLowerAscii(r)
  {
    if IsUpperAscii(c) then (c as int + 32) as char else c
  }

  function ToUpperAscii(c: char): (r: char)
    ensures !IsLowerAscii(c) ==> r == c
    ensures IsLowerAscii(c) ==> IsUpperAscii(r)
  {
    if IsLowerAscii(c) then (c as int - 32) as char else c
  }

  /** Upper-casing undoes lower-casing of an upper-case letter. */
  lemma UpperOfLower(c: char)
    requires IsUpperAscii(c)
    ensures ToUpperAscii(ToLowerAscii(c)) == c
  {
  }

  /** `toLowerCase`, on ASCII letters. */
  function LowerAll(s: string): (r: string)
    ensures |r| == |s|
    ensures forall i :: 0 <= i < |s| ==> r[i] == ToLowerAscii(s[i])
  {
    seq(|s|, i requires 0 <= i < |s| => ToLowerAscii(s[i]))
  }

  lemma LowerAllAppend(a: string, b: string)
    ensures LowerAll(a + b) == LowerAll(a) + LowerAll(b)
  {
  }

  /** The number of matches of `/([a-z])([A-Z])/g`, scanned left to right without overlap. */
  function BoundaryCount(s: string): nat
    decreases |s|
  {
    if |s| >= 2 && IsLowerAscii(s[0]) && IsUpperAscii(s[1]) then 1 + BoundaryCount(s[2..])
    else if s == [] then 0
    else BoundaryCount(s[1..])
  }

  /** `replace(/([a-z])([A-Z])/g, '$1_$2')`: one `_` into each lower-upper pair. */
  function InsertUnderscores(s: string): (r: string)
    ensures |r| == |s| + BoundaryCount(s)
    ensures s != [] ==> r[0] == s[0]
    decreases |s|
  {
    if |s| >= 2 && IsLowerAscii(s[0]) && IsUpperAscii(s[1]) then [s[0], '_', s[1]] + InsertUnderscores(s[2..])
    else if s == [] then []
    else [s[0]] + InsertUnderscores(s[1..])
  }

  /** Dropping every `_` from the output gives the input with its `_` dropped:
      the replace only inserts `_`. */
  lemma {:induction false} InsertUnderscoresKeepsText(s: string)
    ensures Without(InsertUnderscores(s), '_') == Without(s, '_')
    decreases |s|
  {
    if |s| >= 2 && IsLowerAscii(s[0]) && IsUpperAscii(s[1]) {
      var rest := InsertUnderscores(s[2..]);
      WithoutAppend([s[0], '_', s[1]], rest, '_');
      assert Without([s[0], '_', s[1]], '_') == [s[0], s[1]];
      assert s == [s[0], s[1]] + s[2..];
      WithoutAppend([s[0], s[1]], s[2..], '_');
      InsertUnderscoresKeepsText(s[2..]);
    } else if s != [] {
      var rest := InsertUnderscores(s[1..]);
      WithoutAppend([s[0]], rest, '_');
      assert s == [s[0]] + s[1..];
      WithoutAppend([s[0]], s[1..], '_');
      InsertUnderscoresKeepsText(s[1..]);
    }
  }

  /** Every `_` stands between a lower-case and an upper-case letter. */
  predicate UnderscoresBetweenPairs(r: string) {
    forall i :: 0 <= i < |r| && r[i] == '_' ==> 0 < i < |r| - 1 && IsLowerAscii(r[i - 1]) && IsUpperAscii(r[i + 1])
  }

  /** No lower-case letter stands directly before an upper-case one. */
  predicate NoLowerUpperPair(r: string) {
    forall i :: 0 <= i < |r| - 1 && IsLowerAscii(r[i]) ==> !IsUpperAscii(r[i + 1])
  }

  lemma PlacesAfterPair(x: char, y: char, rest: string)
    requires IsLowerAscii(x) && IsUpperAscii(y)
    requires UnderscoresBetweenPairs(rest) && NoLowerUpperPair(rest)
    ensures UnderscoresBetweenPairs([x, '_', y] + rest) && NoLowerUpperPair([x, '_', y] + rest)
  {
    var r := [x, '_', y] + rest;
    forall i | 0 <= i < |r| && r[i] == '_'
      ensures 0 < i < |r| - 1 && IsLowerAscii(r[i - 1]) && IsUpperAscii(r[i + 1])
    {
      if i >= 3 {
        assert rest[i - 3] == '_';
        assert i - 3 > 0;
        assert r[i - 1] == rest[i - 4] && r[i + 1] == rest[i - 2];
      }
    }
    forall i | 0 <= i < |r| - 1 && IsLowerAscii(r[i])
      ensures !IsUpperAscii(r[i + 1])
    {
      if i >= 3 {
        assert r[i] == rest[i - 3] && r[i + 1] == rest[i - 2];
      }
    }
  }

  lemma PlacesAfterOne(x: char, rest: string)
    requires x != '_'
    requires UnderscoresBetweenPairs(rest) && NoLowerUpperPair(rest)
    requires IsLowerAscii(x) && rest != [] ==> !IsUpperAscii(rest[0])
    ensures UnderscoresBetweenPairs([x] + rest) && NoLowerUpperPair([x] + rest)
  {
    var r := [x] + rest;
    forall i | 0 <= i < |r| && r[i] == '_'
      ensures 0 < i < |r| - 1 && IsLowerAscii(r[i - 1]) && IsUpperAscii(r[i + 1])
    {
      assert i >= 1;
      assert rest[i - 1] == '_';
      assert i - 1 > 0;
      assert r[i - 1] == rest[i - 2] && r[i + 1] == rest[i];
    }
    forall i | 0 <= i < |r| - 1 && IsLowerAscii(r[i])
      ensures !IsUpperAscii(r[i + 1])
    {
      if i >= 1 {
        assert r[i] == rest[i - 1] && r[i + 1] == rest[i];
      }
    }
  }

  /** For text without `_`, every `_` of the output stands between a
      lower-case and an upper-case letter, and no lower-case letter is left
      directly before an upper-case one: every pair got its `_`. */
  lemma {:induction false} InsertUnderscoresPlaces(s: string)
    requires forall i :: 0 <= i < |s| ==> s[i] != '_'
    ensures UnderscoresBetweenPairs(InsertUnderscores(s))
    ensures NoLowerUpperPair(InsertUnderscores(s))
    decreases |s|
  {
    if |s| >= 2 && IsLowerAscii(s[0]) && IsUpperAscii(s[1]) {
      InsertUnderscoresPlaces(s[2..]);
      PlacesAfterPair(s[0], s[1], InsertUnderscores(s[2..]));
    } else if s != [] {
      InsertUnderscoresPlaces(s[1..]);
      PlacesAfterOne(s[0], InsertUnderscores(s[1..]));
    }
  }

  /** `camelToSnakeCase`: no upper-case letter is left, and the result is
      longer by one `_` per lower-upper boundary. */
  function CamelToSnake(s: string): (r: string)
    ensures forall i :: 0 <= i < |r| ==> !IsUpperAscii(r[i])
    ensures |r| == |s| + BoundaryCount(s)
  {
    LowerAll(InsertUnderscores(s))
  }

  lemma {:induction false} InsertUnderscoresWithoutUpper(s: string)
    requires forall i :: 0 <= i < |s| ==> !IsUpperAscii(s[i])
    ensures InsertUnderscores(s) == s
    decreases |s|
  {
    if s != [] {
      InsertUnderscoresWithoutUpper(s[1..]);
    }
  }

  /** Text without upper-case letters is left as it is. */
  lemma CamelToSnakeWithoutUpper(s: string)
    requires forall i :: 0 <= i < |s| ==> !IsUpperAscii(s[i])
    ensures CamelToSnake(s) == s
  {
    InsertUnderscoresWithoutUpper(s);
  }

  lemma CamelToSnakeExamples()
    ensures CamelToSnake("fooBar") == "foo_bar"
  {
  }

  /** Matches do not overlap: "BC" follows a lower-case letter only at its "B". */
  lemma CamelToSnakeNoOverlapExample()
    ensures CamelToSnake("aBC") == "a_bc"
  {
  }

  /** The number of matches of `/(_\w)/g`, scanned left to right without overlap. */
  function UnderscoreCount(s: string): nat
    decreases |s|
  {
    if |s| >= 2 && s[0] == '_' && IsWordChar(s[1]) then 1 + UnderscoreCount(s[2..])
    else if s == [] then 0
    else UnderscoreCount(s[1..])
  }

  /** `snakeToCamelCase`: each `_` with a word character after it becomes
      that character upper-cased; the result is shorter by one per match. */
  function SnakeToCamel(s: string): (r: string)
    ensures |r| + UnderscoreCount(s) == |s|
    decreases |s|
  {
    if |s| >= 2 && s[0] == '_' && IsWordChar(s[1]) then [ToUpperAscii(s[1])] + SnakeToCamel(s[2..])
    else if s == [] then []
    else [s[0]] + SnakeToCamel(s[1..])
  }

  /** Text without `_` is left as it is. */
  lemma {:induction false} SnakeToCamelWithoutUnderscore(s: string)
    requires forall i :: 0 <= i < |s| ==> s[i] != '_'
    ensures SnakeToCamel(s) == s
    decreases |s|
  {
    if s != [] {
      SnakeToCamelWithoutUnderscore(s[1..]);
    }
  }

  /** A trailing `_` is still there afterwards. */
  lemma {:induction false} SnakeToCamelKeepsTrailingUnderscore(s: string)
    requires s != [] && s[|s| - 1] == '_'
    ensures SnakeToCamel(s) != [] && SnakeToCamel(s)[|SnakeToCamel(s)| - 1] == '_'
    decreases |s|
  {
    if |s| >= 2 && s[0] == '_' && IsWordChar(s[1]) {
      if |s| > 2 {
        SnakeToCamelKeepsTrailingUnderscore(s[2..]);
      }
    } else if |s| > 1 {
      SnakeToCamelKeepsTrailingUnderscore(s[1..]);
    }
  }

  lemma SnakeToCamelCons(c: char, rest: string)
    requires c != '_'
    ensures SnakeToCamel([c] + rest) == [c] + SnakeToCamel(rest)
  {
    assert ([c] + rest)[1..] == rest;
  }

  lemma SnakeToCamelUnderscore(c: char, rest: string)
    requires IsWordChar(c)
    ensures SnakeToCamel(['_', c] + rest) == [ToUpperAscii(c)] + SnakeToCamel(rest)
  {
    assert (['_', c] + rest)[2..] == rest;
  }

  lemma SnakeToCamelExamples()
    ensures SnakeToCamel("a_b") == "aB"
    ensures SnakeToCamel("a_") == "a_"
  {
  }

  /** camelCase text the conversion can restore: no `_`, and every upper-case
      letter directly after a lower-case one. */
  predicate IsRestorableCamel(s: string) {
    (forall i :: 0 <= i < |s| ==> s[i] != '_')
    && (forall i :: 0 <= i < |s| && IsUpperAscii(s[i]) ==> i > 0 && IsLowerAscii(s[i - 1]))
  }

  /** A suffix that does not start with a capital stays restorable. */
  lemma RestorableSuffix(s: string, k: nat)
    requires IsRestorableCamel(s) && k <= |s|
    requires k < |s| ==> !IsUpperAscii(s[k])
    ensures IsRestorableCamel(s[k..])
  {
    var t := s[k..];
    forall i | 0 <= i < |t| && IsUpperAscii(t[i])
      ensures i > 0 && IsLowerAscii(t[i - 1])
    {
      assert t[i] == s[i + k];
    }
  }

  lemma CamelToSnakePair(s: string)
    requires |s| >= 2 && IsLowerAscii(s[0]) && IsUpperAscii(s[1])
    ensures CamelToSnake(s) == [s[0]] + (['_', ToLowerAscii(s[1])] + CamelToSnake(s[2..]))
  {
    LowerAllAppend([s[0], '_', s[1]], InsertUnderscores(s[2..]));
    assert LowerAll([s[0], '_', s[1]]) == [s[0], '_', ToLowerAscii(s[1])];
  }

  lemma CamelToSnakeCons(s: string)
    requires s != [] && !(|s| >= 2 && IsLowerAscii(s[0]) && IsUpperAscii(s[1]))
    ensures CamelToSnake(s) == [ToLowerAscii(s[0])] + CamelToSnake(s[1..])
  {
    LowerAllAppend([s[0]], InsertUnderscores(s[1..]));
  }

  /** Converting restorable camelCase to snake_case and back gives it back. */
  lemma {:induction false} CamelSnakeRoundTrip(s: string)
    requires IsRestorableCamel(s)
    ensures SnakeToCamel(CamelToSnake(s)) == s
    decreases |s|
  {
    if s == [] {
    } else if |s| >= 2 && IsLowerAscii(s[0]) && IsUpperAscii(s[1]) {
      RestorableSuffix(s, 2);
      CamelSnakeRoundTrip(s[2..]);
      CamelToSnakePair(s);
      var low := ToLowerAscii(s[1]);
      SnakeToCamelCons(s[0], ['_', low] + CamelToSnake(s[2..]));
      SnakeToCamelUnderscore(low, CamelToSnake(s[2..]));
      UpperOfLower(s[1]);
      assert s == [s[0]] + ([s[1]] + s[2..]);
    } else {
      assert !IsUpperAscii(s[0]) && s[0] != '_';
      RestorableSuffix(s, 1);
      CamelSnakeRoundTrip(s[1..]);
      CamelToSnakeCons(s);
      SnakeToCamelCons(s[0], CamelToSnake(s[1..]));
      assert s == [s[0]] + s[1..];
    }
  }

  /** A JavaScript number: a real value or NaN. */
  datatype FloatValue = Num(x: real) | NotANumber

  /** The argument of `digitSeparator`. */
  datatype Argument = Undefined | Null | NumberArg(v: FloatValue) | StringArg(s: string)

  /** `digitSeparator` with `parseFloat` and the locale formatting as parameters:
      "0" for a missing argument or one that is not a number, the formatted
      number otherwise. */
  function DigitSeparator(value: Argument, parseFloat: string -> FloatValue, format: real -> string): (r: string)
    ensures value.Undefined? || value.Null? ==> r == "0"
    ensures value.NumberArg? ==> r == (if value.v.Num? then format(value.v.x) else "0")
    ensures value.StringArg? ==> r == (if parseFloat(value.s).Num? then format(parseFloat(value.s).x) else "0")
  {
    if value.Undefined? || value.Null? then "0"
    else
      var num := if value.StringArg? then parseFloat(value.s) else value.v;
      if num.NotANumber? then "0" else format(num.x)
  }

  /** The guard cases, and only they, give "0" when the formatter never writes
      "0" (as with Persian digits, where zero is "۰"). */
  lemma DigitSeparatorZeroMeansGuard(value: Argument, parseFloat: string -> FloatValue, format: real -> string)
    requires forall x :: format(x) != "0"
    ensures DigitSeparator(value, parseFloat, format) == "0" <==>
      || value.Undefined? || value.Null?
      || value == NumberArg(NotANumber)
      || (value.StringArg? && parseFloat(value.s).NotANumber?)
  {
  }
}
