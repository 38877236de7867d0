/**
 * String primitives of JavaScript that the application relies on, written
 * out over `seq<char>`: ASCII case conversion, `String.prototype.trim`,
 * `includes`, `startsWith`, decimal rendering of integers (`String(n)`,
 * template literals) and decimal parsing of a digit run (`parseInt`).
 */
module Text {

  // ---------------------------------------------------------------------
  // Case conversion (ASCII letters only)

  predicate IsAsciiUpper(c: char) { 'A' <= c <= 'Z' }
  predicate IsAsciiLower(c: char) { 'a' <= c <= 'z' }

  function LowerChar(c: char): (r: char)
    ensures !IsAsciiUpper(r)
    ensures IsAsciiUpper(c) ==> r as int == c as int + 32
    ensures !IsAsciiUpper(c) ==> r == c
  {
    if IsAsciiUpper(c) then (c as int + 32) as char else c
  }

  function UpperChar(c: char): (r: char)
    ensures !IsAsciiLower(r)
    ensures IsAsciiLower(c) ==> r as int == c as int - 32
    ensures !IsAsciiLower(c) ==> r == c
  {
    if IsAsciiLower(c) then (c as int - 32) as char else c
  }

  /** Models `s.toLowerCase()` on ASCII letters. */
  function ToLower(s: string): (r: string)
    ensures |r| == |s|
    ensures forall i :: 0 <= i < |s| ==> r[i] == LowerChar(s[i])
  {
    if s == [] then [] else [LowerChar(s[0])] + ToLower(s[1..])
  }

  lemma {:induction false} ToLowerIdempotent(s: string)
    ensures ToLower(ToLower(s)) == ToLower(s)
  {
    var t := ToLower(s);
    assert forall i :: 0 <= i < |t| ==> LowerChar(t[i]) == t[i];
  }

  /** A string without upper-case ASCII letters is its own lower case. */
  lemma {:induction false} LowercaseFixed(s: string)
    requires forall i :: 0 <= i < |s| ==> !IsAsciiUpper(s[i])
    ensures ToLower(s) == s
  {
  }

  // ---------------------------------------------------------------------
  // Substrings

  predicate OccursAt(s: string, sub: string, i: nat) {
    i + |sub| <= |s| && s[i..i + |sub|] == sub
  }

  /** Models `s.startsWith(p)`. */
  predicate StartsWith(s: string, p: string) {
    |p| <= |s| && s[..|p|] == p
  }

  /** Models `s.includes(sub)`: some position of s starts an occurrence of sub. */
  predicate Contains(s: string, sub: string) {
    exists i: nat :: i <= |s| && OccursAt(s, sub, i)
  }

  // ---------------------------------------------------------------------
  // Whitespace and trim

  /** The characters ECMAScript's `trim` removes: WhiteSpace and LineTerminator. */
  predicate IsWhitespace(c: char) {
    c == ' ' || c == '\t' || c == '\n' || c == '\r' || c == '\U{0B}' || c == '\U{0C}'
    || c == '\U{A0}' || c == '\U{1680}' || ('\U{2000}' <= c <= '\U{200A}')
    || c == '\U{2028}' || c == '\U{2029}' || c == '\U{202F}' || c == '\U{205F}'
    || c == '\U{3000}' || c == '\U{FEFF}'
  }

  predicate Blank(s: string) {
    forall i :: 0 <= i < |s| ==> IsWhitespace(s[i])
  }

  function TrimStart(s: string): (r: string)
    ensures |r| <= |s| && r == s[|s| - |r|..]
    ensures r == [] || !IsWhitespace(r[0])
  {
    if |s| > 0 && IsWhitespace(s[0]) then TrimStart(s[1..]) else s
  }

  function TrimEnd(s: string): (r: string)
    ensures |r| <= |s| && r == s[..|r|]
    ensures r == [] || !IsWhitespace(r[|r| - 1])
  {
    if |s| > 0 && IsWhitespace(s[|s| - 1]) then TrimEnd(s[..|s| - 1]) else s
  }

  /** Models `s.trim()`. */
  function Trim(s: string): (r: string)
    ensures r == [] || (!IsWhitespace(r[0]) && !IsWhitespace(r[|r| - 1]))
  {
    TrimEnd(TrimStart(s))
  }

  lemma {:induction false} TrimStartBlank(s: string)
    ensures TrimStart(s) == [] <==> Blank(s)
    decreases |s|
  {
    if |s| > 0 && IsWhitespace(s[0]) {
      TrimStartBlank(s[1..]);
      if Blank(s[1..]) { assert Blank(s); }
    }
  }

  /** A string trims to "" exactly when it is all whitespace. */
  lemma {:induction false} TrimEmptyIffBlank(s: string)
    ensures Trim(s) == [] <==> Blank(s)
  {
    var t := TrimStart(s);
    TrimStartBlank(s);
    if t != [] {
      // t starts with a non-whitespace character, which TrimEnd keeps
      assert !IsWhitespace(t[0]);
      TrimEndKeepsFirst(t);
    }
  }

  lemma {:induction false} TrimEndKeepsFirst(t: string)
    requires t != [] && !IsWhitespace(t[0])
    ensures TrimEnd(t) != []
    decreases |t|
  {
    if |t| > 1 && IsWhitespace(t[|t| - 1]) {
      TrimEndKeepsFirst(t[..|t| - 1]);
    }
  }

  lemma {:induction false} TrimStartAfterBlank(w: string, x: string)
    requires Blank(w)
    ensures TrimStart(w + x) == TrimStart(x)
    decreases |w|
  {
    if w != [] {
      var y := w + x;
      assert y[0] == w[0] && IsWhitespace(w[0]);
      assert TrimStart(y) == TrimStart(y[1..]);
      assert y[1..] == w[1..] + x;
      TrimStartAfterBlank(w[1..], x);
    } else {
      assert w + x == x;
    }
  }

  /** Leading whitespace never survives a trim. */
  lemma {:induction false} TrimAfterBlank(w: string, x: string)
    requires Blank(w)
    ensures Trim(w + x) == Trim(x)
  {
    TrimStartAfterBlank(w, x);
  }

  lemma {:induction false} TrimStartOfTrimmed(s: string)
    requires s == [] || !IsWhitespace(s[0])
    ensures TrimStart(s) == s
  {
  }

  lemma {:induction false} TrimEndOfTrimmed(s: string)
    requires s == [] || !IsWhitespace(s[|s| - 1])
    ensures TrimEnd(s) == s
  {
  }

  lemma {:induction false} TrimIdempotent(s: string)
    ensures Trim(Trim(s)) == Trim(s)
  {
    var t := Trim(s);
    TrimStartOfTrimmed(t);
    TrimEndOfTrimmed(t);
  }

  lemma {:induction false} TrimStartAppend(s: string, w: string)
    requires !Blank(s)
    ensures TrimStart(s + w) == TrimStart(s) + w
    decreases |s|
  {
    assert (s + w)[0] == s[0];
    if IsWhitespace(s[0]) {
      assert !Blank(s[1..]) by {
        var k :| 0 <= k < |s| && !IsWhitespace(s[k]);
        assert s[1..][k - 1] == s[k];
      }
      assert (s + w)[1..] == s[1..] + w;
      TrimStartAppend(s[1..], w);
    }
  }

  lemma {:induction false} TrimEndWhitespace(s: string, c: char)
    requires IsWhitespace(c)
    ensures TrimEnd(s + [c]) == TrimEnd(s)
  {
    assert (s + [c])[..|s|] == s;
  }

  /** A trailing line feed never survives a trim. */
  lemma {:induction false} TrimNewline(s: string)
    ensures Trim(s + "\n") == Trim(s)
  {
    if Blank(s) {
      TrimStartAfterBlank(s, "\n");
      TrimStartBlank(s);
      assert TrimStart("\n") == TrimStart("\n"[1..]);
    } else {
      TrimStartAppend(s, "\n");
      TrimEndWhitespace(TrimStart(s), '\n');
    }
  }

  // ---------------------------------------------------------------------
  // Decimal digits

  predicate IsDigit(c: char) { '0' <= c <= '9' }

  predicate AllDigits(s: string) {
    forall i :: 0 <= i < |s| ==> IsDigit(s[i])
  }

  function DigitChar(d: nat): (c: char)
    requires d < 10
    ensures IsDigit(c) && c as int - '0' as int == d
  {
    ('0' as int + d) as char
  }

  /** `String(n)` for a non-negative integer. */
  function NatToString(n: nat): (r: string)
    ensures |r| >= 1 && AllDigits(r)
    ensures r[0] != '0' || n == 0
  {
    if n < 10 then [DigitChar(n)] else NatToString(n / 10) + [DigitChar(n % 10)]
  }

  /** `String(i)` for any integer: a minus sign, then the digits of |i|. */
  function IntToString(i: int): (r: string)
    ensures |r| >= 1
    ensures (r[0] == '-') <==> i < 0
  {
    if i < 0 then "-" + NatToString(-i) else NatToString(i)
  }

  /** The value of a run of decimal digits, as `parseInt(s, 10)` computes it. */
  function DigitsValue(s: string): nat
    requires AllDigits(s)
  {
    if s == [] then 0 else DigitsValue(s[..|s| - 1]) * 10 + (s[|s| - 1] as int - '0' as int)
  }

  lemma {:induction false} DigitsValueOfNatToString(n: nat)
    ensures DigitsValue(NatToString(n)) == n
  {
    if n >= 10 {
      var s := NatToString(n / 10) + [DigitChar(n % 10)];
      assert s[..|s| - 1] == NatToString(n / 10);
      DigitsValueOfNatToString(n / 10);
    }
  }

  /** The longest prefix of `s` made of digits (what a greedy `\d+` consumes). */
  function DigitRun(s: string): (r: string)
    ensures AllDigits(r) && StartsWith(s, r)
    ensures |r| == |s| || !IsDigit(s[|r|])
  {
    if s != [] && IsDigit(s[0]) then [s[0]] + DigitRun(s[1..]) else []
  }

  lemma {:induction false} DigitRunOfDigits(d: string, rest: string)
    requires AllDigits(d)
    requires rest == [] || !IsDigit(rest[0])
    ensures DigitRun(d + rest) == d
    decreases |d|
  {
    if d != [] {
      assert (d + rest)[1..] == d[1..] + rest;
      DigitRunOfDigits(d[1..], rest);
    }
  }

  // ---------------------------------------------------------------------
  // Joining

  /** `parts.join(sep)`. */
  function Join(parts: seq<string>, sep: string): (r: string)
    ensures |parts| == 1 ==> r == parts[0]
  {
    if parts == [] then ""
    else if |parts| == 1 then parts[0]
    else parts[0] + sep + Join(parts[1..], sep)
  }

  /** `s.split("\n")`: the pieces between line feeds, at least one. */
  function SplitLines(s: string): (r: seq<string>)
    ensures |r| >= 1
    ensures forall k :: 0 <= k < |r| ==> '\n' !in r[k]
    decreases |s|
  {
    var head := Before(s, '\n');
    if |head| == |s| then [s] else [head] + SplitLines(s[|head| + 1..])
  }

  /** Each line followed by a line feed, concatenated. */
  function Unlines(lines: seq<string>): string {
    if lines == [] then "" else lines[0] + "\n" + Unlines(lines[1..])
  }

  /** Splitting on line feeds loses nothing: the lines, each ended again, give `s` and one more line feed. */
  lemma {:induction false} UnlinesSplitLines(s: string)
    ensures Unlines(SplitLines(s)) == s + "\n"
    decreases |s|
  {
    var head := Before(s, '\n');
    if |head| == |s| {
      assert head == s;
      assert Unlines([s]) == s + "\n" + "";
    } else {
      var rest := s[|head| + 1..];
      UnlinesSplitLines(rest);
      assert s == head + "\n" + rest;
      assert Unlines(SplitLines(s)) == head + "\n" + Unlines(SplitLines(rest));
    }
  }

  /** `s.split(c)[0]`: everything before the first `c`, or all of `s`. */
  function Before(s: string, c: char): (r: string)
    ensures StartsWith(s, r)
    ensures c !in r
    ensures |r| == |s| || s[|r|] == c
  {
    if s == [] || s[0] == c then [] else [s[0]] + Before(s[1..], c)
  }

  // ---------------------------------------------------------------------
  // Splitting on a set of separator characters

  /** Everything before the first separator, or all of `s`. */
  function BeforeAny(s: string, seps: set<char>): (r: string)
    ensures StartsWith(s, r)
    ensures forall i :: 0 <= i < |r| ==> r[i] !in seps
    ensures |r| == |s| || s[|r|] in seps
  {
    if s == [] || s[0] in seps then [] else [s[0]] + BeforeAny(s[1..], seps)
  }

  /** `s.split(/[...]/)` with a character class: the pieces between separators, at least one. */
  function SplitAny(s: string, seps: set<char>): (r: seq<string>)
    ensures |r| >= 1
    ensures forall k, i :: 0 <= k < |r| && 0 <= i < |r[k]| ==> r[k][i] !in seps
    decreases |s|
  {
    var head := BeforeAny(s, seps);
    if |head| == |s| then [s] else [head] + SplitAny(s[|head| + 1..], seps)
  }

  function Glue(parts: seq<string>): string {
    if parts == [] then "" else parts[0] + Glue(parts[1..])
  }

  /** `s` with every separator removed. */
  function Without(s: string, seps: set<char>): (r: string)
    ensures |r| <= |s|
  {
    if s == [] then "" else (if s[0] in seps then "" else [s[0]]) + Without(s[1..], seps)
  }

  lemma {:induction false} WithoutAppend(a: string, b: string, seps: set<char>)
    ensures Without(a + b, seps) == Without(a, seps) + Without(b, seps)
    decreases |a|
  {
    if a != [] {
      assert (a + b)[0] == a[0] && (a + b)[1..] == a[1..] + b;
      WithoutAppend(a[1..], b, seps);
      var x := if a[0] in seps then "" else [a[0]];
      assert Without(a + b, seps) == x + (Without(a[1..], seps) + Without(b, seps));
      assert x + (Without(a[1..], seps) + Without(b, seps)) == (x + Without(a[1..], seps)) + Without(b, seps);
    } else {
      assert a + b == b;
    }
  }

  lemma {:induction false} WithoutNone(s: string, seps: set<char>)
    requires forall i :: 0 <= i < |s| ==> s[i] !in seps
    ensures Without(s, seps) == s
    decreases |s|
  {
    if s != [] {
      WithoutNone(s[1..], seps);
      assert s == [s[0]] + s[1..];
    }
  }

  /** Splitting loses nothing but the separators: the pieces, concatenated, are `s` without them. */
  lemma {:induction false} SplitAnyKeepsText(s: string, seps: set<char>)
    ensures Glue(SplitAny(s, seps)) == Without(s, seps)
    decreases |s|
  {
    var head := BeforeAny(s, seps);
    WithoutNone(head, seps);
    if |head| == |s| {
      assert head == s;
      assert Glue([s]) == s + "";
    } else {
      var rest := s[|head| + 1..];
      var sep := [s[|head|]];
      SplitAnyKeepsText(rest, seps);
      assert s == (head + sep) + rest;
      WithoutAppend(head + sep, rest, seps);
      WithoutAppend(head, sep, seps);
      assert Without(sep, seps) == "" + Without([], seps);
      assert Without(head + sep, seps) == head;
      assert Glue(SplitAny(s, seps)) == head + Glue(SplitAny(rest, seps));
    }
  }
}
