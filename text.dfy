/** The string operations the components rely on, restricted to ASCII:
    `trim`, `toLowerCase`, `includes`, `String(n)`, `padStart` and the
    e-mail pattern `\S+@\S+\.\S+`. */
module Text {

  /** The ASCII characters JavaScript's `trim` and the regular-expression class `\s` treat as white space. */
  predicate IsSpace(c: char) {
    c == ' ' || c == '\t' || c == '\n' || c == '\r' || c == '\U{000B}' || c == '\U{000C}'
  }

  predicate AllSpace(s: string) {
    forall i :: 0 <= i < |s| ==> IsSpace(s[i])
  }

  /** Leading white space removed. */
  function TrimStart(s: string): string {
    if s != [] && IsSpace(s[0]) then TrimStart(s[1..]) else s
  }

  /** Trailing white space removed. */
  function TrimEnd(s: string): string {
    if s != [] && IsSpace(s[|s| - 1]) then TrimEnd(s[..|s| - 1]) else s
  }

  /** `TrimStart` drops a prefix made only of white space, and what it keeps
      does not start with white space. */
  lemma {:induction false} TrimStartSpec(s: string)
    ensures var r := TrimStart(s);
            |r| <= |s| && r == s[|s| - |r|..]
            && AllSpace(s[..|s| - |r|])
            && (r != [] ==> !IsSpace(r[0]))
  {
    if s != [] && IsSpace(s[0]) {
      TrimStartSpec(s[1..]);
      var r := TrimStart(s);
      assert s[1..][|s| - 1 - |r|..] == s[|s| - |r|..];
      assert s[..|s| - |r|] == [s[0]] + s[1..][..|s| - 1 - |r|];
    }
  }

  /** `TrimEnd` drops a suffix made only of white space, and what it keeps does
      not end with white space. */
  lemma {:induction false} TrimEndSpec(s: string)
    ensures var r := TrimEnd(s);
            |r| <= |s| && r == s[..|r|]
            && AllSpace(s[|r|..])
            && (r != [] ==> !IsSpace(r[|r| - 1]))
  {
    if s != [] && IsSpace(s[|s| - 1]) {
      var init := s[..|s| - 1];
      TrimEndSpec(init);
      var r := TrimEnd(s);
      assert init[..|r|] == s[..|r|];
      assert s[|r|..] == init[|r|..] + [s[|s| - 1]];
    }
  }

  /** `s.trim()` */
  function Trim(s: string): string {
    TrimEnd(TrimStart(s))
  }

  /** `!s.trim()` */
  predicate Blank(s: string) {
    Trim(s) == ""
  }

  /** The trimmed string is empty exactly when every character is white space. */
  lemma BlankIffAllSpace(s: string)
    ensures Blank(s) <==> AllSpace(s)
  {
    var t := TrimStart(s);
    TrimStartSpec(s);
    TrimEndSpec(t);
    if t != [] {
      assert t[0] == s[|s| - |t|];
    } else {
      assert s[..|s|] == s;
    }
  }

  function LowerChar(c: char): char {
    if 'A' <= c <= 'Z' then (c as int + 32) as char else c
  }

  /** `s.toLowerCase()` on ASCII letters; every other character is kept. */
  function Lower(s: string): (r: string)
    ensures |r| == |s|
    ensures forall i :: 0 <= i < |s| ==> r[i] == LowerChar(s[i])
  {
    if s == [] then [] else [LowerChar(s[0])] + Lower(s[1..])
  }

  /** `s.length`: JavaScript counts UTF-16 code units, so a character outside
      the Basic Multilingual Plane (a surrogate pair) counts twice. */
  function Utf16Length(s: string): (n: nat)
    ensures |s| <= n <= 2 * |s|
    ensures n == 0 <==> s == []
  {
    if s == [] then 0 else (if s[0] as int >= 0x1_0000 then 2 else 1) + Utf16Length(s[1..])
  }

  /** On text made only of Basic Multilingual Plane characters, the UTF-16
      length is the number of characters. */
  lemma {:induction false} Utf16LengthBmp(s: string)
    requires forall i :: 0 <= i < |s| ==> s[i] as int < 0x1_0000
    ensures Utf16Length(s) == |s|
  {
    if s != [] {
      Utf16LengthBmp(s[1..]);
    }
  }

  predicate OccursAt(hay: string, needle: string, i: int)
    requires 0 <= i <= |hay| - |needle|
  {
    hay[i..i + |needle|] == needle
  }

  /** `hay.includes(needle)` */
  predicate Contains(hay: string, needle: string) {
    exists i :: 0 <= i <= |hay| - |needle| && OccursAt(hay, needle, i)
  }

  /** `/\S+@\S+\.\S+/.test(s)` (not anchored), as a search: each '@' with a
      non-space character before it is tried in turn, and from it the text is
      scanned over non-space characters for a '.' that is not the first of them
      and has a non-space character after it. */
  predicate EmailPatternMatches(s: string) {
    AtFrom(s, 1)
  }

  /** Some '@' at position `at` or later starts a match. */
  predicate AtFrom(s: string, at: nat)
    requires at >= 1
    decreases |s| - at
  {
    && at + 3 < |s|
    && ((s[at] == '@' && !IsSpace(s[at - 1]) && DotFrom(s, at, at + 1)) || AtFrom(s, at + 1))
  }

  /** The characters from `at + 1` up to `dot` are not white space, and at
      `dot` or later, still over non-space text, a '.' closes the match. */
  predicate DotFrom(s: string, at: nat, dot: nat)
    requires 0 < at < dot
    decreases |s| - dot
  {
    && dot + 1 < |s|
    && !IsSpace(s[dot])
    && ((at + 1 < dot && s[dot] == '.' && !IsSpace(s[dot + 1])) || DotFrom(s, at, dot + 1))
  }

  /** The regular expression matches with its '@' at `at` and its '.' at `dot`:
      the first and last `\S+` can always be shrunk to one character, and the
      middle one is exactly the text between the '@' and the '.'. */
  predicate EmailShapeAt(s: string, at: int, dot: int)
    requires 0 < at && at + 1 < dot && dot + 1 < |s|
  {
    && s[at] == '@' && s[dot] == '.'
    && !IsSpace(s[at - 1]) && !IsSpace(s[dot + 1])
    && NoSpaceIn(s, at + 1, dot)
  }

  predicate NoSpaceIn(s: string, from: int, to: int)
    requires 0 <= from <= to <= |s|
  {
    forall k :: from <= k < to ==> !IsSpace(s[k])
  }

  /** The scan for the '.' finds one exactly when some position qualifies. */
  lemma {:induction false} DotFromMeans(s: string, at: nat, from: nat)
    requires 0 < at < from
    ensures DotFrom(s, at, from) <==>
              exists dot :: from <= dot && at + 1 < dot && dot + 1 < |s| && s[dot] == '.' && !IsSpace(s[dot + 1])
                            && NoSpaceIn(s, from, dot)
    decreases |s| - from
  {
    if DotFrom(s, at, from) {
      if at + 1 < from && s[from] == '.' && !IsSpace(s[from + 1]) {
        assert NoSpaceIn(s, from, from);
      } else {
        DotFromMeans(s, at, from + 1);
        var dot :| from + 1 <= dot && at + 1 < dot && dot + 1 < |s| && s[dot] == '.' && !IsSpace(s[dot + 1])
                   && NoSpaceIn(s, from + 1, dot);
        assert NoSpaceIn(s, from, dot);
      }
    }
    if exists dot :: from <= dot && at + 1 < dot && dot + 1 < |s| && s[dot] == '.' && !IsSpace(s[dot + 1])
                     && NoSpaceIn(s, from, dot) {
      var dot :| from <= dot && at + 1 < dot && dot + 1 < |s| && s[dot] == '.' && !IsSpace(s[dot + 1])
                 && NoSpaceIn(s, from, dot);
      if dot > from {
        assert NoSpaceIn(s, from + 1, dot);
        DotFromMeans(s, at, from + 1);
      }
    }
  }

  /** The search succeeds exactly when the pattern matches somewhere: some
      '@' and '.' are placed as `EmailShapeAt` describes. */
  lemma EmailPatternMeans(s: string)
    ensures EmailPatternMatches(s) <==>
              exists at, dot :: 0 < at && at + 1 < dot && dot + 1 < |s| && EmailShapeAt(s, at, dot)
  {
    AtFromMeans(s, 1);
  }

  lemma {:induction false} AtFromMeans(s: string, from: nat)
    requires from >= 1
    ensures AtFrom(s, from) <==>
              exists at, dot :: from <= at && at + 1 < dot && dot + 1 < |s| && EmailShapeAt(s, at, dot)
    decreases |s| - from
  {
    if AtFrom(s, from) {
      if s[from] == '@' && !IsSpace(s[from - 1]) && DotFrom(s, from, from + 1) {
        DotFromMeans(s, from, from + 1);
        var dot :| from + 1 <= dot && from + 1 < dot && dot + 1 < |s| && s[dot] == '.' && !IsSpace(s[dot + 1])
                   && NoSpaceIn(s, from + 1, dot);
        assert EmailShapeAt(s, from, dot);
      } else {
        AtFromMeans(s, from + 1);
      }
    }
    if exists at, dot :: from <= at && at + 1 < dot && dot + 1 < |s| && EmailShapeAt(s, at, dot) {
      var at, dot :| from <= at && at + 1 < dot && dot + 1 < |s| && EmailShapeAt(s, at, dot);
      if at == from {
        DotFromMeans(s, from, from + 1);
        assert DotFrom(s, from, from + 1);
      } else {
        AtFromMeans(s, from + 1);
      }
    }
  }

  predicate IsDigit(c: char) {
    '0' <= c <= '9'
  }

  function DigitChar(d: nat): (c: char)
    requires d < 10
    ensures IsDigit(c) && c as int - '0' as int == d
  {
    (d + '0' as int) as char
  }

  /** `String(n)` for a non-negative integer: its decimal digits, without leading zeros. */
  function NatToString(n: nat): (r: string)
    ensures |r| >= 1
    ensures forall i :: 0 <= i < |r| ==> IsDigit(r[i])
    ensures n >= 10 ==> r[0] != '0'
  {
    if n < 10 then [DigitChar(n)] else NatToString(n / 10) + [DigitChar(n % 10)]
  }

  /** A number below 1000 is written with at most three digits. */
  lemma NatToStringShort(n: nat)
    requires n < 1000
    ensures |NatToString(n)| <= 3
  {
    if n >= 10 {
      assert |NatToString(n / 10)| <= 2 by {
        if n / 10 >= 10 {
          assert |NatToString(n / 100)| == 1;
        }
      }
    }
  }

  function DigitOf(c: char): nat
    requires IsDigit(c)
  {
    c as int - '0' as int
  }

  /** The number a string of decimal digits denotes (leading zeros allowed). */
  function DigitsValue(s: string): nat
    requires forall i :: 0 <= i < |s| ==> IsDigit(s[i])
  {
    if s == [] then 0 else DigitsValue(s[..|s| - 1]) * 10 + DigitOf(s[|s| - 1])
  }

  /** Reading back the digits `String(n)` writes gives `n`. */
  lemma {:induction false} NatToStringRoundTrip(n: nat)
    ensures DigitsValue(NatToString(n)) == n
  {
    if n >= 10 {
      var r := NatToString(n);
      assert r[..|r| - 1] == NatToString(n / 10);
      NatToStringRoundTrip(n / 10);
    }
  }

  lemma NatToStringInjective(m: nat, n: nat)
    requires NatToString(m) == NatToString(n)
    ensures m == n
  {
    NatToStringRoundTrip(m);
    NatToStringRoundTrip(n);
  }

  function Repeat(c: char, k: nat): (r: string)
    ensures |r| == k && forall i :: 0 <= i < k ==> r[i] == c
  {
    if k == 0 then [] else [c] + Repeat(c, k - 1)
  }

  /** `s.padStart(width, fill)` with a one-character fill: `s` unchanged when it
      is at least `width` long, otherwise `fill` repeated in front of it up to `width`. */
  function PadStart(s: string, width: nat, fill: char): (r: string)
    ensures |r| == if |s| >= width then |s| else width
    ensures r[|r| - |s|..] == s
    ensures forall i :: 0 <= i < |r| - |s| ==> r[i] == fill
  {
    if |s| >= width then s else Repeat(fill, width - |s|) + s
  }

  /** Zeros in front of a digit string do not change the number it denotes. */
  lemma {:induction false} LeadingZerosValue(k: nat, s: string)
    requires forall i :: 0 <= i < |s| ==> IsDigit(s[i])
    ensures forall i :: 0 <= i < |Repeat('0', k) + s| ==> IsDigit((Repeat('0', k) + s)[i])
    ensures DigitsValue(Repeat('0', k) + s) == DigitsValue(s)
    decreases |s|
  {
    var z := Repeat('0', k) + s;
    if s == [] {
      assert z == Repeat('0', k);
      ZerosValue(k);
    } else {
      assert z[..|z| - 1] == Repeat('0', k) + s[..|s| - 1];
      LeadingZerosValue(k, s[..|s| - 1]);
    }
  }

  lemma {:induction false} ZerosValue(k: nat)
    ensures DigitsValue(Repeat('0', k)) == 0
  {
    if k > 0 {
      var z := Repeat('0', k);
      assert z[..k - 1] == Repeat('0', k - 1);
      ZerosValue(k - 1);
    }
  }
}
