/**
 * The few Python string operations the parsers rely on, with Python's
 * semantics restricted to ASCII: `str.strip()`, `str.split()`,
 * `str.split(sep)`, `str.split(sep, 1)`, `str.lower()`, `in`,
 * `startswith`/`endswith`, `' '.join`, `str.isdigit()` and `int()`.
 */
module Text {
  import opened Base

  /** Whitespace as `str.split()`/`str.strip()` see it, restricted to ASCII
      (tab, line feed, vertical tab, form feed, carriage return, the four
      information separators and the space). */
  predicate IsSpace(c: char) {
    ('\t' <= c <= '\r') || ('\U{1C}' <= c <= ' ')
  }

  predicate IsBlank(s: string) {
    forall k :: 0 <= k < |s| ==> IsSpace(s[k])
  }

  function TrimLeft(s: string): (r: string)
    ensures |r| <= |s| && r == s[|s| - |r|..]
    ensures r == [] || !IsSpace(r[0])
    ensures forall k :: 0 <= k < |s| - |r| ==> IsSpace(s[k])
  {
    if |s| > 0 && IsSpace(s[0]) then TrimLeft(s[1..]) else s
  }

  function TrimRight(s: string): (r: string)
    ensures |r| <= |s| && r == s[..|r|]
    ensures r == [] || !IsSpace(r[|r| - 1])
    ensures forall k :: |r| <= k < |s| ==> IsSpace(s[k])
  {
    if |s| > 0 && IsSpace(s[|s| - 1]) then TrimRight(s[..|s| - 1]) else s
  }

  /** `s.strip()`: the text without leading and trailing whitespace. */
  function Strip(s: string): (r: string)
    ensures |r| <= |s|
    ensures r == [] || (!IsSpace(r[0]) && !IsSpace(r[|r| - 1]))
  {
    TrimRight(TrimLeft(s))
  }

  /** `if s.strip():` is false exactly for blank text. */
  lemma StripEmptyIffBlank(s: string)
    ensures Strip(s) == [] <==> IsBlank(s)
  {
    if IsBlank(s) {
      BlankTrimsAway(s);
    }
  }

  lemma {:induction false} BlankTrimsAway(s: string)
    requires IsBlank(s)
    ensures TrimLeft(s) == []
  {
    if |s| > 0 {
      BlankTrimsAway(s[1..]);
    }
  }

  function LowerChar(c: char): char {
    if 'A' <= c <= 'Z' then (c as int + 32) as char else c
  }

  /** `s.lower()` on ASCII letters; other characters are kept. */
  function Lower(s: string): (r: string)
    ensures |r| == |s|
    ensures forall k :: 0 <= k < |s| ==> r[k] == LowerChar(s[k])
  {
    seq(|s|, k requires 0 <= k < |s| => LowerChar(s[k]))
  }

  /** `s.replace(a, b)` for single characters. */
  function ReplaceChar(s: string, a: char, b: char): (r: string)
    ensures |r| == |s|
    ensures forall k :: 0 <= k < |s| ==> r[k] == (if s[k] == a then b else s[k])
  {
    seq(|s|, k requires 0 <= k < |s| => if s[k] == a then b else s[k])
  }

  /** `p` occurs in `s` starting at index `i`. */
  predicate OccursAt(s: string, p: string, i: int) {
    0 <= i <= |s| - |p| && s[i..i + |p|] == p
  }

  /** Python's substring test `p in s`. */
  predicate Contains(s: string, p: string) {
    exists i | 0 <= i <= |s| - |p| :: OccursAt(s, p, i)
  }

  /** A pattern that ends with `p` is found wherever the longer one is. */
  lemma ContainsSuffixOf(s: string, q: string, p: string)
    requires |p| <= |q| && q[|q| - |p|..] == p
    requires Contains(s, q)
    ensures Contains(s, p)
  {
    var i :| 0 <= i <= |s| - |q| && OccursAt(s, q, i);
    var j := i + |q| - |p|;
    assert s[j..j + |p|] == s[i..i + |q|][|q| - |p|..];
    assert OccursAt(s, p, j);
  }

  /** A character missing from `s` rules out every pattern that uses it. */
  lemma MissingCharRulesOut(s: string, p: string, c: char, k: nat)
    requires k < |p| && p[k] == c
    requires c !in s
    ensures !Contains(s, p)
  {
    forall i | 0 <= i <= |s| - |p| ensures !OccursAt(s, p, i) {
      assert s[i..i + |p|][k] == s[i + k];
    }
  }

  predicate StartsWith(s: string, p: string) {
    |p| <= |s| && s[..|p|] == p
  }

  predicate EndsWith(s: string, p: string) {
    |p| <= |s| && s[|s| - |p|..] == p
  }

  /** `s.split(sep)`: the pieces between occurrences of `sep`, empty ones kept. */
  function SplitOn(s: string, sep: char): (r: seq<string>)
    ensures |r| >= 1
    ensures forall k :: 0 <= k < |r| ==> sep !in r[k]
  {
    if |s| == 0 then [""]
    else
      var rest := SplitOn(s[1..], sep);
      if s[0] == sep then [""] + rest else [[s[0]] + rest[0]] + rest[1..]
  }

  /** Text without the separator is a single piece. */
  lemma {:induction false} SplitOnWhole(a: string, sep: char)
    requires sep !in a
    ensures SplitOn(a, sep) == [a]
  {
    if |a| > 0 {
      SplitOnWhole(a[1..], sep);
      assert [a[0]] + a[1..] == a;
    }
  }

  /** The first piece is the text up to the first separator. */
  lemma {:induction false} SplitOnPiece(a: string, b: string, sep: char)
    requires sep !in a
    ensures SplitOn(a + [sep] + b, sep) == [a] + SplitOn(b, sep)
  {
    if |a| == 0 {
      assert a + [sep] + b == [sep] + b;
      assert ([sep] + b)[1..] == b;
    } else {
      SplitOnPiece(a[1..], b, sep);
      assert (a + [sep] + b)[1..] == a[1..] + [sep] + b;
      assert [a[0]] + a[1..] == a;
    }
  }

  /** `sep.join(parts)`. */
  function JoinWith(parts: seq<string>, sep: string): string {
    if |parts| == 0 then ""
    else if |parts| == 1 then parts[0]
    else parts[0] + sep + JoinWith(parts[1..], sep)
  }

  /** Splitting on a character and joining the pieces back gives the text again. */
  lemma {:induction false} JoinSplitOn(s: string, sep: char)
    ensures JoinWith(SplitOn(s, sep), [sep]) == s
  {
    if |s| > 0 {
      var rest := SplitOn(s[1..], sep);
      JoinSplitOn(s[1..], sep);
      if s[0] == sep {
        assert SplitOn(s, sep) == [""] + rest;
        assert JoinWith([""] + rest, [sep]) == "" + [sep] + JoinWith(rest, [sep]);
        assert s == [s[0]] + s[1..];
      } else {
        var r := [[s[0]] + rest[0]] + rest[1..];
        assert SplitOn(s, sep) == r;
        if |rest| == 1 {
          assert JoinWith(r, [sep]) == [s[0]] + rest[0];
        } else {
          assert JoinWith(r, [sep]) == [s[0]] + rest[0] + [sep] + JoinWith(rest[1..], [sep]);
          assert JoinWith(rest, [sep]) == rest[0] + [sep] + JoinWith(rest[1..], [sep]);
        }
        assert s == [s[0]] + s[1..];
      }
    }
  }

  /** Index of the first occurrence of `c` in `s`. */
  function IndexOf(s: string, c: char): (i: nat)
    requires c in s
    ensures i < |s| && s[i] == c && c !in s[..i]
  {
    if s[0] == c then 0
    else
      assert c in s[1..] by { var k :| 0 <= k < |s| && s[k] == c; assert s[1..][k - 1] == c; }
      1 + IndexOf(s[1..], c)
  }

  /** `s.split(c, 1)[0]`: the text before the first `c`. */
  function Before(s: string, c: char): (r: string)
    requires c in s
    ensures c !in r
  {
    s[..IndexOf(s, c)]
  }

  /** `s.split(c, 1)[1]`: the text after the first `c`. */
  function After(s: string, c: char): (r: string)
    requires c in s
    ensures s == Before(s, c) + [c] + r
  {
    s[IndexOf(s, c) + 1..]
  }

  /** Length of the run of non-space characters at the start of `s`. */
  function TokenLen(s: string): (n: nat)
    ensures n <= |s|
    ensures forall k :: 0 <= k < n ==> !IsSpace(s[k])
    ensures n == |s| || IsSpace(s[n])
  {
    if |s| == 0 || IsSpace(s[0]) then 0 else 1 + TokenLen(s[1..])
  }

  predicate IsToken(t: string) {
    |t| > 0 && forall k :: 0 <= k < |t| ==> !IsSpace(t[k])
  }

  /** `s.split()`: the maximal runs of non-space characters, in order. */
  function Tokens(s: string): (r: seq<string>)
    ensures forall k :: 0 <= k < |r| ==> IsToken(r[k])
    decreases |s|
  {
    if |s| == 0 then []
    else if IsSpace(s[0]) then Tokens(s[1..])
    else
      var n := TokenLen(s);
      [s[..n]] + Tokens(s[n..])
  }

  lemma {:induction false} TokensOfToken(t: string, rest: string)
    requires IsToken(t)
    requires rest == [] || IsSpace(rest[0])
    ensures Tokens(t + rest) == [t] + Tokens(rest)
  {
    var s := t + rest;
    TokenLenOfToken(t, rest);
    assert s[..|t|] == t && s[|t|..] == rest;
  }

  lemma {:induction false} TokenLenOfToken(t: string, rest: string)
    requires IsToken(t)
    requires rest == [] || IsSpace(rest[0])
    ensures TokenLen(t + rest) == |t|
  {
    if |t| > 1 {
      assert (t + rest)[1..] == t[1..] + rest;
      TokenLenOfToken(t[1..], rest);
    } else {
      assert (t + rest)[1..] == rest;
    }
  }

  /** Re-splitting words joined by single spaces gives the words back. */
  lemma {:induction false} TokensJoin(ws: seq<string>)
    requires forall k :: 0 <= k < |ws| ==> IsToken(ws[k])
    ensures Tokens(JoinWith(ws, " ")) == ws
  {
    if |ws| == 1 {
      TokensOfToken(ws[0], "");
      assert ws[0] + "" == ws[0];
    } else if |ws| > 1 {
      var tail := JoinWith(ws[1..], " ");
      TokensJoin(ws[1..]);
      assert JoinWith(ws, " ") == ws[0] + (" " + tail);
      TokensOfToken(ws[0], " " + tail);
      assert (" " + tail)[1..] == tail;
    }
  }

  predicate IsDigit(c: char) {
    '0' <= c <= '9'
  }

  /** `s.isdigit()` on ASCII text: non-empty and only digits. */
  predicate IsDigits(s: string) {
    |s| > 0 && forall k :: 0 <= k < |s| ==> IsDigit(s[k])
  }

  /** The decimal value of a string of digits. */
  function DigitsValue(s: string): (n: nat)
    requires forall k :: 0 <= k < |s| ==> IsDigit(s[k])
  {
    if |s| == 0 then 0
    else 10 * DigitsValue(s[..|s| - 1]) + DigitValue(s[|s| - 1])
  }

  function DigitValue(c: char): (d: nat)
    requires IsDigit(c)
    ensures d < 10
  {
    (c as int - '0' as int) as nat
  }

  /** Python's `int(s)` on already stripped text, simplified to an optional
      sign followed by ASCII digits; anything else is the ValueError case. */
  function ParseInt(s: string): Option<int> {
    if |s| > 0 && (s[0] == '+' || s[0] == '-') then
      if IsDigits(s[1..]) then
        var v: int := DigitsValue(s[1..]);
        Some(if s[0] == '-' then -v else v)
      else None
    else if IsDigits(s) then Some(DigitsValue(s))
    else None
  }

  function DigitChar(d: nat): char
    requires d < 10
  {
    ('0' as int + d) as char
  }

  /** `str(n)` for a natural number. */
  function NatToString(n: nat): (r: string)
    ensures IsDigits(r)
  {
    if n < 10 then [DigitChar(n)] else NatToString(n / 10) + [DigitChar(n % 10)]
  }

  /** `str(n)` for any integer. */
  function IntToString(n: int): string {
    if n < 0 then "-" + NatToString(-n) else NatToString(n)
  }

  lemma {:induction false} DigitsValueOfNat(n: nat)
    ensures DigitsValue(NatToString(n)) == n
  {
    if n >= 10 {
      DigitsValueOfNat(n / 10);
      var s := NatToString(n);
      assert s[..|s| - 1] == NatToString(n / 10);
    }
  }

  /** `int(str(n)) == n`: the integer parser reads back what `str` prints. */
  lemma ParseIntOfString(n: int)
    ensures ParseInt(IntToString(n)) == Some(n)
  {
    if n < 0 {
      DigitsValueOfNat(-n);
      assert IntToString(n)[1..] == NatToString(-n);
    } else {
      DigitsValueOfNat(n);
    }
  }

  /** Some line has `p`. */
  predicate AnyLine(lines: seq<string>, p: string -> bool) {
    exists i | 0 <= i < |lines| :: p(lines[i])
  }

  lemma AnyLineSnoc(lines: seq<string>, p: string -> bool)
    requires |lines| > 0
    ensures AnyLine(lines, p) <==> AnyLine(lines[..|lines| - 1], p) || p(lines[|lines| - 1])
  {
    var init := lines[..|lines| - 1];
    if AnyLine(init, p) {
      var i :| 0 <= i < |init| && p(init[i]);
      assert lines[i] == init[i];
    }
    if AnyLine(lines, p) {
      var i :| 0 <= i < |lines| && p(lines[i]);
      if i < |init| {
        assert init[i] == lines[i];
      }
    }
  }
}
