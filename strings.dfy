/**
 * The Python `str` operations the pipeline relies on, over `seq<char>`:
 * `isspace`/`strip`, ASCII `lower`/`upper`, `startswith`, the substring
 * test `w in s`, `sep.join`, `splitlines`, `split(sep)[0]`, and the decimal
 * text of an integer together with `int(text)`.
 */
module Strings {
  import opened Wrappers

  // ---------------------------------------------------------------- whitespace

  /** The characters Python's `str.isspace` accepts. */
  predicate IsSpace(c: char) {
    c == ' ' || c == '\t' || c == '\n' || c == '\r' || c == '\U{0b}' || c == '\U{0c}'
    || c == '\U{1c}' || c == '\U{1d}' || c == '\U{1e}' || c == '\U{1f}'
    || c == '\U{85}' || c == '\U{a0}' || c == '\U{1680}'
    || ('\U{2000}' <= c <= '\U{200a}')
    || c == '\U{2028}' || c == '\U{2029}' || c == '\U{202f}' || c == '\U{205f}' || c == '\U{3000}'
  }

  /** Neither end of `s` is whitespace: what `strip` leaves behind. */
  predicate Trimmed(s: string) {
    s == [] || (!IsSpace(s[0]) && !IsSpace(s[|s| - 1]))
  }

  function LStrip(s: string): (r: string)
    ensures |r| <= |s| && r == s[|s| - |r|..]
    ensures r == [] || !IsSpace(r[0])
    ensures forall i :: 0 <= i < |s| - |r| ==> IsSpace(s[i])
  {
    if s == [] || !IsSpace(s[0]) then s else LStrip(s[1..])
  }

  function RStrip(s: string): (r: string)
    ensures |r| <= |s| && r == s[..|r|]
    ensures r == [] || !IsSpace(r[|r| - 1])
    ensures forall i :: |r| <= i < |s| ==> IsSpace(s[i])
  {
    if s == [] || !IsSpace(s[|s| - 1]) then s else RStrip(s[..|s| - 1])
  }

  /** `s.strip()`. */
  function Strip(s: string): string {
    RStrip(LStrip(s))
  }

  lemma StripTrims(s: string)
    ensures Trimmed(Strip(s))
    ensures exists i, j :: 0 <= i <= j <= |s| && Strip(s) == s[i..j]
  {
    var l := LStrip(s);
    var r := RStrip(l);
    assert r == s[|s| - |l|..][..|r|] == s[|s| - |l|..|s| - |l| + |r|];
    if r != [] {
      assert r[0] == l[0];
    }
  }

  /** Stripping text that has no whitespace at either end changes nothing. */
  lemma StripKeepsTrimmed(s: string)
    requires Trimmed(s)
    ensures Strip(s) == s
  {
  }

  /** Whitespace-only text strips to nothing. */
  lemma StripOfBlank(s: string)
    requires forall i :: 0 <= i < |s| ==> IsSpace(s[i])
    ensures Strip(s) == []
  {
    assert LStrip(s) == [];
  }

  // ---------------------------------------------------------------- case

  /** ASCII `lower` of one character. */
  function LowerChar(c: char): char {
    if 'A' <= c <= 'Z' then (c as int + 32) as char else c
  }

  /** ASCII `upper` of one character. */
  function UpperChar(c: char): char {
    if 'a' <= c <= 'z' then (c as int - 32) as char else c
  }

  function Lower(s: string): (r: string)
    ensures |r| == |s|
    ensures forall i :: 0 <= i < |s| ==> r[i] == LowerChar(s[i])
  {
    seq(|s|, i requires 0 <= i < |s| => LowerChar(s[i]))
  }

  function Upper(s: string): (r: string)
    ensures |r| == |s|
    ensures forall i :: 0 <= i < |s| ==> r[i] == UpperChar(s[i])
  {
    seq(|s|, i requires 0 <= i < |s| => UpperChar(s[i]))
  }

  lemma LowerAppend(a: string, b: string)
    ensures Lower(a + b) == Lower(a) + Lower(b)
  {
    assert Lower(a + b) == Lower(a) + Lower(b);
  }

  lemma LowerIdempotent(s: string)
    ensures Lower(Lower(s)) == Lower(s)
  {
    assert Lower(Lower(s)) == Lower(s);
  }

  /** Lower-casing never turns a character into whitespace or whitespace into something else. */
  lemma LowerCharSpace(c: char)
    ensures IsSpace(LowerChar(c)) == IsSpace(c)
  {
  }

  lemma {:induction false} LStripLower(s: string)
    ensures LStrip(Lower(s)) == Lower(LStrip(s))
  {
    if s != [] {
      LowerCharSpace(s[0]);
      if IsSpace(s[0]) {
        assert Lower(s)[1..] == Lower(s[1..]);
        LStripLower(s[1..]);
      }
    }
  }

  lemma {:induction false} RStripLower(s: string)
    ensures RStrip(Lower(s)) == Lower(RStrip(s))
  {
    if s != [] {
      LowerCharSpace(s[|s| - 1]);
      if IsSpace(s[|s| - 1]) {
        assert Lower(s)[..|s| - 1] == Lower(s[..|s| - 1]);
        RStripLower(s[..|s| - 1]);
      }
    }
  }

  /** Stripping and lower-casing can be done in either order. */
  lemma StripLower(s: string)
    ensures Strip(Lower(s)) == Lower(Strip(s))
  {
    LStripLower(s);
    RStripLower(LStrip(s));
  }

  /** Upper-casing a lower-cased text and lower-casing it again gives the lower-cased text. */
  lemma LowerUpperLower(s: string)
    ensures Lower(Upper(Lower(s))) == Lower(s)
  {
    assert Lower(Upper(Lower(s))) == Lower(s);
  }

  // ---------------------------------------------------------------- prefixes and substrings

  /** `s.startswith(p)`. */
  predicate StartsWith(s: string, p: string) {
    |p| <= |s| && s[..|p|] == p
  }

  /** `s.endswith(p)`. */
  predicate EndsWith(s: string, p: string) {
    |p| <= |s| && s[|s| - |p|..] == p
  }

  /** `w` occurs in `s` starting at index `i`. */
  predicate OccursAt(s: string, w: string, i: int) {
    0 <= i && i + |w| <= |s| && s[i..i + |w|] == w
  }

  /** Python's `w in s` for two strings. */
  predicate Contains(s: string, w: string) {
    exists i :: 0 <= i <= |s| && OccursAt(s, w, i)
  }

  /** A substring found in a part is found in any text that has the part inside it. */
  lemma ContainsInside(a: string, m: string, b: string, w: string)
    requires Contains(m, w)
    ensures Contains(a + m + b, w)
  {
    var i :| 0 <= i <= |m| && OccursAt(m, w, i);
    assert i + |w| <= |m|;
    var s := a + m + b;
    assert s[|a| + i..|a| + i + |w|] == m[i..i + |w|];
    assert OccursAt(s, w, |a| + i);
  }

  lemma ContainsSelf(w: string)
    ensures Contains(w, w)
  {
    assert OccursAt(w, w, 0);
  }

  lemma LowerKeepsOccurrence(s: string, w: string, i: int)
    requires OccursAt(s, w, i)
    ensures OccursAt(Lower(s), Lower(w), i)
  {
    assert Lower(s)[i..i + |w|] == Lower(w);
  }

  /** The index of the first occurrence of `sep` in `s`, or `|s|` when there is none. */
  function Find(s: string, sep: string): (i: nat)
    requires sep != []
    ensures i <= |s|
    ensures i < |s| ==> OccursAt(s, sep, i)
    ensures forall j :: 0 <= j < i ==> !OccursAt(s, sep, j)
    ensures i == |s| ==> !Contains(s, sep)
    decreases |s|
  {
    if |s| < |sep| then |s|
    else if s[..|sep|] == sep then 0
    else
      var k := Find(s[1..], sep);
      assert forall j :: 1 <= j <= |s| && OccursAt(s, sep, j) ==> OccursAt(s[1..], sep, j - 1) by {
        forall j | 1 <= j <= |s| && OccursAt(s, sep, j)
          ensures OccursAt(s[1..], sep, j - 1)
        {
          assert s[1..][j - 1..j - 1 + |sep|] == s[j..j + |sep|];
        }
      }
      if k < |s| - 1 then
        assert s[k + 1..k + 1 + |sep|] == s[1..][k..k + |sep|];
        k + 1
      else
        assert forall j :: 0 <= j <= |s| ==> !OccursAt(s, sep, j);
        |s|
  }

  /** `s.split(sep)[0]`: the text before the first `sep`, or all of `s`. */
  function BeforeFirst(s: string, sep: string): (r: string)
    requires sep != []
    ensures StartsWith(s, r)
    ensures !Contains(r, sep)
    ensures !Contains(s, sep) ==> r == s
  {
    var i := Find(s, sep);
    assert !Contains(s[..i], sep) by {
      forall j | OccursAt(s[..i], sep, j)
        ensures false
      {
        assert s[..i][j..j + |sep|] == s[j..j + |sep|];
        assert OccursAt(s, sep, j);
      }
    }
    s[..i]
  }

  // ---------------------------------------------------------------- join

  /** `sep.join(parts)`. */
  function Join(parts: seq<string>, sep: string): (r: string)
    ensures parts == [] ==> r == []
    ensures |parts| == 1 ==> r == parts[0]
  {
    if parts == [] then []
    else if |parts| == 1 then parts[0]
    else Join(parts[..|parts| - 1], sep) + sep + parts[|parts| - 1]
  }

  /** Every part stands inside the joined text, between a prefix and a suffix. */
  lemma {:induction false} JoinHasPart(parts: seq<string>, sep: string, k: int)
    requires 0 <= k < |parts|
    ensures exists a, b :: Join(parts, sep) == a + parts[k] + b
  {
    var n := |parts|;
    if n == 1 {
      assert Join(parts, sep) == [] + parts[0] + [];
    } else if k == n - 1 {
      assert Join(parts, sep) == (Join(parts[..n - 1], sep) + sep) + parts[k] + [];
    } else {
      JoinHasPart(parts[..n - 1], sep, k);
      var a, b :| Join(parts[..n - 1], sep) == a + parts[..n - 1][k] + b;
      assert Join(parts, sep) == a + parts[k] + (b + sep + parts[n - 1]);
    }
  }

  /** A joined text starts with its first part. */
  lemma {:induction false} JoinStartsWithFirst(parts: seq<string>, sep: string)
    requires parts != []
    ensures StartsWith(Join(parts, sep), parts[0])
  {
    if |parts| > 1 {
      JoinStartsWithFirst(parts[..|parts| - 1], sep);
      var j := Join(parts[..|parts| - 1], sep);
      assert Join(parts, sep) == j + (sep + parts[|parts| - 1]);
      assert (j + (sep + parts[|parts| - 1]))[..|parts[0]|] == j[..|parts[0]|];
    }
  }

  lemma {:induction false} JoinAppend(parts: seq<string>, sep: string, p: string)
    requires parts != []
    ensures Join(parts + [p], sep) == Join(parts, sep) + sep + p
  {
    assert (parts + [p])[..|parts|] == parts;
  }

  // ---------------------------------------------------------------- lines

  /** The line boundaries of Python's `str.splitlines`. */
  predicate IsLineBreak(c: char) {
    c == '\n' || c == '\r' || c == '\U{0b}' || c == '\U{0c}'
    || c == '\U{1c}' || c == '\U{1d}' || c == '\U{1e}'
    || c == '\U{85}' || c == '\U{2028}' || c == '\U{2029}'
  }

  predicate NoLineBreak(s: string) {
    forall i :: 0 <= i < |s| ==> !IsLineBreak(s[i])
  }

  /** The index of the first line boundary in `s`, or `|s|`. */
  function LineEnd(s: string): (i: nat)
    ensures i <= |s|
    ensures i < |s| ==> IsLineBreak(s[i])
    ensures NoLineBreak(s[..i])
  {
    if s == [] || IsLineBreak(s[0]) then 0
    else
      var k := LineEnd(s[1..]);
      assert s[..k + 1] == [s[0]] + s[1..][..k];
      k + 1
  }

  /** `s.splitlines()`: a `\r\n` pair is one boundary; a final boundary opens no empty line. */
  function SplitLines(s: string): (r: seq<string>)
    ensures forall k :: 0 <= k < |r| ==> NoLineBreak(r[k])
    ensures s == [] <==> r == []
    decreases |s|
  {
    if s == [] then []
    else
      var i := LineEnd(s);
      var line := s[..i];
      if i == |s| then [line]
      else
        var next := if s[i] == '\r' && i + 1 < |s| && s[i + 1] == '\n' then i + 2 else i + 1;
        [line] + SplitLines(s[next..])
  }

  /**
   * Splitting lines joined by "\n" gives the lines back, provided none holds a
   * line boundary and the last one is not empty (an empty last line would
   * be swallowed by the final boundary rule).
   */
  lemma {:induction false} SplitJoinedLines(lines: seq<string>)
    requires lines != [] && lines[|lines| - 1] != []
    requires forall k :: 0 <= k < |lines| ==> NoLineBreak(lines[k])
    ensures SplitLines(Join(lines, "\n")) == lines
    decreases |lines|
  {
    if |lines| == 1 {
      SplitOneLine(lines[0]);
    } else {
      var rest := lines[1..];
      SplitJoinedLines(rest);
      JoinFront(lines, "\n");
      var s := Join(lines, "\n");
      assert s == lines[0] + "\n" + Join(rest, "\n");
      var i := |lines[0]|;
      assert s[..i] == lines[0];
      assert s[i] == '\n';
      LineEndAt(s, i);
      assert s[i + 1..] == Join(rest, "\n");
      assert SplitLines(s) == [s[..i]] + SplitLines(s[i + 1..]);
    }
  }

  lemma {:induction false} LineEndAt(s: string, i: nat)
    requires i < |s| && IsLineBreak(s[i])
    requires NoLineBreak(s[..i])
    ensures LineEnd(s) == i
    decreases i
  {
    if i > 0 {
      assert s[..i][0] == s[0];
      assert s[1..][..i - 1] == s[1..i];
      assert s[1..i] == s[..i][1..];
      LineEndAt(s[1..], i - 1);
    }
  }

  lemma {:induction false} LineEndOfUnbroken(s: string)
    requires NoLineBreak(s)
    ensures LineEnd(s) == |s|
    decreases |s|
  {
    if s != [] {
      assert !IsLineBreak(s[0]);
      LineEndOfUnbroken(s[1..]);
    }
  }

  lemma SplitOneLine(line: string)
    requires line != [] && NoLineBreak(line)
    ensures SplitLines(line) == [line]
  {
    LineEndOfUnbroken(line);
    assert line[..|line|] == line;
  }

  lemma {:induction false} JoinFront(parts: seq<string>, sep: string)
    requires |parts| >= 2
    ensures Join(parts, sep) == parts[0] + sep + Join(parts[1..], sep)
    decreases |parts|
  {
    var n := |parts|;
    if n > 2 {
      JoinFront(parts[..n - 1], sep);
      assert parts[..n - 1][1..] == parts[1..][..n - 2];
      assert parts[..n - 1][0] == parts[0];
    } else {
      assert parts[1..] == [parts[1]];
    }
  }

  // ---------------------------------------------------------------- integers

  predicate IsDigit(c: char) {
    '0' <= c <= '9'
  }

  predicate AllDigits(s: string) {
    forall i :: 0 <= i < |s| ==> IsDigit(s[i])
  }

  function DigitChar(d: nat): (c: char)
    requires d < 10
    ensures IsDigit(c) && c as int - '0' as int == d
  {
    ('0' as int + d) as char
  }

  /** The decimal text of a natural number, without leading zeros. */
  function NatToString(n: nat): (r: string)
    ensures r != [] && AllDigits(r)
    ensures r[0] != '0' || n == 0
  {
    if n < 10 then [DigitChar(n)] else NatToString(n / 10) + [DigitChar(n % 10)]
  }

  /** `str(i)` for an integer. */
  function IntToString(i: int): (r: string)
    ensures r != [] && IsDigit(r[|r| - 1])
  {
    if i < 0 then "-" + NatToString(-i) else NatToString(i)
  }

  /** The value of a run of decimal digits. */
  function DigitsValue(s: string): nat
    requires AllDigits(s)
  {
    if s == [] then 0 else 10 * DigitsValue(s[..|s| - 1]) + (s[|s| - 1] as int - '0' as int)
  }

  lemma {:induction false} DigitsValueOfNat(n: nat)
    ensures DigitsValue(NatToString(n)) == n
  {
    if n >= 10 {
      DigitsValueOfNat(n / 10);
      var s := NatToString(n);
      assert s[..|s| - 1] == NatToString(n / 10);
    }
  }

  /**
   * The digit groups of Python's integer literal: digits, where a single `_`
   * may stand between two digits.
   */
  predicate DigitGroups(t: string) {
    t != [] && IsDigit(t[0]) && IsDigit(t[|t| - 1])
    && (forall i :: 0 <= i < |t| ==> IsDigit(t[i]) || t[i] == '_')
    && (forall i :: 0 <= i < |t| - 1 ==> IsDigit(t[i]) || IsDigit(t[i + 1]))
  }

  /** The digits of `t` with the underscores removed. */
  function DropUnderscores(t: string): (r: string)
    requires forall i :: 0 <= i < |t| ==> IsDigit(t[i]) || t[i] == '_'
    ensures AllDigits(r)
  {
    if t == [] then []
    else DropUnderscores(t[..|t| - 1]) + (if t[|t| - 1] == '_' then [] else [t[|t| - 1]])
  }

  lemma DropUnderscoresOfDigits(t: string)
    requires AllDigits(t)
    ensures DropUnderscores(t) == t
  {
    if t != [] {
      DropUnderscoresOfDigits(t[..|t| - 1]);
    }
  }

  /** The value of an unsigned integer literal. */
  function GroupsValue(t: string): nat
    requires DigitGroups(t)
  {
    DigitsValue(DropUnderscores(t))
  }

  /** `int(t)` once the surrounding whitespace is gone. */
  function ParseStripped(t: string): Option<int> {
    if t != [] && (t[0] == '+' || t[0] == '-') then
      if DigitGroups(t[1..]) then
        var v: int := GroupsValue(t[1..]);
        Some(if t[0] == '-' then -v else v)
      else None
    else if DigitGroups(t) then Some(GroupsValue(t))
    else None
  }

  /** `int(text)`: surrounding whitespace, an optional sign, then digit groups; anything else fails. */
  function ParseInt(text: string): Option<int> {
    ParseStripped(Strip(text))
  }

  lemma DigitsAreGroups(digits: string)
    requires digits != [] && AllDigits(digits)
    ensures DigitGroups(digits) && GroupsValue(digits) == DigitsValue(digits)
  {
    DropUnderscoresOfDigits(digits);
  }

  lemma DigitIsNotSpace(c: char)
    requires IsDigit(c) || c == '-'
    ensures !IsSpace(c)
  {
  }

  lemma ParseStrippedOfString(i: int)
    ensures ParseStripped(IntToString(i)) == Some(i)
  {
    var s := IntToString(i);
    var n: nat := if i < 0 then -i else i;
    var digits := NatToString(n);
    DigitsValueOfNat(n);
    DigitsAreGroups(digits);
    if i < 0 {
      assert s[1..] == digits;
    } else {
      assert s == digits;
    }
  }

  /** `int(str(i)) == i`. */
  lemma ParseIntOfString(i: int)
    ensures ParseInt(IntToString(i)) == Some(i)
  {
    var s := IntToString(i);
    DigitIsNotSpace(s[0]);
    DigitIsNotSpace(s[|s| - 1]);
    StripKeepsTrimmed(s);
    ParseStrippedOfString(i);
  }

  /** Text that holds no digit at all never parses as an integer. */
  lemma ParseIntNeedsDigit(text: string)
    requires forall i :: 0 <= i < |text| ==> !IsDigit(text[i])
    ensures ParseInt(text) == None
  {
    StripTrims(text);
    var t := Strip(text);
    var i, j :| 0 <= i <= j <= |text| && t == text[i..j];
    if t != [] {
      assert !IsDigit(t[0]) && !IsDigit(t[|t| - 1]);
    }
  }
}
