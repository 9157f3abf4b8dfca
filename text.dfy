/**
 * The few Python string operations the core relies on, over ASCII:
 * str.isdigit, int(), str(int), str.strip, str.lower and the `in`
 * substring test, plus splitting a file's text into lines.
 */
module Text {

  /** ASCII decimal digit (str.isdigit restricted to ASCII). */
  predicate IsDigit(c: char) {
    '0' <= c <= '9'
  }

  predicate AllDigits(s: string) {
    forall i :: 0 <= i < |s| ==> IsDigit(s[i])
  }

  /** `s.isdigit()`: non-empty and every character a digit. */
  predicate IsDigits(s: string) {
    |s| > 0 && AllDigits(s)
  }

  function DigitChar(d: nat): (c: char)
    requires d < 10
    ensures IsDigit(c) && (c as int) - ('0' as int) == d
  {
    ('0' as int + d) as char
  }

  /** `int(s)` for a string of decimal digits (leading zeros allowed). */
  function DigitsValue(s: string): nat
    requires AllDigits(s)
  {
    if s == [] then 0
    else 10 * DigitsValue(s[..|s| - 1]) + ((s[|s| - 1] as int) - ('0' as int))
  }

  /** `str(n)` for a non-negative integer. */
  function DecimalString(n: nat): string
  {
    if n < 10 then [DigitChar(n)] else DecimalString(n / 10) + [DigitChar(n % 10)]
  }

  /** `int(str(n)) == n`, and `str(n).isdigit()`. */
  lemma {:induction false} DecimalRoundTrip(n: nat)
    ensures IsDigits(DecimalString(n))
    ensures DigitsValue(DecimalString(n)) == n
  {
    if n >= 10 {
      DecimalRoundTrip(n / 10);
      var s := DecimalString(n);
      assert s[..|s| - 1] == DecimalString(n / 10);
    }
  }

  /** Characters `str.strip()` removes, restricted to ASCII. */
  predicate IsSpace(c: char) {
    c == ' ' || ('\t' <= c <= '\r') || ('\U{1C}' <= c <= '\U{1F}')
  }

  function StripLeft(s: string): (r: string)
    ensures |r| <= |s|
  {
    if s != [] && IsSpace(s[0]) then StripLeft(s[1..]) else s
  }

  function StripRight(s: string): (r: string)
    ensures |r| <= |s|
  {
    if s != [] && IsSpace(s[|s| - 1]) then StripRight(s[..|s| - 1]) else s
  }

  /** `s.strip()`. */
  function Strip(s: string): string
  {
    StripRight(StripLeft(s))
  }

  /** What `lstrip` removes is a run of whitespace, and what it keeps does
      not start with whitespace. */
  lemma {:induction false} StripLeftSpec(s: string)
    ensures var r := StripLeft(s);
      r == s[|s| - |r|..] && (r == [] || !IsSpace(r[0]))
      && forall i :: 0 <= i < |s| - |r| ==> IsSpace(s[i])
  {
    if s != [] && IsSpace(s[0]) {
      StripLeftSpec(s[1..]);
      var r := StripLeft(s);
      assert s[1..][|s| - 1 - |r|..] == s[|s| - |r|..];
      forall i | 0 <= i < |s| - |r|
        ensures IsSpace(s[i])
      {
        if i > 0 {
          assert s[i] == s[1..][i - 1];
        }
      }
    }
  }

  /** What `rstrip` removes is a run of whitespace, and what it keeps does
      not end with whitespace. */
  lemma {:induction false} StripRightSpec(s: string)
    ensures var r := StripRight(s);
      r == s[..|r|] && (r == [] || !IsSpace(r[|r| - 1]))
      && forall i :: |r| <= i < |s| ==> IsSpace(s[i])
  {
    if s != [] && IsSpace(s[|s| - 1]) {
      StripRightSpec(s[..|s| - 1]);
      var r := StripRight(s);
      assert s[..|s| - 1][..|r|] == s[..|r|];
      forall i | |r| <= i < |s|
        ensures IsSpace(s[i])
      {
        if i < |s| - 1 {
          assert s[i] == s[..|s| - 1][i];
        }
      }
    }
  }

  /** A string with no surrounding whitespace is its own strip. */
  lemma StripUnpadded(s: string)
    requires s == [] || (!IsSpace(s[0]) && !IsSpace(s[|s| - 1]))
    ensures Strip(s) == s
  {
  }

  predicate NoSpace(s: string) {
    forall i :: 0 <= i < |s| ==> !IsSpace(s[i])
  }

  /** ASCII `str.lower()`. */
  function LowerChar(c: char): char {
    if 'A' <= c <= 'Z' then (c as int + 32) as char else c
  }

  function Lower(s: string): (r: string)
    ensures |r| == |s|
    ensures forall i :: 0 <= i < |s| ==> r[i] == LowerChar(s[i])
  {
    if s == [] then [] else [LowerChar(s[0])] + Lower(s[1..])
  }

  /** `s.startswith(p)`, character by character. */
  predicate StartsWith(s: string, p: string) {
    p == [] || (s != [] && s[0] == p[0] && StartsWith(s[1..], p[1..]))
  }

  /** `sub in s`: the executable test, scanning left to right. */
  predicate Contains(s: string, sub: string) {
    StartsWith(s, sub) || (s != [] && Contains(s[1..], sub))
  }

  lemma {:induction false} StartsWithIff(s: string, p: string)
    ensures StartsWith(s, p) <==> |p| <= |s| && s[..|p|] == p
  {
    if p != [] && s != [] {
      StartsWithIff(s[1..], p[1..]);
      if |p| <= |s| && s[..|p|] == p {
        assert s[1..][..|p| - 1] == p[1..];
      }
      if StartsWith(s, p) {
        assert s[..|p|] == [s[0]] + s[1..][..|p| - 1];
      }
    }
  }

  /** `sub` occurs in `s` starting at index `i`. */
  predicate OccursAt(s: string, sub: string, i: int) {
    0 <= i && i + |sub| <= |s| && s[i..i + |sub|] == sub
  }

  /** The scan agrees with the textbook definition of a substring. */
  lemma {:induction false} ContainsIff(s: string, sub: string)
    ensures Contains(s, sub) <==> exists i :: OccursAt(s, sub, i)
    decreases |s|
  {
    StartsWithIff(s, sub);
    if StartsWith(s, sub) {
      assert OccursAt(s, sub, 0);
    } else if s != [] {
      ContainsIff(s[1..], sub);
      if exists i :: OccursAt(s[1..], sub, i) {
        var i :| OccursAt(s[1..], sub, i);
        OccursInTail(s, sub, i);
      }
      if exists i :: OccursAt(s, sub, i) {
        var i :| OccursAt(s, sub, i);
        assert i != 0;
        OccursInTail(s, sub, i - 1);
      }
    }
  }

  /** An occurrence in the tail is an occurrence one further on. */
  lemma OccursInTail(s: string, sub: string, i: nat)
    requires s != []
    ensures OccursAt(s[1..], sub, i) <==> OccursAt(s, sub, i + 1)
  {
    if i + 1 + |sub| <= |s| {
      assert s[1..][i..i + |sub|] == s[i + 1..i + 1 + |sub|];
    }
  }

  /** Line terminators under Python's universal-newline reading. */
  predicate IsBreak(c: char) {
    c == '\n' || c == '\r'
  }

  predicate NoBreak(s: string) {
    forall i :: 0 <= i < |s| ==> !IsBreak(s[i])
  }

  lemma NoBreakConcat(a: string, b: string)
    requires NoBreak(a) && NoBreak(b)
    ensures NoBreak(a + b)
  {
    forall i | 0 <= i < |a + b|
      ensures !IsBreak((a + b)[i])
    {
      if i >= |a| {
        assert (a + b)[i] == b[i - |a|];
      }
    }
  }

  /** Index of the first line terminator in `s`, or `|s|` when there is none. */
  function BreakIndex(s: string): (k: nat)
    ensures k <= |s|
    ensures k < |s| ==> IsBreak(s[k])
    ensures NoBreak(s[..k])
  {
    if s == [] then 0
    else if IsBreak(s[0]) then 0
    else
      var k := BreakIndex(s[1..]);
      assert s[..k + 1] == [s[0]] + s[1..][..k];
      k + 1
  }

  /**
   * `f.readlines()` with the terminators dropped. A "\r\n" pair yields an
   * extra empty line; since the only client skips lines that strip to
   * nothing, that does not change what the client computes. There are no
   * lines exactly when the text is empty.
   */
  function Lines(s: string): (ls: seq<string>)
    ensures |ls| == 0 <==> s == []
    ensures forall i :: 0 <= i < |ls| ==> NoBreak(ls[i])
    decreases |s|
  {
    if s == [] then []
    else
      var k := BreakIndex(s);
      if k == |s| then [s] else [s[..k]] + Lines(s[k + 1..])
  }

  /** A line followed by its terminator contributes exactly that line. */
  lemma LinesCons(line: string, rest: string)
    requires NoBreak(line)
    ensures Lines(line + "\n" + rest) == [line] + Lines(rest)
  {
    var s := line + "\n" + rest;
    BreakIndexOfLine(line, rest);
    assert s[..|line|] == line;
    assert s[|line| + 1..] == rest;
  }

  lemma {:induction false} BreakIndexOfLine(line: string, rest: string)
    requires NoBreak(line)
    ensures BreakIndex(line + "\n" + rest) == |line|
    decreases |line|
  {
    if line != [] {
      BreakIndexOfLine(line[1..], rest);
      assert (line + "\n" + rest)[1..] == line[1..] + "\n" + rest;
    }
  }

  /** Text that ends at a line boundary reads as its own lines followed by
      the lines of whatever is appended. */
  lemma {:induction false} LinesAppend(a: string, b: string)
    requires a == [] || IsBreak(a[|a| - 1])
    ensures Lines(a + b) == Lines(a) + Lines(b)
    decreases |a|
  {
    if a == [] {
      assert a + b == b;
    } else {
      var k := BreakIndex(a);
      assert k < |a|;
      BreakIndexPrefix(a, b);
      assert (a + b)[..k] == a[..k];
      assert (a + b)[k + 1..] == a[k + 1..] + b;
      LinesAppend(a[k + 1..], b);
    }
  }

  lemma {:induction false} BreakIndexPrefix(a: string, b: string)
    requires BreakIndex(a) < |a|
    ensures BreakIndex(a + b) == BreakIndex(a)
    decreases |a|
  {
    if !IsBreak(a[0]) {
      assert (a + b)[1..] == a[1..] + b;
      BreakIndexPrefix(a[1..], b);
    }
  }
}
