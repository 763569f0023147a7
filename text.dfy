/** ASCII string operations the library takes from Python's `str`: digit tests,
    `startswith`, `rfind`, `strip`, `lower`, `title` and `replace`. */
module Text {

  predicate IsDigit(c: char) { '0' <= c <= '9' }

  predicate IsUpper(c: char) { 'A' <= c <= 'Z' }

  predicate IsLower(c: char) { 'a' <= c <= 'z' }

  predicate IsLetter(c: char) { IsUpper(c) || IsLower(c) }

  /** The whitespace `str.strip()` removes. */
  predicate IsSpace(c: char)
  {
    c == ' ' || c == '\t' || c == '\n' || c == '\r' || c == '\U{b}' || c == '\U{c}'
  }

  predicate AllDigits(s: string)
  {
    forall i :: 0 <= i < |s| ==> IsDigit(s[i])
  }

  /** The decimal digits of `s`, in order. */
  function Digits(s: string): (d: string)
    ensures AllDigits(d)
    ensures |d| <= |s|
  {
    if s == [] then []
    else Digits(s[..|s| - 1]) + (if IsDigit(s[|s| - 1]) then [s[|s| - 1]] else [])
  }

  lemma {:induction false} DigitsAppend(a: string, b: string)
    ensures Digits(a + b) == Digits(a) + Digits(b)
    decreases |b|
  {
    if b == [] {
      assert a + b == a;
    } else {
      var b' := b[..|b| - 1];
      assert (a + b)[..|a + b| - 1] == a + b';
      DigitsAppend(a, b');
    }
  }

  lemma DigitsOfDigits(s: string)
    requires AllDigits(s)
    ensures Digits(s) == s
  {
    if s != [] {
      assert AllDigits(s[..|s| - 1]);
      DigitsOfDigits(s[..|s| - 1]);
      assert s == s[..|s| - 1] + [s[|s| - 1]];
    }
  }

  /** `s.startswith(p)`, which is `s.find(p) == 0`. */
  predicate StartsWith(s: string, p: string)
  {
    |p| <= |s| && s[..|p|] == p
  }

  predicate EndsWithBlank(s: string)
  {
    |s| > 0 && s[|s| - 1] == ' '
  }

  /** `s.rfind(c)`: the last index of `c`, or -1. */
  function LastIndex(s: string, c: char): (i: int)
    ensures -1 <= i < |s|
    ensures i >= 0 ==> s[i] == c && forall j :: i < j < |s| ==> s[j] != c
    ensures i == -1 ==> forall j :: 0 <= j < |s| ==> s[j] != c
  {
    if s == [] then -1
    else if s[|s| - 1] == c then |s| - 1
    else LastIndex(s[..|s| - 1], c)
  }

  function TrimStart(s: string): (t: string)
    ensures |t| <= |s| && t == s[|s| - |t|..]
    ensures t == [] || !IsSpace(t[0])
    ensures forall i :: 0 <= i < |s| - |t| ==> IsSpace(s[i])
  {
    if s != [] && IsSpace(s[0]) then TrimStart(s[1..]) else s
  }

  function TrimEnd(s: string): (t: string)
    ensures |t| <= |s| && t == s[..|t|]
    ensures t == [] || !IsSpace(t[|t| - 1])
    ensures forall i :: |t| <= i < |s| ==> IsSpace(s[i])
  {
    if s != [] && IsSpace(s[|s| - 1]) then TrimEnd(s[..|s| - 1]) else s
  }

  /** `s.strip()` */
  function Strip(s: string): string
  {
    TrimEnd(TrimStart(s))
  }

  function LowerChar(c: char): (d: char)
    ensures !IsUpper(d)
    ensures IsLetter(c) <==> IsLetter(d)
    ensures !IsUpper(c) ==> d == c
  {
    if IsUpper(c) then (c as int + 32) as char else c
  }

  function UpperChar(c: char): (d: char)
    ensures !IsLower(d)
    ensures IsLetter(c) <==> IsLetter(d)
    ensures !IsLower(c) ==> d == c
  {
    if IsLower(c) then (c as int - 32) as char else c
  }

  /** `s.lower()` on ASCII text. */
  function Lower(s: string): (t: string)
    ensures |t| == |s|
    ensures forall i :: 0 <= i < |s| ==> t[i] == LowerChar(s[i])
  {
    seq(|s|, i requires 0 <= i < |s| => LowerChar(s[i]))
  }

  /** A letter starts a word when nothing, or a non-letter, precedes it. */
  predicate StartsWord(s: string, i: int)
    requires 0 <= i < |s|
  {
    i == 0 || !IsLetter(s[i - 1])
  }

  /** `s.title()` on ASCII text: upper-case the first letter of every run of letters
      and lower-case the others; everything that is not a letter is unchanged. */
  function Title(s: string): (t: string)
    ensures |t| == |s|
  {
    seq(|s|, i requires 0 <= i < |s| =>
      if StartsWord(s, i) then UpperChar(s[i]) else LowerChar(s[i]))
  }

  lemma TitleCase(s: string)
    ensures forall i :: 0 <= i < |s| && StartsWord(s, i) ==> !IsLower(Title(s)[i])
    ensures forall i :: 0 <= i < |s| && !StartsWord(s, i) ==> !IsUpper(Title(s)[i])
    ensures forall i :: 0 <= i < |s| && !IsLetter(s[i]) ==> Title(s)[i] == s[i]
  {
  }

  /** Title-casing twice changes nothing more. */
  lemma TitleIdempotent(s: string)
    ensures Title(Title(s)) == Title(s)
  {
    forall i | 0 <= i < |s|
      ensures Title(Title(s))[i] == Title(s)[i]
    {
      TitleStableAt(s, i);
    }
  }

  /** Title-casing the title-cased text keeps each of its characters. */
  lemma TitleStableAt(s: string, i: int)
    requires 0 <= i < |s|
    ensures Title(Title(s))[i] == Title(s)[i]
  {
    var t := Title(s);
    TitleAt(s, i);
    TitleAt(t, i);
    if i > 0 {
      TitleAt(s, i - 1);
      assert StartsWord(t, i) == StartsWord(s, i);
    }
  }

  lemma TitleAt(s: string, i: int)
    requires 0 <= i < |s|
    ensures IsLetter(Title(s)[i]) <==> IsLetter(s[i])
    ensures StartsWord(s, i) ==> Title(s)[i] == UpperChar(s[i])
    ensures !StartsWord(s, i) ==> Title(s)[i] == LowerChar(s[i])
  {
  }

  predicate Occurs(s: string, p: string)
  {
    exists i :: 0 <= i <= |s| && StartsWith(s[i..], p)
  }

  /** `s.replace(p, r)`: every non-overlapping occurrence of `p`, scanning from the
      left, replaced by `r`.  An empty `p` occurs before every character and at the
      end, as in Python. */
  function ReplaceAll(s: string, p: string, r: string): string
    decreases |s|
  {
    if |p| == 0 then
      if s == [] then r else r + [s[0]] + ReplaceAll(s[1..], p, r)
    else if |s| < |p| then s
    else if s[..|p|] == p then r + ReplaceAll(s[|p|..], p, r)
    else [s[0]] + ReplaceAll(s[1..], p, r)
  }

  /** Replacing a pattern that does not occur leaves the text alone. */
  lemma {:induction false} ReplaceAbsent(s: string, p: string, r: string)
    requires |p| > 0 && !Occurs(s, p)
    ensures ReplaceAll(s, p, r) == s
    decreases |s|
  {
    if |s| >= |p| {
      assert s[0..] == s;
      assert !Occurs(s[1..], p) by {
        forall i | 0 <= i <= |s[1..]|
          ensures !StartsWith(s[1..][i..], p)
        {
          assert s[1..][i..] == s[i + 1..];
        }
      }
      ReplaceAbsent(s[1..], p, r);
    }
  }

  /** A replacement whose pattern ends with a blank only when its replacement does
      keeps a trailing blank. */
  lemma {:induction false} ReplaceKeepsTrailingBlank(s: string, p: string, r: string)
    requires |p| > 0 && EndsWithBlank(s)
    requires EndsWithBlank(p) ==> EndsWithBlank(r)
    ensures EndsWithBlank(ReplaceAll(s, p, r))
    decreases |s|
  {
    if |s| < |p| {
    } else if s[..|p|] == p {
      if |s| == |p| {
        assert s[|p|..] == [];
        assert ReplaceAll(s, p, r) == r + [];
      } else {
        ReplaceKeepsTrailingBlank(s[|p|..], p, r);
      }
    } else if |s| == 1 {
      assert ReplaceAll(s[1..], p, r) == [];
    } else {
      ReplaceKeepsTrailingBlank(s[1..], p, r);
    }
  }
}
