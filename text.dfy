/**
 * String helpers shared by the formatting code: Python's rendering of a
 * non-negative int, `str.title()`, newline-joined lines and substring search.
 */
module Text {
  import opened Wrappers

  // ---------------------------------------------------------------------
  // Decimal rendering of integers (f-string `{n}` for n >= 0)
  // ---------------------------------------------------------------------

  predicate IsDigit(c: char) { '0' <= c <= '9' }

  predicate AllDigits(s: string) { forall i :: 0 <= i < |s| ==> IsDigit(s[i]) }

  function DigitChar(d: nat): (c: char)
    requires d < 10
    ensures IsDigit(c) && c as int - '0' as int == d
  {
    ('0' as int + d) as char
  }

  /** The digits Python prints for `n`, most significant first, no leading zeros. */
  function NatToString(n: nat): (s: string)
    ensures |s| >= 1 && AllDigits(s)
    decreases n
  {
    if n < 10 then [DigitChar(n)] else NatToString(n / 10) + [DigitChar(n % 10)]
  }

  /** Reads a string of digits back as a number: the inverse of NatToString. */
  function ParseNat(s: string): nat
    requires AllDigits(s)
    decreases |s|
  {
    if s == [] then 0 else ParseNat(s[..|s| - 1]) * 10 + (s[|s| - 1] as int - '0' as int)
  }

  lemma {:induction false} ParseNatToString(n: nat)
    ensures ParseNat(NatToString(n)) == n
    decreases n
  {
    if n >= 10 {
      var s := NatToString(n);
      assert s[..|s| - 1] == NatToString(n / 10);
      ParseNatToString(n / 10);
    }
  }

  /** Different numbers print differently, so an index printed in a header identifies it. */
  lemma NatToStringInjective(m: nat, n: nat)
    requires NatToString(m) == NatToString(n)
    ensures m == n
  {
    ParseNatToString(m);
    ParseNatToString(n);
  }

  // ---------------------------------------------------------------------
  // str.title(), for ASCII letters
  // ---------------------------------------------------------------------

  predicate IsUpper(c: char) { 'A' <= c <= 'Z' }
  predicate IsLower(c: char) { 'a' <= c <= 'z' }
  predicate IsCased(c: char) { IsUpper(c) || IsLower(c) }

  function ToUpper(c: char): char { if IsLower(c) then (c as int - 32) as char else c }
  function ToLower(c: char): char { if IsUpper(c) then (c as int + 32) as char else c }

  /**
   * CPython's title-casing loop: a cased character is upper-cased when the
   * character before it is not cased, and lower-cased otherwise; every other
   * character is copied.
   */
  function TitleFrom(s: string, previousIsCased: bool): (r: string)
    ensures |r| == |s|
    decreases |s|
  {
    if s == [] then []
    else
      var c := s[0];
      var c' := if !IsCased(c) then c else if previousIsCased then ToLower(c) else ToUpper(c);
      [c'] + TitleFrom(s[1..], IsCased(c))
  }

  function Title(s: string): string { TitleFrom(s, false) }

  /** Whether position i of s starts a word in the sense of str.title(). */
  predicate StartsWord(s: string, i: int, previousIsCased: bool)
    requires 0 <= i < |s|
  {
    if i == 0 then !previousIsCased else !IsCased(s[i - 1])
  }

  /** One character of title-casing: only its case can change, and it is upper exactly at a word start. */
  lemma TitleCharSpec(c: char, previousIsCased: bool)
    ensures var c' := if !IsCased(c) then c else if previousIsCased then ToLower(c) else ToUpper(c);
            && ToLower(c') == ToLower(c)
            && (!IsCased(c) ==> c' == c)
            && (IsCased(c) ==> (IsUpper(c') <==> !previousIsCased))
  {
  }

  /**
   * What title-casing means: the same text up to letter case, with exactly
   * the letters that start a word in upper case.
   */
  lemma {:induction false} TitleFromSpec(s: string, p: bool)
    ensures |TitleFrom(s, p)| == |s|
    ensures forall i :: 0 <= i < |s| ==> ToLower(TitleFrom(s, p)[i]) == ToLower(s[i])
    ensures forall i :: 0 <= i < |s| ==> !IsCased(s[i]) ==> TitleFrom(s, p)[i] == s[i]
    ensures forall i :: 0 <= i < |s| ==> IsCased(s[i]) ==>
              (IsUpper(TitleFrom(s, p)[i]) <==> StartsWord(s, i, p))
    decreases |s|
  {
    if s != [] {
      var r := TitleFrom(s, p);
      var tail := TitleFrom(s[1..], IsCased(s[0]));
      TitleCharSpec(s[0], p);
      TitleFromSpec(s[1..], IsCased(s[0]));
      assert r == [r[0]] + tail;
      forall i | 1 <= i < |s|
        ensures r[i] == tail[i - 1] && s[i] == s[1..][i - 1]
        ensures StartsWord(s, i, p) == StartsWord(s[1..], i - 1, IsCased(s[0]))
      {
      }
    }
  }

  lemma TitleSpec(s: string)
    ensures |Title(s)| == |s|
    ensures forall i :: 0 <= i < |s| ==> ToLower(Title(s)[i]) == ToLower(s[i])
    ensures forall i :: 0 <= i < |s| ==> !IsCased(s[i]) ==> Title(s)[i] == s[i]
    ensures forall i :: 0 <= i < |s| ==> IsCased(s[i]) ==> (IsUpper(Title(s)[i]) <==> StartsWord(s, i, false))
  {
    TitleFromSpec(s, false);
  }

  lemma {:induction false} TitleFromIdempotent(s: string, p: bool)
    ensures TitleFrom(TitleFrom(s, p), p) == TitleFrom(s, p)
    decreases |s|
  {
    if s != [] {
      var r := TitleFrom(s, p);
      assert IsCased(r[0]) == IsCased(s[0]);
      assert r[1..] == TitleFrom(s[1..], IsCased(s[0]));
      TitleFromIdempotent(s[1..], IsCased(s[0]));
    }
  }

  predicate AllLower(s: string) { forall i :: 0 <= i < |s| ==> IsLower(s[i]) }

  lemma {:induction false} TitleFromLowerTail(s: string)
    requires AllLower(s)
    ensures TitleFrom(s, true) == s
    decreases |s|
  {
    if s != [] {
      TitleFromLowerTail(s[1..]);
      assert [s[0]] + s[1..] == s;
    }
  }

  /** A lower-case word title-cases to its capitalised form. */
  lemma TitleOfLowerWord(s: string)
    requires |s| >= 1 && AllLower(s)
    ensures Title(s) == [ToUpper(s[0])] + s[1..]
  {
    TitleFromLowerTail(s[1..]);
  }

  /** Title-casing twice changes nothing more. */
  lemma TitleIdempotent(s: string)
    ensures Title(Title(s)) == Title(s)
  {
    TitleFromIdempotent(s, false);
  }

  // ---------------------------------------------------------------------
  // Lines
  // ---------------------------------------------------------------------

  predicate NoNewline(s: string) { forall i :: 0 <= i < |s| ==> s[i] != '\n' }

  /** `"\n".join(lines)` for a non-empty list. */
  function JoinLines(lines: seq<string>): (s: string)
    requires |lines| >= 1
    decreases |lines|
  {
    if |lines| == 1 then lines[0] else lines[0] + "\n" + JoinLines(lines[1..])
  }

  /** `s.split("\n")`. */
  function SplitLines(s: string): (r: seq<string>)
    ensures |r| >= 1
    decreases |s|
  {
    if s == [] then [""]
    else
      var rest := SplitLines(s[1..]);
      if s[0] == '\n' then [""] + rest else [[s[0]] + rest[0]] + rest[1..]
  }

  lemma {:induction false} SplitLineThenRest(a: string, b: string)
    requires NoNewline(a)
    ensures SplitLines(a + "\n" + b) == [a] + SplitLines(b)
    ensures SplitLines(a) == [a]
    decreases |a|
  {
    if a == [] {
      assert "" + "\n" + b == "\n" + b;
      assert ("\n" + b)[1..] == b;
    } else {
      SplitLineThenRest(a[1..], b);
      assert (a + "\n" + b)[1..] == a[1..] + "\n" + b;
      assert [a[0]] + a[1..] == a;
    }
  }

  /** Splitting newline-joined lines that contain no newline gives the lines back. */
  lemma {:induction false} SplitJoinLines(lines: seq<string>)
    requires |lines| >= 1
    requires forall i :: 0 <= i < |lines| ==> NoNewline(lines[i])
    ensures SplitLines(JoinLines(lines)) == lines
    decreases |lines|
  {
    SplitLineThenRest(lines[0], "");
    if |lines| > 1 {
      SplitJoinLines(lines[1..]);
      SplitLineThenRest(lines[0], JoinLines(lines[1..]));
      assert [lines[0]] + lines[1..] == lines;
    }
  }

  lemma NoNewlineConcat(a: string, b: string)
    requires NoNewline(a) && NoNewline(b)
    ensures NoNewline(a + b)
  {
    forall i | 0 <= i < |a + b| ensures (a + b)[i] != '\n' {
      if i >= |a| { assert (a + b)[i] == b[i - |a|]; }
    }
  }

  /** A common front can be cancelled. */
  lemma CancelFront(f: string, x: string, y: string)
    requires f + x == f + y
    ensures x == y
  {
    assert x == (f + x)[|f|..];
    assert y == (f + y)[|f|..];
  }

  /** A common back can be cancelled. */
  lemma CancelBack(x: string, y: string, b: string)
    requires x + b == y + b
    ensures x == y
  {
    assert |x| == |y|;
    assert x == (x + b)[..|x|];
    assert y == (y + b)[..|y|];
  }

  // ---------------------------------------------------------------------
  // Substrings
  // ---------------------------------------------------------------------

  predicate OccursAt(s: string, t: string, i: int)
  {
    0 <= i && i + |t| <= |s| && s[i..i + |t|] == t
  }

  /** The first position at or after `from` where `t` occurs in `s`. */
  function FindFrom(s: string, t: string, from: nat): (r: Option<nat>)
    ensures r.Some? ==> from <= r.value && OccursAt(s, t, r.value)
    ensures r.Some? ==> forall k :: from <= k < r.value ==> !OccursAt(s, t, k)
    ensures r.None? ==> forall k :: from <= k ==> !OccursAt(s, t, k)
    decreases |s| - from
  {
    if from + |t| > |s| then None
    else if s[from..from + |t|] == t then Some(from)
    else FindFrom(s, t, from + 1)
  }

  /** Python's `t in s`. */
  function Contains(s: string, t: string): (b: bool)
    ensures b <==> exists k :: OccursAt(s, t, k)
  {
    var r := FindFrom(s, t, 0);
    assert r.Some? ==> OccursAt(s, t, r.value);
    r.Some?
  }

  /** `p` is a prefix of `s`. */
  predicate IsPrefix(p: string, s: string) { |p| <= |s| && s[..|p|] == p }
}
