// Characters and strings as the scripts use them: Python's whitespace set, ASCII case
// mapping, strip, substring search, replace, split/join and decimal rendering.
module Text {

  // ---------------------------------------------------------------- characters

  predicate IsDigit(c: char) { '0' <= c <= '9' }
  predicate IsUpper(c: char) { 'A' <= c <= 'Z' }
  predicate IsLower(c: char) { 'a' <= c <= 'z' }
  predicate IsLetter(c: char) { IsUpper(c) || IsLower(c) }
  predicate IsAlnum(c: char) { IsLetter(c) || IsDigit(c) }

  /** The characters for which Python's str.isspace() holds (and which `\s` matches). */
  predicate IsSpace(c: char)
  {
    c == ' ' || '\t' <= c <= '\r' || '\U{1C}' <= c <= '\U{1F}' || c == '\U{85}' || c == '\U{A0}'
    || c == '\U{1680}' || '\U{2000}' <= c <= '\U{200A}' || c == '\U{2028}' || c == '\U{2029}'
    || c == '\U{202F}' || c == '\U{205F}' || c == '\U{3000}'
  }

  function LowerChar(c: char): (r: char)
    ensures !IsUpper(r)
    ensures IsLetter(c) <==> IsLetter(r)
    ensures IsSpace(c) <==> IsSpace(r)
  {
    if IsUpper(c) then (c as int + 32) as char else c
  }

  function UpperChar(c: char): (r: char)
    ensures !IsLower(r)
    ensures IsLetter(c) <==> IsLetter(r)
  {
    if IsLower(c) then (c as int - 32) as char else c
  }

  // ---------------------------------------------------------------- case mapping

  function Lower(s: string): (r: string)
    ensures |r| == |s|
    ensures forall i :: 0 <= i < |s| ==> r[i] == LowerChar(s[i])
  {
    seq(|s|, i requires 0 <= i < |s| => LowerChar(s[i]))
  }

  function Upper(s: string): (r: string)
    ensures |r| == |s|
    ensures forall i :: 0 <= i < |s| ==> r[i] == UpperChar(s[i])
  {
    seq(|s|, i requires 0 <= i < |s| => UpperChar(s[i]))
  }

  /** Python's str.title(): a letter is upper-cased when it starts a word, lower-cased otherwise. */
  function Title(s: string): (r: string)
    ensures |r| == |s|
    ensures forall i :: 0 <= i < |s| ==>
      r[i] == if i > 0 && IsLetter(s[i - 1]) then LowerChar(s[i]) else UpperChar(s[i])
  {
    seq(|s|, i requires 0 <= i < |s| =>
      if i > 0 && IsLetter(s[i - 1]) then LowerChar(s[i]) else UpperChar(s[i]))
  }

  lemma LowerIdempotent(s: string)
    ensures Lower(Lower(s)) == Lower(s)
  {
  }

  lemma LowerSlice(s: string, i: nat, j: nat)
    requires i <= j <= |s|
    ensures Lower(s[i..j]) == Lower(s)[i..j]
  {
  }

  // ---------------------------------------------------------------- prefixes and substrings

  predicate StartsWith(s: string, p: string) { |p| <= |s| && s[..|p|] == p }
  predicate EndsWith(s: string, p: string) { |p| <= |s| && s[|s| - |p|..] == p }

  predicate OccursAt(s: string, t: string, i: nat) { i + |t| <= |s| && s[i..i + |t|] == t }

  /** Python's `t in s`. */
  predicate Contains(s: string, t: string)
  {
    exists i | 0 <= i <= |s| - |t| :: OccursAt(s, t, i)
  }

  predicate HasChar(s: string, c: char) { c in s }

  /** An occurrence of t in p + u that starts in p would need t[0] inside p; without it, t is in u. */
  lemma ContainsAfterPrefix(p: string, u: string, t: string)
    requires |t| > 0 && t[0] !in p
    requires Contains(p + u, t)
    ensures Contains(u, t)
  {
    var i :| 0 <= i <= |p + u| - |t| && OccursAt(p + u, t, i);
    assert (p + u)[i] == t[0];
    if i < |p| {
      assert false;
    }
    var j := i - |p|;
    assert u[j..j + |t|] == (p + u)[i..i + |t|];
    assert OccursAt(u, t, j);
  }

  lemma ContainsAt(s: string, t: string, i: nat)
    requires OccursAt(s, t, i)
    ensures Contains(s, t)
  {
  }

  lemma ContainsSlice(s: string, t: string, a: nat, b: nat)
    requires a <= b <= |s| && Contains(s[a..b], t)
    ensures Contains(s, t)
  {
    var i :| 0 <= i <= |s[a..b]| - |t| && OccursAt(s[a..b], t, i);
    forall k | 0 <= k < |t| ensures t[k] == s[a + i + k] {
      assert t[k] == s[a..b][i..i + |t|][k];
    }
    assert s[a + i..a + i + |t|] == t;
    assert OccursAt(s, t, a + i);
  }

  // ---------------------------------------------------------------- strip

  /** Index of the first character of s, at or after k, that is not dropped. */
  function SkipFrom(s: string, drop: char -> bool, k: nat): (a: nat)
    requires k <= |s|
    ensures k <= a <= |s|
    ensures forall i :: k <= i < a ==> drop(s[i])
    ensures a == |s| || !drop(s[a])
    decreases |s| - k
  {
    if k < |s| && drop(s[k]) then SkipFrom(s, drop, k + 1) else k
  }

  /** Index just past the last character of s[lo..e] that is not dropped (lo if there is none). */
  function SkipBack(s: string, drop: char -> bool, lo: nat, e: nat): (b: nat)
    requires lo <= e <= |s|
    ensures lo <= b <= e
    ensures forall i :: b <= i < e ==> drop(s[i])
    ensures b == lo || !drop(s[b - 1])
    decreases e
  {
    if lo < e && drop(s[e - 1]) then SkipBack(s, drop, lo, e - 1) else e
  }

  /** Python's s.strip(chars): drop matching characters from both ends. */
  function StripBy(s: string, drop: char -> bool): (r: string)
    ensures |r| <= |s|
    ensures r == [] || (!drop(r[0]) && !drop(r[|r| - 1]))
    ensures forall c :: c in r ==> c in s
    ensures r == [] <==> forall i :: 0 <= i < |s| ==> drop(s[i])
  {
    var a := SkipFrom(s, drop, 0);
    var b := SkipBack(s, drop, a, |s|);
    assert a < |s| ==> b > a;
    s[a..b]
  }

  /** Python's s.strip(): drop whitespace from both ends. */
  function Strip(s: string): (r: string)
    ensures |r| <= |s|
    ensures r == [] || (!IsSpace(r[0]) && !IsSpace(r[|r| - 1]))
    ensures forall c :: c in r ==> c in s
  {
    StripBy(s, IsSpace)
  }

  /** A string that already has no strippable character at either end is left as it is. */
  lemma StripNoEdges(s: string, drop: char -> bool)
    requires s == [] || (!drop(s[0]) && !drop(s[|s| - 1]))
    ensures StripBy(s, drop) == s
  {
  }

  /** The stripped text is the slice between the first and the last kept character. */
  lemma StripIsSlice(s: string, drop: char -> bool)
    ensures var a := SkipFrom(s, drop, 0);
      StripBy(s, drop) == s[a..SkipBack(s, drop, a, |s|)]
  {
  }

  /** A prefix made of kept characters survives the strip. */
  lemma StripKeepsPrefix(s: string, pre: string, drop: char -> bool)
    requires StartsWith(s, pre) && |pre| > 0
    requires forall i :: 0 <= i < |pre| ==> !drop(pre[i])
    ensures StartsWith(StripBy(s, drop), pre)
  {
    var a := SkipFrom(s, drop, 0);
    assert !drop(s[0]);
    assert a == 0;
    var b := SkipBack(s, drop, a, |s|);
    assert !drop(s[|pre| - 1]);
    assert b >= |pre|;
    StripIsSlice(s, drop);
    assert StripBy(s, drop)[..|pre|] == s[..|pre|];
  }

  // ---------------------------------------------------------------- filtering and replacing

  /** Remove every character that satisfies `drop` (re.sub of a class with ''). */
  function RemoveIf(s: string, drop: char -> bool): (r: string)
    ensures |r| <= |s|
    ensures forall i :: 0 <= i < |r| ==> !drop(r[i])
    ensures forall c :: c in r ==> c in s
  {
    if s == [] then []
    else if drop(s[0]) then RemoveIf(s[1..], drop)
    else [s[0]] + RemoveIf(s[1..], drop)
  }

  /** Nothing is left of text whose every character is removed. */
  lemma {:induction false} RemoveIfAll(x: string, drop: char -> bool)
    requires forall i :: 0 <= i < |x| ==> drop(x[i])
    ensures RemoveIf(x, drop) == []
    decreases |x|
  {
    if x != [] {
      assert drop(x[0]);
      RemoveIfAll(x[1..], drop);
    }
  }

  /** Removal leaves the same whether or not a tail of removed characters is cut off first. */
  lemma RemoveIfDropBack(s: string, b: nat, drop: char -> bool)
    requires b <= |s|
    requires forall i :: b <= i < |s| ==> drop(s[i])
    ensures RemoveIf(s[..b], drop) == RemoveIf(s, drop)
  {
    var back := s[b..];
    assert forall i :: 0 <= i < |back| ==> back[i] == s[b + i];
    RemoveIfAll(back, drop);
    assert s == s[..b] + back;
    RemoveIfConcat(s[..b], back, drop);
  }

  /** Removal leaves the same whether or not a head of removed characters is cut off first. */
  lemma {:induction false} RemoveIfDropFront(s: string, a: nat, drop: char -> bool)
    requires a <= |s|
    requires forall i :: 0 <= i < a ==> drop(s[i])
    ensures RemoveIf(s[a..], drop) == RemoveIf(s, drop)
    decreases a
  {
    if a == 0 {
      assert s[a..] == s;
    } else {
      assert drop(s[0]);
      assert s[1..][a - 1..] == s[a..];
      RemoveIfDropFront(s[1..], a - 1, drop);
    }
  }

  /** Cutting removed characters off both ends does not change what removal leaves. */
  lemma RemoveIfTrim(s: string, a: nat, b: nat, drop: char -> bool)
    requires a <= b <= |s|
    requires forall i :: 0 <= i < a ==> drop(s[i])
    requires forall i :: b <= i < |s| ==> drop(s[i])
    ensures RemoveIf(s[a..b], drop) == RemoveIf(s, drop)
  {
    var t := s[..b];
    assert forall i :: 0 <= i < a ==> t[i] == s[i];
    RemoveIfDropFront(t, a, drop);
    assert t[a..] == s[a..b];
    RemoveIfDropBack(s, b, drop);
  }

  /** Stripping first does not change what removal leaves, since strip only drops removed characters. */
  lemma RemoveIfStrip(s: string, drop: char -> bool)
    ensures RemoveIf(StripBy(s, drop), drop) == RemoveIf(s, drop)
  {
    var a := SkipFrom(s, drop, 0);
    StripIsSlice(s, drop);
    RemoveIfTrim(s, a, SkipBack(s, drop, a, |s|), drop);
  }

  /** Lower-casing does not turn a space into a non-space or back, so it commutes with removing spaces. */
  lemma {:induction false} RemoveSpaceLower(s: string)
    ensures RemoveIf(Lower(s), IsSpace) == Lower(RemoveIf(s, IsSpace))
    decreases |s|
  {
    if s != [] {
      var l := Lower(s);
      assert l[0] == LowerChar(s[0]);
      assert l[1..] == Lower(s[1..]);
      RemoveSpaceLower(s[1..]);
      if !IsSpace(s[0]) {
        assert Lower([s[0]] + RemoveIf(s[1..], IsSpace)) == [LowerChar(s[0])] + Lower(RemoveIf(s[1..], IsSpace));
      }
    }
  }

  lemma RemoveIfNone(s: string, drop: char -> bool)
    requires forall i :: 0 <= i < |s| ==> !drop(s[i])
    ensures RemoveIf(s, drop) == s
  {
  }

  lemma {:induction false} RemoveIfConcat(x: string, y: string, drop: char -> bool)
    ensures RemoveIf(x + y, drop) == RemoveIf(x, drop) + RemoveIf(y, drop)
  {
    if x == [] {
      assert x + y == y;
    } else {
      assert (x + y)[0] == x[0];
      assert (x + y)[1..] == x[1..] + y;
      RemoveIfConcat(x[1..], y, drop);
    }
  }

  /** Python's s.replace(pat, rep): leftmost, non-overlapping occurrences, scanned left to right. */
  function ReplaceAll(s: string, pat: string, rep: string): (r: string)
    requires |pat| > 0
    ensures rep == [] ==> forall c :: c in r ==> c in s
    decreases |s|
  {
    if |s| < |pat| then s
    else if s[..|pat|] == pat then rep + ReplaceAll(s[|pat|..], pat, rep)
    else [s[0]] + ReplaceAll(s[1..], pat, rep)
  }

  /** Replace every occurrence of one character by another. */
  function MapChars(s: string, f: char -> char): (r: string)
    ensures |r| == |s|
    ensures forall i :: 0 <= i < |s| ==> r[i] == f(s[i])
  {
    seq(|s|, i requires 0 <= i < |s| => f(s[i]))
  }

  // ---------------------------------------------------------------- split and join

  /** Python's s.split(sep) for a one-character separator: always at least one part. */
  function Split(s: string, sep: char): (r: seq<string>)
    ensures |r| >= 1
    ensures forall k :: 0 <= k < |r| ==> sep !in r[k]
  {
    if s == [] then [[]]
    else
      var rest := Split(s[1..], sep);
      if s[0] == sep then [[]] + rest else [[s[0]] + rest[0]] + rest[1..]
  }

  function Join(parts: seq<string>, sep: string): string
  {
    if |parts| == 0 then []
    else if |parts| == 1 then parts[0]
    else parts[0] + sep + Join(parts[1..], sep)
  }

  /** Splitting and joining with the same separator gives back the text. */
  lemma {:induction false} JoinSplit(s: string, sep: char)
    ensures Join(Split(s, sep), [sep]) == s
  {
    if s != [] {
      JoinSplit(s[1..], sep);
      var rest := Split(s[1..], sep);
      if s[0] == sep {
        assert Split(s, sep) == [[]] + rest;
        assert Join([[]] + rest, [sep]) == [] + [sep] + Join(rest, [sep]);
      } else {
        var parts := [[s[0]] + rest[0]] + rest[1..];
        if |rest| == 1 {
          assert Join(parts, [sep]) == [s[0]] + rest[0];
        } else {
          assert Join(rest, [sep]) == rest[0] + [sep] + Join(rest[1..], [sep]);
          assert parts[1..] == rest[1..];
          assert Join(parts, [sep]) == [s[0]] + rest[0] + [sep] + Join(rest[1..], [sep]);
        }
      }
    }
  }

  // ---------------------------------------------------------------- numbers

  function DigitChar(d: nat): (c: char)
    requires d < 10
    ensures IsDigit(c)
  {
    ('0' as int + d) as char
  }

  function DigitValue(c: char): (d: nat)
    requires IsDigit(c)
    ensures d < 10 && DigitChar(d) == c
  {
    c as int - '0' as int
  }

  /** Decimal rendering of a natural number, as Python's str(n). */
  function NatToString(n: nat): (r: string)
    ensures |r| >= 1
    ensures forall i :: 0 <= i < |r| ==> IsDigit(r[i])
    ensures n >= 10 <==> |r| >= 2
    ensures r[0] == '0' <==> n == 0
  {
    if n < 10 then [DigitChar(n)] else NatToString(n / 10) + [DigitChar(n % 10)]
  }

  function IntToString(i: int): string
  {
    if i < 0 then "-" + NatToString(-i) else NatToString(i)
  }

  /** Value of a string of decimal digits, as Python's int(s). */
  function ParseNat(s: string): nat
    requires forall i :: 0 <= i < |s| ==> IsDigit(s[i])
  {
    if s == [] then 0 else ParseNat(s[..|s| - 1]) * 10 + DigitValue(s[|s| - 1])
  }

  lemma {:induction false} ParseNatToString(n: nat)
    ensures ParseNat(NatToString(n)) == n
  {
    if n >= 10 {
      var s := NatToString(n);
      ParseNatToString(n / 10);
      assert s[..|s| - 1] == NatToString(n / 10);
    }
  }

  /** Rendering is injective: different numbers print differently. */
  lemma NatToStringInjective(a: nat, b: nat)
    requires NatToString(a) == NatToString(b)
    ensures a == b
  {
    ParseNatToString(a);
    ParseNatToString(b);
  }

  function Repeat(c: char, n: nat): (r: string)
    ensures |r| == n && forall i :: 0 <= i < n ==> r[i] == c
  {
    seq(n, i => c)
  }

  /** Python's "%0<width>d" for a natural number. */
  function ZeroPad(n: nat, width: nat): (r: string)
    ensures |r| >= width
    ensures forall i :: 0 <= i < |r| ==> IsDigit(r[i])
  {
    var digits := NatToString(n);
    if |digits| < width then Repeat('0', width - |digits|) + digits else digits
  }

  lemma {:induction false} ParseNatLeadingZeros(k: nat, d: string)
    requires forall i :: 0 <= i < |d| ==> IsDigit(d[i])
    ensures ParseNat(Repeat('0', k) + d) == ParseNat(d)
    decreases |d|, k
  {
    var z := Repeat('0', k);
    if d == [] {
      if k > 0 {
        assert (z + d)[..k - 1] == Repeat('0', k - 1) + [];
        ParseNatLeadingZeros(k - 1, []);
      }
    } else {
      assert (z + d)[..|z + d| - 1] == z + d[..|d| - 1];
      ParseNatLeadingZeros(k, d[..|d| - 1]);
    }
  }

  /** Zero-padding loses nothing: the padded text still reads back as the number. */
  lemma ParseZeroPad(n: nat, width: nat)
    ensures ParseNat(ZeroPad(n, width)) == n
  {
    var digits := NatToString(n);
    ParseNatToString(n);
    if |digits| < width {
      ParseNatLeadingZeros(width - |digits|, digits);
    }
  }

  lemma ZeroPadInjective(a: nat, b: nat, width: nat)
    requires ZeroPad(a, width) == ZeroPad(b, width)
    ensures a == b
  {
    ParseZeroPad(a, width);
    ParseZeroPad(b, width);
  }
}
