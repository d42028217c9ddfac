// A scanner for the fixed patterns the scripts search with. Every pattern in these scripts is
// a concatenation of "atoms": a repetition of one character class ({lo,hi}, greedy or lazy), an
// alternation of literal words, the end anchor `$`, or a word boundary `\b`. A pattern is
// written out as a sequence of atoms, and a match is found the way Python's backtracking engine
// finds it: start positions are tried left to right, and at each atom the alternatives are tried
// in the engine's priority order (most repetitions first when greedy, fewest when lazy, words in
// the order written). Nested groups and alternation of whole sub-patterns are not needed by any
// script and are not provided.
module Pattern {
  import opened Wrappers
  import opened Text

  /** Character classes: `\d`, `\s`, `\w`, `.` (DOTALL), `[a-zA-Z]`, `[a-z0-9]`, explicit sets and their combinations. */
  datatype Class =
    | Digit
    | Space
    | Word
    | AnyChar
    | Letter
    | LowerAlnum
    | Chars(cs: string)
    | Union(a: Class, b: Class)
    | Not(a: Class)

  /** CJK punctuation that Python's `\w` does not match. */
  predicate IsCjkPunctuation(c: char)
  {
    c in "，。、；：？！「」『』（）【】《》〈〉—…·“”‘’～"
  }

  /** Python's `\w` on text: letters, digits and '_' (non-ASCII letters taken as every non-ASCII character that is neither space nor CJK punctuation). */
  predicate IsWordChar(c: char)
  {
    IsAlnum(c) || c == '_' || (c as int >= 128 && !IsSpace(c) && !IsCjkPunctuation(c))
  }

  predicate In(c: char, k: Class)
  {
    match k
    case Digit => IsDigit(c)
    case Space => IsSpace(c)
    case Word => IsWordChar(c)
    case AnyChar => true
    case Letter => IsLetter(c)
    case LowerAlnum => IsLower(c) || IsDigit(c)
    case Chars(cs) => c in cs
    case Union(a, b) => In(c, a) || In(c, b)
    case Not(a) => !In(c, a)
  }

  datatype Bound = AtMost(n: nat) | Unbounded

  datatype Atom =
    | Rep(cls: Class, lo: nat, hi: Bound, lazy: bool)
    | Words(ws: seq<string>, ignoreCase: bool)
    | End
    | Boundary

  // Shorthands for the usual quantifiers.
  function Lit(w: string): Atom { Words([w], false) }
  function One(k: Class): Atom { Rep(k, 1, AtMost(1), false) }
  function Opt(k: Class): Atom { Rep(k, 0, AtMost(1), false) }
  function Plus(k: Class): Atom { Rep(k, 1, Unbounded, false) }
  function Star(k: Class): Atom { Rep(k, 0, Unbounded, false) }
  function Times(k: Class, lo: nat, hi: nat): Atom { Rep(k, lo, AtMost(hi), false) }
  function AtLeast(k: Class, lo: nat): Atom { Rep(k, lo, Unbounded, false) }

  // ---------------------------------------------------------------- one atom

  /** Number of consecutive characters of class k from position i on. */
  function Run(s: string, i: nat, k: Class): (n: nat)
    requires i <= |s|
    ensures i + n <= |s|
    ensures forall j :: i <= j < i + n ==> In(s[j], k)
    ensures i + n == |s| || !In(s[i + n], k)
    decreases |s| - i
  {
    if i < |s| && In(s[i], k) then 1 + Run(s, i + 1, k) else 0
  }

  predicate WordAt(s: string, i: nat, w: string, ignoreCase: bool)
  {
    i + |w| <= |s| && (if ignoreCase then Lower(s[i..i + |w|]) == Lower(w) else s[i..i + |w|] == w)
  }

  predicate AtBoundary(s: string, i: nat)
  {
    i <= |s| && ((i > 0 && IsWordChar(s[i - 1])) != (i < |s| && IsWordChar(s[i])))
  }

  /** Python's `$` without MULTILINE: the end of the text, or just before a final newline. */
  predicate AtEnd(s: string, i: nat)
  {
    i == |s| || (i + 1 == |s| && s[i] == '\n')
  }

  function Cap(hi: Bound, run: nat): nat
  {
    match hi
    case AtMost(n) => if n < run then n else run
    case Unbounded => run
  }

  /** The atom a matches s[i..e]. */
  predicate Fits(a: Atom, s: string, i: nat, e: nat)
  {
    i <= e <= |s| &&
    match a
    case Rep(k, lo, hi, _) =>
      lo <= e - i && (hi.AtMost? ==> e - i <= hi.n) && forall j :: i <= j < e ==> In(s[j], k)
    case Words(ws, ic) => exists w :: w in ws && WordAt(s, i, w, ic) && e == i + |w|
    case End => e == i && AtEnd(s, i)
    case Boundary => e == i && AtBoundary(s, i)
  }

  function Up(lo: nat, hi: nat): (r: seq<nat>)
    ensures forall e :: e in r <==> lo <= e <= hi
  {
    var r := seq(if lo <= hi then hi - lo + 1 else 0, j => lo + j);
    forall e | lo <= e <= hi ensures e in r { assert r[e - lo] == e; }
    r
  }

  function Down(lo: nat, hi: nat): (r: seq<nat>)
    ensures forall e :: e in r <==> lo <= e <= hi
  {
    var r := seq(if lo <= hi then hi - lo + 1 else 0, j requires 0 <= j => if hi >= j then hi - j else 0);
    forall e | lo <= e <= hi ensures e in r { assert r[hi - e] == e; }
    r
  }

  function WordEnds(ws: seq<string>, s: string, i: nat, ic: bool): (r: seq<nat>)
    ensures forall e :: e in r <==> exists w :: w in ws && WordAt(s, i, w, ic) && e == i + |w|
  {
    if ws == [] then []
    else
      var rest := WordEnds(ws[1..], s, i, ic);
      assert forall w :: w in ws <==> w == ws[0] || w in ws[1..];
      (if WordAt(s, i, ws[0], ic) then [i + |ws[0]|] else []) + rest
  }

  /** Where atom a can end when it starts at i, in the order the engine tries them. */
  function Ends(a: Atom, s: string, i: nat): (r: seq<nat>)
    requires i <= |s|
    ensures forall e :: e in r <==> Fits(a, s, i, e)
    ensures forall j :: 0 <= j < |r| ==> Fits(a, s, i, r[j])
  {
    match a
    case Rep(k, lo, hi, lazy) =>
      var run := Run(s, i, k);
      var cap := Cap(hi, run);
      if cap < lo then []
      else if lazy then Up(i + lo, i + cap) else Down(i + lo, i + cap)
    case Words(ws, ic) => WordEnds(ws, s, i, ic)
    case End => if AtEnd(s, i) then [i] else []
    case Boundary => if AtBoundary(s, i) then [i] else []
  }

  // ---------------------------------------------------------------- a whole pattern

  /** The positions after each atom, for the first way the engine matches p at position i. */
  function Match(p: seq<Atom>, s: string, i: nat): Option<seq<nat>>
    requires i <= |s|
    decreases |p|, 1, 0
  {
    if p == [] then Some([]) else Try(p, s, Ends(p[0], s, i))
  }

  function Try(p: seq<Atom>, s: string, ends: seq<nat>): Option<seq<nat>>
    requires p != [] && forall j :: 0 <= j < |ends| ==> ends[j] <= |s|
    decreases |p|, 0, |ends|
  {
    if ends == [] then None
    else
      match Match(p[1..], s, ends[0])
      case Some(b) => Some([ends[0]] + b)
      case None => Try(p, s, ends[1..])
  }

  /** b lists the positions after each atom of p in a match of p starting at i. */
  predicate Spells(p: seq<Atom>, s: string, i: nat, b: seq<nat>)
    decreases |p|
  {
    |b| == |p| && (p == [] || (Fits(p[0], s, i, b[0]) && Spells(p[1..], s, b[0], b[1..])))
  }

  /** Every match the engine reports really spells the pattern out. */
  lemma {:induction false} MatchSound(p: seq<Atom>, s: string, i: nat)
    requires i <= |s|
    ensures Match(p, s, i).Some? ==> Spells(p, s, i, Match(p, s, i).value)
    decreases |p|, 1, 0
  {
    if p != [] { TrySound(p, s, i, Ends(p[0], s, i)); }
  }

  lemma {:induction false} TrySound(p: seq<Atom>, s: string, i: nat, ends: seq<nat>)
    requires p != [] && forall j :: 0 <= j < |ends| ==> ends[j] <= |s| && Fits(p[0], s, i, ends[j])
    ensures Try(p, s, ends).Some? ==> Spells(p, s, i, Try(p, s, ends).value)
    decreases |p|, 0, |ends|
  {
    if ends != [] {
      MatchSound(p[1..], s, ends[0]);
      if Match(p[1..], s, ends[0]).None? {
        TrySound(p, s, i, ends[1..]);
      } else {
        var b := Match(p[1..], s, ends[0]).value;
        assert ([ends[0]] + b)[1..] == b;
      }
    }
  }

  /** The engine misses no match: if some way of spelling p out from i exists, it finds one. */
  lemma {:induction false} MatchComplete(p: seq<Atom>, s: string, i: nat, b: seq<nat>)
    requires i <= |s| && Spells(p, s, i, b)
    ensures Match(p, s, i).Some?
    decreases |p|
  {
    if p != [] {
      MatchComplete(p[1..], s, b[0], b[1..]);
      TryFinds(p, s, Ends(p[0], s, i), b[0]);
    }
  }

  lemma {:induction false} TryFinds(p: seq<Atom>, s: string, ends: seq<nat>, e: nat)
    requires p != [] && forall j :: 0 <= j < |ends| ==> ends[j] <= |s|
    requires e in ends && Match(p[1..], s, e).Some?
    ensures Try(p, s, ends).Some?
    decreases |ends|
  {
    if ends[0] != e && Match(p[1..], s, ends[0]).None? {
      TryFinds(p, s, ends[1..], e);
    }
  }

  function Prev(start: nat, ends: seq<nat>, k: nat): nat
    requires k <= |ends|
  {
    if k == 0 then start else ends[k - 1]
  }

  /** In a spelled-out match, atom k covers s[Prev(k)..ends[k]]. */
  lemma {:induction false} SpellsAt(p: seq<Atom>, s: string, i: nat, b: seq<nat>, k: nat)
    requires Spells(p, s, i, b) && k < |p|
    ensures Fits(p[k], s, Prev(i, b, k), b[k])
    decreases k
  {
    if k > 0 {
      SpellsAt(p[1..], s, b[0], b[1..], k - 1);
      assert Prev(b[0], b[1..], k - 1) == Prev(i, b, k);
    }
  }

  /** The positions of a spelled-out match never go backwards and stay inside the text. */
  lemma {:induction false} SpellsChain(p: seq<Atom>, s: string, i: nat, b: seq<nat>)
    requires Spells(p, s, i, b) && i <= |s|
    ensures forall k :: 0 <= k < |b| ==> Prev(i, b, k) <= b[k] <= |s|
  {
    forall k | 0 <= k < |b| ensures Prev(i, b, k) <= b[k] <= |s| {
      SpellsAt(p, s, i, b, k);
    }
  }

  /** Every atom of p fits its stretch of s, the positions b laid end to end from i. */
  predicate AllFit(p: seq<Atom>, s: string, i: nat, b: seq<nat>)
  {
    |b| == |p| && forall k :: 0 <= k < |p| ==> Fits(p[k], s, Prev(i, b, k), b[k])
  }

  /** A spelled-out match has every atom fitting in place. */
  lemma SpellsFit(p: seq<Atom>, s: string, i: nat, b: seq<nat>)
    requires Spells(p, s, i, b)
    ensures AllFit(p, s, i, b)
  {
    forall k | 0 <= k < |p| ensures Fits(p[k], s, Prev(i, b, k), b[k]) {
      SpellsAt(p, s, i, b, k);
    }
  }

  /** What a spelled-out repetition atom k says about its stretch of text. */
  lemma RepAt(p: seq<Atom>, s: string, i: nat, b: seq<nat>, k: nat)
    requires AllFit(p, s, i, b) && k < |p| && p[k].Rep?
    ensures Prev(i, b, k) + p[k].lo <= b[k] <= |s|
    ensures p[k].hi.AtMost? ==> b[k] - Prev(i, b, k) <= p[k].hi.n
    ensures forall x :: Prev(i, b, k) <= x < b[k] ==> In(s[x], p[k].cls)
  {
    assert Fits(p[k], s, Prev(i, b, k), b[k]);
  }

  /** What a spelled-out literal atom k says about its stretch of text. */
  lemma LitAt(p: seq<Atom>, s: string, i: nat, b: seq<nat>, k: nat, w: string)
    requires AllFit(p, s, i, b) && k < |p| && p[k] == Lit(w)
    ensures Prev(i, b, k) + |w| == b[k] <= |s| && s[Prev(i, b, k)..b[k]] == w
  {
    assert Fits(p[k], s, Prev(i, b, k), b[k]);
    var v :| v in [w] && WordAt(s, Prev(i, b, k), v, false) && b[k] == Prev(i, b, k) + |v|;
  }

  /** The converse of SpellsAt: positions for which every atom fits in turn spell the pattern out. */
  lemma {:induction false} SpellsAll(p: seq<Atom>, s: string, i: nat, b: seq<nat>)
    requires |b| == |p|
    requires forall k :: 0 <= k < |p| ==> Fits(p[k], s, Prev(i, b, k), b[k])
    ensures Spells(p, s, i, b)
    decreases |p|
  {
    if p != [] {
      assert Fits(p[0], s, Prev(i, b, 0), b[0]);
      forall k | 0 <= k < |p| - 1 ensures Fits(p[1..][k], s, Prev(b[0], b[1..], k), b[1..][k]) {
        assert Fits(p[k + 1], s, Prev(i, b, k + 1), b[k + 1]);
      }
      SpellsAll(p[1..], s, b[0], b[1..]);
    }
  }

  /** A spelled-out `$` sits at the end of the text or just before a final newline. */
  lemma EndAt(p: seq<Atom>, s: string, i: nat, b: seq<nat>, k: nat)
    requires AllFit(p, s, i, b) && k < |p| && p[k] == End
    ensures b[k] == Prev(i, b, k) && AtEnd(s, b[k])
  {
    assert Fits(p[k], s, Prev(i, b, k), b[k]);
  }

  /** A spelled-out word alternation covers one of its words. */
  lemma WordsAt(p: seq<Atom>, s: string, i: nat, b: seq<nat>, k: nat) returns (w: string)
    requires AllFit(p, s, i, b) && k < |p| && p[k].Words?
    ensures w in p[k].ws && WordAt(s, Prev(i, b, k), w, p[k].ignoreCase) && b[k] == Prev(i, b, k) + |w|
  {
    assert Fits(p[k], s, Prev(i, b, k), b[k]);
    w :| w in p[k].ws && WordAt(s, Prev(i, b, k), w, p[k].ignoreCase) && b[k] == Prev(i, b, k) + |w|;
  }

  lemma FitsEnd(s: string, i: nat)
    requires AtEnd(s, i)
    ensures Fits(End, s, i, i)
  {
  }

  lemma FitsWords(ws: seq<string>, ic: bool, w: string, s: string, i: nat)
    requires w in ws && WordAt(s, i, w, ic)
    ensures Fits(Words(ws, ic), s, i, i + |w|)
  {
  }

  lemma FitsRep(k: Class, lo: nat, hi: Bound, lazy: bool, s: string, i: nat, e: nat)
    requires i <= e <= |s| && lo <= e - i && (hi.AtMost? ==> e - i <= hi.n)
    requires forall x :: i <= x < e ==> In(s[x], k)
    ensures Fits(Rep(k, lo, hi, lazy), s, i, e)
  {
  }

  lemma FitsLit(w: string, s: string, i: nat)
    requires i + |w| <= |s| && s[i..i + |w|] == w
    ensures Fits(Lit(w), s, i, i + |w|)
  {
    assert w in [w] && WordAt(s, i, w, false);
  }

  // ---------------------------------------------------------------- search and findall

  datatype Hit = Hit(start: nat, ends: seq<nat>)

  predicate Chain(s: string, h: Hit)
  {
    h.start <= |s| && forall k :: 0 <= k < |h.ends| ==> Prev(h.start, h.ends, k) <= h.ends[k] <= |s|
  }

  /** The least j in from..last at which g gives a value, with that value. */
  function FirstFrom<B>(g: nat -> Option<B>, from: nat, last: nat): (r: Option<(nat, B)>)
    ensures r.Some? ==> from <= r.value.0 <= last && g(r.value.0) == Some(r.value.1)
    ensures r.Some? ==> forall j :: from <= j < r.value.0 ==> g(j).None?
    ensures r.None? ==> forall j :: from <= j <= last ==> g(j).None?
    decreases last + 1 - from
  {
    if from > last then None
    else
      match g(from)
      case Some(b) => Some((from, b))
      case None => FirstFrom(g, from + 1, last)
  }

  /** Python's re.search from position `from`: the leftmost start at which p matches. */
  function Search(p: seq<Atom>, s: string, from: nat): (r: Option<Hit>)
    ensures r.Some? ==> from <= r.value.start <= |s| && Match(p, s, r.value.start) == Some(r.value.ends)
    ensures r.Some? ==> Spells(p, s, r.value.start, r.value.ends) && Chain(s, r.value)
    ensures r.Some? ==> forall j :: from <= j < r.value.start ==> Match(p, s, j).None?
    ensures r.None? ==> forall j :: from <= j <= |s| ==> Match(p, s, j).None?
  {
    var g := (j: nat) => if j <= |s| then Match(p, s, j) else None;
    match FirstFrom(g, from, |s|)
    case None =>
      assert forall j :: from <= j <= |s| ==> Match(p, s, j).None? by {
        forall j | from <= j <= |s| ensures Match(p, s, j).None? { assert g(j).None?; }
      }
      None
    case Some((i, b)) =>
      assert forall j :: from <= j < i ==> Match(p, s, j).None? by {
        forall j | from <= j < i ensures Match(p, s, j).None? { assert g(j).None?; }
      }
      assert Match(p, s, i) == g(i);
      MatchSound(p, s, i);
      SpellsChain(p, s, i, b);
      Some(Hit(i, b))
  }

  /** Position after the whole match. */
  function EndOf(h: Hit): nat
  {
    if h.ends == [] then h.start else h.ends[|h.ends| - 1]
  }

  lemma ChainEnd(s: string, h: Hit)
    requires Chain(s, h)
    ensures h.start <= EndOf(h) <= |s|
  {
    if h.ends != [] {
      var k := |h.ends| - 1;
      ChainUpTo(s, h, k);
    }
  }

  lemma {:induction false} ChainUpTo(s: string, h: Hit, k: nat)
    requires Chain(s, h) && k < |h.ends|
    ensures h.start <= h.ends[k]
  {
    if k > 0 { ChainUpTo(s, h, k - 1); }
  }

  /** The text of the whole match (group 0). */
  function Matched(s: string, h: Hit): string
    requires Chain(s, h)
  {
    ChainEnd(s, h);
    s[h.start..EndOf(h)]
  }

  /** The text covered by atom k (a capture group that is exactly one atom). */
  function Group(s: string, h: Hit, k: nat): string
    requires Chain(s, h) && k < |h.ends|
  {
    s[Prev(h.start, h.ends, k)..h.ends[k]]
  }

  /** Every character of a group captured by a repetition atom belongs to its class. */
  lemma GroupInClass(p: seq<Atom>, s: string, h: Hit, k: nat)
    requires Spells(p, s, h.start, h.ends) && Chain(s, h) && k < |p| && p[k].Rep?
    ensures forall c :: c in Group(s, h, k) ==> In(c, p[k].cls)
    ensures p[k].lo <= |Group(s, h, k)|
    ensures p[k].hi.AtMost? ==> |Group(s, h, k)| <= p[k].hi.n
  {
    SpellsAt(p, s, h.start, h.ends, k);
    var g := Group(s, h, k);
    var a := Prev(h.start, h.ends, k);
    forall c | c in g ensures In(c, p[k].cls) {
      var j :| 0 <= j < |g| && g[j] == c;
      assert s[a + j] == c;
    }
  }

  /** Python's re.findall / re.finditer: successive non-overlapping leftmost matches. */
  function FindAll(p: seq<Atom>, s: string, from: nat): (r: seq<Hit>)
    ensures forall h :: h in r ==> Chain(s, h) && Spells(p, s, h.start, h.ends) && from <= h.start
    decreases |s| + 1 - from
  {
    match Search(p, s, from)
    case None => []
    case Some(h) =>
      ChainEnd(s, h);
      var next := if EndOf(h) > h.start then EndOf(h) else h.start + 1;
      [h] + FindAll(p, s, next)
  }

  /** The first match found by findall is the one re.search finds. */
  lemma FindAllFirst(p: seq<Atom>, s: string, from: nat)
    ensures Search(p, s, from).Some? <==> FindAll(p, s, from) != []
    ensures Search(p, s, from).Some? ==> FindAll(p, s, from)[0] == Search(p, s, from).value
  {
  }

  /** re.search(p, s) is truthy. */
  predicate Found(p: seq<Atom>, s: string)
  {
    Search(p, s, 0).Some?
  }

  /** Python's re.match(p + "$"-free, s): p matches at the very start. */
  predicate MatchesAtStart(p: seq<Atom>, s: string)
  {
    Match(p, s, 0).Some?
  }

  /** Any spelled-out match makes re.search succeed. */
  lemma FoundOfSpells(p: seq<Atom>, s: string, i: nat, b: seq<nat>)
    requires i <= |s| && Spells(p, s, i, b)
    ensures Found(p, s)
  {
    MatchComplete(p, s, i, b);
  }

  /** The match re.search reports has every atom fitting in place. */
  lemma FoundFits(p: seq<Atom>, s: string)
    requires Found(p, s)
    ensures var h := Search(p, s, 0).value; Chain(s, h) && h.start <= |s| && AllFit(p, s, h.start, h.ends)
  {
    var h := Search(p, s, 0).value;
    SpellsFit(p, s, h.start, h.ends);
  }

  /** p matches at no position of s before i. */
  predicate NoneBefore(p: seq<Atom>, s: string, i: nat)
  {
    forall j :: 0 <= j < i && j <= |s| ==> Match(p, s, j).None?
  }

  /** p matches s at i and nowhere earlier, and t is the text that match covers: what re.search reports. */
  predicate FirstMatchText(p: seq<Atom>, s: string, i: nat, t: string)
  {
    i <= |s| && NoneBefore(p, s, i) && Match(p, s, i).Some?
    && var h := Hit(i, Match(p, s, i).value); Chain(s, h) && t == Matched(s, h)
  }

  /** p matches s at i and nowhere earlier, and t is what atom k covers in that match: group k of re.search. */
  predicate FirstGroupText(p: seq<Atom>, s: string, i: nat, k: nat, t: string)
  {
    i <= |s| && NoneBefore(p, s, i) && Match(p, s, i).Some?
    && var h := Hit(i, Match(p, s, i).value); Chain(s, h) && k < |h.ends| && t == Group(s, h, k)
  }

  /** The hit re.search reports is the first match. */
  lemma SearchIsFirst(p: seq<Atom>, s: string)
    requires Found(p, s)
    ensures var h := Search(p, s, 0).value; FirstMatchText(p, s, h.start, Matched(s, h))
  {
  }

  /** Group k of the first match, when there is one. */
  function Capture(p: seq<Atom>, s: string, k: nat): (r: Option<string>)
    requires k < |p|
    ensures r.Some? <==> Found(p, s)
    ensures r.Some? && p[k].Rep? ==> p[k].lo <= |r.value| && forall c :: c in r.value ==> In(c, p[k].cls)
    ensures r.Some? ==> exists i :: FirstGroupText(p, s, i, k, r.value)
  {
    match Search(p, s, 0)
    case None => None
    case Some(h) =>
      assert p[k].Rep? ==> p[k].lo <= |Group(s, h, k)| && forall c :: c in Group(s, h, k) ==> In(c, p[k].cls) by {
        if p[k].Rep? { GroupInClass(p, s, h, k); }
      }
      assert FirstGroupText(p, s, h.start, k, Group(s, h, k));
      Some(Group(s, h, k))
  }

  /** The group of a trailing one-or-more repetition of cls: non-empty, every character in cls. */
  function CaptureTail(prefix: seq<Atom>, cls: Class, s: string): (r: Option<string>)
    ensures r.Some? <==> Found(prefix + [Plus(cls)], s)
    ensures r.Some? ==> r.value != [] && forall c :: c in r.value ==> In(c, cls)
    ensures r.Some? ==> exists i :: FirstGroupText(prefix + [Plus(cls)], s, i, |prefix|, r.value)
  {
    var p := prefix + [Plus(cls)];
    assert p[|prefix|] == Plus(cls);
    Capture(p, s, |prefix|)
  }

  /** A group that directly follows a literal stands in the text right after that literal. */
  lemma CaptureAfterLit(p: seq<Atom>, s: string, k: nat, w: string)
    requires 0 < k < |p| && p[k - 1] == Lit(w) && Found(p, s)
    ensures Contains(s, w + Capture(p, s, k).value)
  {
    var h := Search(p, s, 0).value;
    var b := h.ends;
    CaptureIsGroup(p, s, k);
    FoundFits(p, s);
    LitAt(p, s, h.start, b, k - 1, w);
    var a := Prev(h.start, b, k - 1);
    assert Prev(h.start, b, k) == b[k - 1];
    AdjacentOccurs(s, a, b[k - 1], b[k], w);
  }

  /** When the pattern is found, group k is the stretch of the first match that atom k covers. */
  lemma CaptureIsGroup(p: seq<Atom>, s: string, k: nat)
    requires k < |p| && Found(p, s)
    ensures var h := Search(p, s, 0).value; Chain(s, h) && k < |h.ends| && Capture(p, s, k) == Some(Group(s, h, k))
  {
  }

  /** A word right before a stretch of text occurs together with it. */
  lemma AdjacentOccurs(s: string, a: nat, m: nat, e: nat, w: string)
    requires a <= m <= e <= |s| && s[a..m] == w
    ensures OccursAt(s, w + s[m..e], a)
  {
    assert s[a..e] == s[a..m] + s[m..e];
  }

  /** A spelled-out match of prefix followed by cls+ gives a tail group. */
  lemma CaptureTailFound(prefix: seq<Atom>, cls: Class, s: string, i: nat, b: seq<nat>)
    requires i <= |s| && Spells(prefix + [Plus(cls)], s, i, b)
    ensures CaptureTail(prefix, cls, s).Some?
  {
    FoundOfSpells(prefix + [Plus(cls)], s, i, b);
  }

  /** A tail group right after a literal stands in the text right after that literal. */
  lemma CaptureTailAfterLit(prefix: seq<Atom>, cls: Class, s: string, w: string)
    requires |prefix| > 0 && prefix[|prefix| - 1] == Lit(w) && CaptureTail(prefix, cls, s).Some?
    ensures Contains(s, w + CaptureTail(prefix, cls, s).value)
  {
    var p := prefix + [Plus(cls)];
    assert p[|prefix| - 1] == Lit(w);
    CaptureAfterLit(p, s, |prefix|, w);
  }

  /** In a chain the end of each atom lies at or before the end of the whole match. */
  lemma {:induction false} ChainBelowEnd(s: string, h: Hit, k: nat)
    requires Chain(s, h) && k < |h.ends|
    ensures h.ends[k] <= EndOf(h)
    decreases |h.ends| - k
  {
    if k + 1 < |h.ends| {
      ChainBelowEnd(s, h, k + 1);
      assert Prev(h.start, h.ends, k + 1) <= h.ends[k + 1];
    }
  }

  /** Atom k of a chain covers a stretch inside the whole match. */
  lemma WithinMatch(s: string, h: Hit, k: nat)
    requires Chain(s, h) && k < |h.ends|
    ensures h.start <= Prev(h.start, h.ends, k) <= h.ends[k] <= EndOf(h) <= |s|
  {
    if k > 0 { ChainUpTo(s, h, k - 1); }
    ChainBelowEnd(s, h, k);
    ChainEnd(s, h);
  }

  /** A piece of s lying inside s[i..j] is a piece of s[i..j]. */
  lemma OccursInSlice(s: string, i: nat, j: nat, t: string, x: nat)
    requires i <= x && x + |t| <= j <= |s| && s[x..x + |t|] == t
    ensures Contains(s[i..j], t)
  {
    var u := s[i..j];
    forall q | 0 <= q < |t| ensures u[x - i..x - i + |t|][q] == t[q] {
      assert u[x - i + q] == s[x + q];
      assert s[x..x + |t|][q] == s[x + q];
    }
    assert u[x - i..x - i + |t|] == t;
    assert OccursAt(u, t, x - i);
  }

  /** A literal atom of the pattern appears in the text of a match. */
  lemma LitInMatched(p: seq<Atom>, s: string, h: Hit, k: nat, w: string)
    requires Chain(s, h) && AllFit(p, s, h.start, h.ends) && k < |p| && p[k] == Lit(w)
    ensures Contains(Matched(s, h), w)
  {
    LitAt(p, s, h.start, h.ends, k, w);
    WithinMatch(s, h, k);
    OccursInSlice(s, h.start, EndOf(h), w, Prev(h.start, h.ends, k));
  }

  /** A match is at least as long as the fewest repetitions any one of its repetition atoms allows. */
  lemma RepInMatched(p: seq<Atom>, s: string, h: Hit, k: nat)
    requires Chain(s, h) && AllFit(p, s, h.start, h.ends) && k < |p| && p[k].Rep?
    ensures p[k].lo <= |Matched(s, h)|
  {
    WithinMatch(s, h, k);
    assert Fits(p[k], s, Prev(h.start, h.ends, k), h.ends[k]);
  }

  /** A match of a pattern that opens with a literal starts with that literal. */
  lemma LitStartsMatch(p: seq<Atom>, s: string, h: Hit, w: string)
    requires Chain(s, h) && Spells(p, s, h.start, h.ends) && |p| > 0 && p[0] == Lit(w)
    ensures StartsWith(Matched(s, h), w)
  {
    SpellsFit(p, s, h.start, h.ends);
    LitAt(p, s, h.start, h.ends, 0, w);
    WithinMatch(s, h, 0);
    assert Matched(s, h)[..|w|] == s[h.start..h.ends[0]];
  }
}
