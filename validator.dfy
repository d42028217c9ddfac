// Field validation and the quality score (crawlers/scraper-stable/validator.py). Each check is a
// full-string match (re.match with `^...$`) run on the pattern scanner, and each is characterised
// by an independent description of the strings it accepts.
module Validator {
  import opened Wrappers
  import opened Text
  import opened Pattern
  import Utils

  /** The shape holds for the whole string or, as `$` allows, for everything before a final newline. */
  ghost predicate WholeOrBeforeNewline(s: string, shape: string -> bool)
  {
    shape(s) || (s != [] && s[|s| - 1] == '\n' && shape(s[..|s| - 1]))
  }

  /** The positions of the `$` atom are exactly the two that WholeOrBeforeNewline considers. */
  lemma EndSplits(s: string, e: nat, shape: string -> bool)
    requires AtEnd(s, e) && e <= |s| && shape(s[..e])
    ensures WholeOrBeforeNewline(s, shape)
  {
    if e == |s| { assert s[..e] == s; }
  }

  // ---------------------------------------------------------------- phone

  /** ^0\d{1,2}-\d{3,4}-\d{4}$ */
  const HyphenPhonePattern: seq<Atom> :=
    [Lit("0"), Times(Digit, 1, 2), Lit("-"), Times(Digit, 3, 4), Lit("-"), Times(Digit, 4, 4), End]
  /** ^0\d{9,10}$ */
  const DigitPhonePattern: seq<Atom> := [Lit("0"), Times(Digit, 9, 10), End]

  predicate DigitsIn(q: string, lo: nat, hi: nat)
  {
    forall i :: lo <= i < hi && i < |q| ==> IsDigit(q[i])
  }

  /** "0", d1 digits, '-', d2 digits, '-', four digits. */
  predicate HyphenLayout(q: string, d1: nat, d2: nat)
  {
    1 <= d1 <= 2 && 3 <= d2 <= 4 && |q| == d1 + d2 + 7
    && q[0] == '0' && q[d1 + 1] == '-' && q[d1 + d2 + 2] == '-'
    && DigitsIn(q, 1, d1 + 1) && DigitsIn(q, d1 + 2, d1 + d2 + 2) && DigitsIn(q, d1 + d2 + 3, |q|)
  }

  ghost predicate HyphenShape(q: string) { exists d1: nat, d2: nat :: HyphenLayout(q, d1, d2) }

  /** "0" followed by nine or ten digits. */
  predicate DigitShape(q: string)
  {
    (|q| == 10 || |q| == 11) && q[0] == '0' && DigitsIn(q, 1, |q|)
  }

  function ValidPhone(phone: Option<string>): bool
  {
    phone.Some? && phone.value != []
    && (MatchesAtStart(HyphenPhonePattern, phone.value) || MatchesAtStart(DigitPhonePattern, phone.value))
  }

  /** The positions b of the seven atoms of the hyphenated pattern, read off as plain facts about s. */
  predicate HyphenFacts(s: string, b: seq<nat>)
  {
    |b| == 7 && b[0] == 1 && 2 <= b[1] <= 3 && b[2] == b[1] + 1 && b[2] + 3 <= b[3] <= b[2] + 4
    && b[4] == b[3] + 1 && b[5] == b[4] + 4 && b[6] == b[5] && b[6] <= |s|
    && s[0] == '0' && s[b[1]] == '-' && s[b[3]] == '-'
    && DigitsIn(s, 1, b[1]) && DigitsIn(s, b[2], b[3]) && DigitsIn(s, b[4], b[5]) && AtEnd(s, b[6])
  }

  lemma HyphenHead(s: string, b: seq<nat>)
    requires AllFit(HyphenPhonePattern, s, 0, b)
    ensures b[0] == 1 && s[0] == '0' && 2 <= b[1] <= 3 && DigitsIn(s, 1, b[1])
    ensures b[2] == b[1] + 1 && s[b[1]] == '-'
  {
    var p := HyphenPhonePattern;
    LitAt(p, s, 0, b, 0, "0");
    assert s[0] == s[0..1][0];
    RepAt(p, s, 0, b, 1);
    LitAt(p, s, 0, b, 2, "-");
    assert s[b[1]] == s[b[1]..b[2]][0];
  }

  lemma HyphenTail(s: string, b: seq<nat>)
    requires AllFit(HyphenPhonePattern, s, 0, b)
    ensures b[2] + 3 <= b[3] <= b[2] + 4 && DigitsIn(s, b[2], b[3])
    ensures b[4] == b[3] + 1 && s[b[3]] == '-'
    ensures b[6] == b[5] == b[4] + 4 <= |s| && DigitsIn(s, b[4], b[5]) && AtEnd(s, b[6])
  {
    var p := HyphenPhonePattern;
    RepAt(p, s, 0, b, 3);
    LitAt(p, s, 0, b, 4, "-");
    assert s[b[3]] == s[b[3]..b[4]][0];
    RepAt(p, s, 0, b, 5);
    EndAt(p, s, 0, b, 6);
  }

  lemma HyphenSpells(s: string, b: seq<nat>)
    requires HyphenFacts(s, b)
    ensures Spells(HyphenPhonePattern, s, 0, b)
  {
    forall k | 0 <= k < 7 ensures Fits(HyphenPhonePattern[k], s, Prev(0, b, k), b[k]) {
      if k == 0 {
        assert s[0..1] == "0";
        FitsLit("0", s, 0);
      } else if k == 1 {
        FitsRep(Digit, 1, AtMost(2), false, s, 1, b[1]);
      } else if k == 2 {
        assert s[b[1]..b[1] + 1] == "-";
        FitsLit("-", s, b[1]);
      } else if k == 3 {
        FitsRep(Digit, 3, AtMost(4), false, s, b[2], b[3]);
      } else if k == 4 {
        assert s[b[3]..b[3] + 1] == "-";
        FitsLit("-", s, b[3]);
      } else if k == 5 {
        FitsRep(Digit, 4, AtMost(4), false, s, b[4], b[5]);
      } else {
        FitsEnd(s, b[6]);
      }
    }
    SpellsAll(HyphenPhonePattern, s, 0, b);
  }

  lemma HyphenFactsLayout(s: string, b: seq<nat>)
    requires HyphenFacts(s, b)
    ensures HyphenLayout(s[..b[6]], b[1] - 1, b[3] - b[2])
  {
  }

  lemma LayoutHyphenFacts(s: string, e: nat, d1: nat, d2: nat)
    requires e <= |s| && AtEnd(s, e) && HyphenLayout(s[..e], d1, d2)
    ensures HyphenFacts(s, [1, d1 + 1, d1 + 2, d1 + d2 + 2, d1 + d2 + 3, e, e])
  {
    var q := s[..e];
    assert forall x :: 0 <= x < e ==> s[x] == q[x];
  }

  /** The first validation pattern accepts exactly the hyphenated layouts. */
  lemma HyphenPatternIff(s: string)
    ensures MatchesAtStart(HyphenPhonePattern, s) <==> WholeOrBeforeNewline(s, HyphenShape)
  {
    HyphenSound(s);
    HyphenComplete(s);
  }

  lemma HyphenSound(s: string)
    ensures MatchesAtStart(HyphenPhonePattern, s) ==> WholeOrBeforeNewline(s, HyphenShape)
  {
    if MatchesAtStart(HyphenPhonePattern, s) {
      var b := Match(HyphenPhonePattern, s, 0).value;
      assert HyphenFacts(s, b) by {
        MatchSound(HyphenPhonePattern, s, 0);
        SpellsFit(HyphenPhonePattern, s, 0, b);
        HyphenHead(s, b);
        HyphenTail(s, b);
      }
      HyphenFactsLayout(s, b);
      EndSplits(s, b[6], HyphenShape);
    }
  }

  lemma HyphenComplete(s: string)
    ensures WholeOrBeforeNewline(s, HyphenShape) ==> MatchesAtStart(HyphenPhonePattern, s)
  {
    if WholeOrBeforeNewline(s, HyphenShape) {
      var e := if HyphenShape(s) then |s| else |s| - 1;
      assert HyphenShape(s[..e]) by { if e == |s| { assert s[..e] == s; } }
      var d1: nat, d2: nat :| HyphenLayout(s[..e], d1, d2);
      var b := [1, d1 + 1, d1 + 2, d1 + d2 + 2, d1 + d2 + 3, e, e];
      LayoutHyphenFacts(s, e, d1, d2);
      HyphenSpells(s, b);
      MatchComplete(HyphenPhonePattern, s, 0, b);
    }
  }

  predicate DigitFacts(s: string, b: seq<nat>)
  {
    |b| == 3 && b[0] == 1 && 10 <= b[1] <= 11 && b[2] == b[1] && b[2] <= |s|
    && s[0] == '0' && DigitsIn(s, 1, b[1]) && AtEnd(s, b[2])
  }

  lemma DigitFactsOfSpells(s: string, b: seq<nat>)
    requires AllFit(DigitPhonePattern, s, 0, b)
    ensures DigitFacts(s, b)
  {
    var p := DigitPhonePattern;
    LitAt(p, s, 0, b, 0, "0");
    assert s[0] == s[0..1][0];
    RepAt(p, s, 0, b, 1);
    EndAt(p, s, 0, b, 2);
  }

  lemma DigitSpells(s: string, b: seq<nat>)
    requires DigitFacts(s, b)
    ensures Spells(DigitPhonePattern, s, 0, b)
  {
    forall k | 0 <= k < 3 ensures Fits(DigitPhonePattern[k], s, Prev(0, b, k), b[k]) {
      if k == 0 {
        assert s[0..1] == "0";
        FitsLit("0", s, 0);
      } else if k == 1 {
        FitsRep(Digit, 9, AtMost(10), false, s, 1, b[1]);
      } else {
        FitsEnd(s, b[2]);
      }
    }
    SpellsAll(DigitPhonePattern, s, 0, b);
  }

  lemma DigitPatternIff(s: string)
    ensures MatchesAtStart(DigitPhonePattern, s) <==> WholeOrBeforeNewline(s, DigitShape)
  {
    if MatchesAtStart(DigitPhonePattern, s) {
      var b := Match(DigitPhonePattern, s, 0).value;
      assert DigitFacts(s, b) by {
        MatchSound(DigitPhonePattern, s, 0);
        SpellsFit(DigitPhonePattern, s, 0, b);
        DigitFactsOfSpells(s, b);
      }
      assert DigitShape(s[..b[2]]);
      EndSplits(s, b[2], DigitShape);
    }
    if WholeOrBeforeNewline(s, DigitShape) {
      var e := if DigitShape(s) then |s| else |s| - 1;
      var q := s[..e];
      assert DigitShape(q) by { if e == |s| { assert q == s; } }
      assert forall x :: 0 <= x < e ==> s[x] == q[x];
      var b := [1, e, e];
      assert DigitFacts(s, b);
      assert MatchesAtStart(DigitPhonePattern, s) by {
        DigitSpells(s, b);
        MatchComplete(DigitPhonePattern, s, 0, b);
      }
    }
  }

  /** validate_phone holds exactly for a non-empty string that is hyphenated 0x(x)-xxx(x)-xxxx or 0 plus nine or ten digits (before an optional final newline). */
  lemma ValidPhoneIff(phone: Option<string>)
    ensures ValidPhone(phone) <==>
      phone.Some? && (WholeOrBeforeNewline(phone.value, HyphenShape) || WholeOrBeforeNewline(phone.value, DigitShape))
  {
    if phone.Some? {
      HyphenPatternIff(phone.value);
      DigitPatternIff(phone.value);
    }
  }

  /** The 2-4-4 landline format that extract_phone produces passes validation. */
  lemma LandlineOutputValid(p: string)
    requires |p| == 10 && p[0] == '0' && Utils.AllDigits(p) && Utils.IsLandlineArea(p[1])
    ensures ValidPhone(Some(Utils.NormalizePhone(p)))
  {
    Utils.DigitsKept(p);
    var q := Utils.NormalizePhone(p);
    assert q == p[..2] + "-" + p[2..6] + "-" + p[6..];
    assert HyphenLayout(q, 1, 4);
    ValidPhoneIff(Some(q));
  }

  /** The 4-3-3 mobile format that extract_phone produces (e.g. "0912-345-678") never passes validation. */
  lemma MobileOutputInvalid(p: string)
    requires |p| == 10 && p[0] == '0' && Utils.AllDigits(p) && !Utils.IsLandlineArea(p[1])
    ensures !ValidPhone(Some(Utils.NormalizePhone(p)))
  {
    Utils.DigitsKept(p);
    var q := Utils.NormalizePhone(p);
    assert q == p[..4] + "-" + p[4..7] + "-" + p[7..];
    assert |q| == 12 && q[4] == '-' && q[2] == p[2] && q[3] == p[3] && q[11] == p[9];
    forall d1: nat, d2: nat ensures !HyphenLayout(q, d1, d2) {
      if 1 <= d1 <= 2 && |q| == d1 + d2 + 7 {
        assert IsDigit(q[d1 + 1]);
      }
    }
    assert !DigitShape(q);
    ValidPhoneIff(Some(q));
  }

  // ---------------------------------------------------------------- e-mail

  /** ^[a-zA-Z0-9._%+-]+@[a-zA-Z0-9.-]+\.[a-zA-Z]{2,}$ */
  const EmailFullPattern: seq<Atom> := Utils.EmailPattern + [End]

  predicate IsLocalChar(c: char) { IsAlnum(c) || c in "._%+-" }
  predicate IsDomainChar(c: char) { IsAlnum(c) || c in ".-" }

  /** local part s[..at], '@', domain s[at+1..dot], '.', top-level domain s[dot+1..] of two or more letters. */
  predicate EmailLayout(q: string, at: nat, dot: nat)
  {
    0 < at && at + 1 < dot && dot + 3 <= |q| && q[at] == '@' && q[dot] == '.'
    && (forall i :: 0 <= i < at ==> IsLocalChar(q[i]))
    && (forall i :: at < i < dot ==> IsDomainChar(q[i]))
    && (forall i :: dot < i < |q| ==> IsLetter(q[i]))
  }

  ghost predicate EmailShape(q: string) { exists at: nat, dot: nat :: EmailLayout(q, at, dot) }

  function ValidEmail(email: Option<string>): bool
  {
    email.Some? && email.value != [] && MatchesAtStart(EmailFullPattern, email.value)
  }

  predicate EmailFacts(s: string, b: seq<nat>)
  {
    |b| == 6 && 0 < b[0] && b[1] == b[0] + 1 && b[1] < b[2] && b[3] == b[2] + 1 && b[3] + 2 <= b[4]
    && b[5] == b[4] && b[5] <= |s| && s[b[0]] == '@' && s[b[2]] == '.'
    && (forall i :: 0 <= i < b[0] ==> In(s[i], Utils.EmailLocal))
    && (forall i :: b[1] <= i < b[2] ==> In(s[i], Utils.EmailDomain))
    && (forall i :: b[3] <= i < b[4] ==> IsLetter(s[i]))
    && AtEnd(s, b[5])
  }

  /** The atoms of local@domain.tld followed by the end anchor. */
  predicate EmailAtoms(p: seq<Atom>)
  {
    |p| == 6 && p[0] == Plus(Utils.EmailLocal) && p[1] == Lit("@") && p[2] == Plus(Utils.EmailDomain)
    && p[3] == Lit(".") && p[4] == AtLeast(Letter, 2) && p[5] == End
  }

  lemma EmailFactsOfSpells(p: seq<Atom>, s: string, b: seq<nat>)
    requires EmailAtoms(p) && AllFit(p, s, 0, b)
    ensures EmailFacts(s, b)
  {
    RepAt(p, s, 0, b, 0);
    LitAt(p, s, 0, b, 1, "@");
    assert s[b[0]] == s[b[0]..b[1]][0];
    RepAt(p, s, 0, b, 2);
    LitAt(p, s, 0, b, 3, ".");
    assert s[b[2]] == s[b[2]..b[3]][0];
    RepAt(p, s, 0, b, 4);
    EndAt(p, s, 0, b, 5);
  }

  lemma EmailSpells(s: string, b: seq<nat>)
    requires EmailFacts(s, b)
    ensures Spells(EmailFullPattern, s, 0, b)
  {
    var p := EmailFullPattern;
    forall k | 0 <= k < 6 ensures Fits(p[k], s, Prev(0, b, k), b[k]) {
      if k == 0 {
        FitsRep(Utils.EmailLocal, 1, Unbounded, false, s, 0, b[0]);
      } else if k == 1 {
        assert s[b[0]..b[0] + 1] == "@";
        FitsLit("@", s, b[0]);
      } else if k == 2 {
        FitsRep(Utils.EmailDomain, 1, Unbounded, false, s, b[1], b[2]);
      } else if k == 3 {
        assert s[b[2]..b[2] + 1] == ".";
        FitsLit(".", s, b[2]);
      } else if k == 4 {
        FitsRep(Letter, 2, Unbounded, false, s, b[3], b[4]);
      } else {
        FitsEnd(s, b[5]);
      }
    }
    SpellsAll(p, s, 0, b);
  }

  lemma EmailClasses(c: char)
    ensures In(c, Utils.EmailLocal) <==> IsLocalChar(c)
    ensures In(c, Utils.EmailDomain) <==> IsDomainChar(c)
  {
    assert In(c, Union(Letter, Digit)) <==> IsAlnum(c);
    assert In(c, Utils.EmailLocal) <==> In(c, Union(Letter, Digit)) || c in "._%+-";
    assert In(c, Utils.EmailDomain) <==> In(c, Union(Letter, Digit)) || c in ".-";
  }

  lemma EmailFactsLayout(s: string, b: seq<nat>)
    requires EmailFacts(s, b)
    ensures EmailLayout(s[..b[5]], b[0], b[2])
  {
    var q := s[..b[5]];
    forall i | 0 <= i < b[0] ensures IsLocalChar(q[i]) {
      EmailClasses(s[i]);
    }
    forall i | b[0] < i < b[2] ensures IsDomainChar(q[i]) {
      EmailClasses(s[i]);
    }
  }

  lemma LayoutEmailFacts(s: string, e: nat, at: nat, dot: nat)
    requires e <= |s| && AtEnd(s, e) && EmailLayout(s[..e], at, dot)
    ensures EmailFacts(s, [at, at + 1, dot, dot + 1, e, e])
  {
    var q := s[..e];
    forall i | 0 <= i < at ensures In(s[i], Utils.EmailLocal) {
      assert s[i] == q[i];
      EmailClasses(s[i]);
    }
    forall i | at + 1 <= i < dot ensures In(s[i], Utils.EmailDomain) {
      assert s[i] == q[i];
      EmailClasses(s[i]);
    }
    assert forall x :: 0 <= x < e ==> s[x] == q[x];
  }

  /** validate_email holds exactly for local@domain.tld with a top-level domain of two or more letters, taking up the whole string. */
  lemma ValidEmailIff(email: Option<string>)
    ensures ValidEmail(email) <==> email.Some? && WholeOrBeforeNewline(email.value, EmailShape)
  {
    if email.Some? {
      EmailSound(email.value);
      EmailComplete(email.value);
    }
  }

  lemma EmailSound(s: string)
    ensures MatchesAtStart(EmailFullPattern, s) ==> WholeOrBeforeNewline(s, EmailShape)
  {
    if !MatchesAtStart(EmailFullPattern, s) { return; }
    var b := Match(EmailFullPattern, s, 0).value;
    assert EmailFacts(s, b) by {
      MatchSound(EmailFullPattern, s, 0);
      SpellsFit(EmailFullPattern, s, 0, b);
      assert EmailAtoms(EmailFullPattern);
      EmailFactsOfSpells(EmailFullPattern, s, b);
    }
    EmailFactsLayout(s, b);
    EndSplits(s, b[5], EmailShape);
  }

  lemma EmailComplete(s: string)
    ensures WholeOrBeforeNewline(s, EmailShape) ==> MatchesAtStart(EmailFullPattern, s)
  {
    if !WholeOrBeforeNewline(s, EmailShape) { return; }
    var e := if EmailShape(s) then |s| else |s| - 1;
    assert EmailShape(s[..e]) by { if e == |s| { assert s[..e] == s; } }
    var at: nat, dot: nat :| EmailLayout(s[..e], at, dot);
    var b := [at, at + 1, dot, dot + 1, e, e];
    LayoutEmailFacts(s, e, at, dot);
    EmailSpells(s, b);
    MatchComplete(EmailFullPattern, s, 0, b);
  }

  // ---------------------------------------------------------------- website

  /** ^https?://[^\s]+\.[a-z]{2,}$ with IGNORECASE */
  const WebsitePattern: seq<Atom> :=
    [Words(["http"], true), Opt(Chars("sS")), Lit("://"), Plus(Not(Space)), Lit("."), AtLeast(Letter, 2), End]

  /** "http" in any case, an optional s, "://", a run of non-space characters, '.', and two or more letters at the end. */
  predicate WebsiteLayout(q: string, scheme: nat, dot: nat)
  {
    (scheme == 7 || scheme == 8) && scheme < dot && dot + 3 <= |q|
    && (scheme == 8 ==> q[4] in "sS") && Lower(q[..4]) == "http" && q[scheme - 3..scheme] == "://" && q[dot] == '.'
    && (forall i :: scheme <= i < dot ==> !IsSpace(q[i]))
    && (forall i :: dot < i < |q| ==> IsLetter(q[i]))
  }

  ghost predicate WebsiteShape(q: string) { exists scheme: nat, dot: nat :: WebsiteLayout(q, scheme, dot) }

  function ValidWebsite(website: Option<string>): bool
  {
    website.Some? && website.value != [] && MatchesAtStart(WebsitePattern, website.value)
  }

  predicate WebsiteFacts(s: string, b: seq<nat>)
  {
    |b| == 7 && b[0] == 4 && 4 <= b[1] <= 5 && b[2] == b[1] + 3 && b[2] < b[3] && b[4] == b[3] + 1
    && b[4] + 2 <= b[5] && b[6] == b[5] && b[6] <= |s|
    && Lower(s[..4]) == "http" && (b[1] == 5 ==> s[4] in "sS") && s[b[1]..b[2]] == "://" && s[b[3]] == '.'
    && (forall i :: b[2] <= i < b[3] ==> !IsSpace(s[i]))
    && (forall i :: b[4] <= i < b[5] ==> IsLetter(s[i]))
    && AtEnd(s, b[6])
  }

  /** The atoms of the website pattern. */
  predicate WebsiteAtoms(p: seq<Atom>)
  {
    |p| == 7 && p[0] == Words(["http"], true) && p[1] == Opt(Chars("sS")) && p[2] == Lit("://")
    && p[3] == Plus(Not(Space)) && p[4] == Lit(".") && p[5] == AtLeast(Letter, 2) && p[6] == End
  }

  lemma WebsiteScheme(p: seq<Atom>, s: string, b: seq<nat>)
    requires WebsiteAtoms(p) && AllFit(p, s, 0, b)
    ensures b[0] == 4 <= |s| && Lower(s[..4]) == "http"
  {
    var w := WordsAt(p, s, 0, b, 0);
    assert w == "http";
    assert s[..4] == s[0..4];
  }

  lemma WebsiteSeparator(p: seq<Atom>, s: string, b: seq<nat>)
    requires WebsiteAtoms(p) && AllFit(p, s, 0, b) && b[0] == 4
    ensures 4 <= b[1] <= 5 && b[2] == b[1] + 3 && b[2] <= |s| && (b[1] == 5 ==> s[4] in "sS") && s[b[1]..b[2]] == "://"
  {
    RepAt(p, s, 0, b, 1);
    LitAt(p, s, 0, b, 2, "://");
  }

  lemma WebsiteHost(p: seq<Atom>, s: string, b: seq<nat>)
    requires WebsiteAtoms(p) && AllFit(p, s, 0, b)
    ensures b[2] < b[3] && b[4] == b[3] + 1 && b[4] <= |s| && s[b[3]] == '.'
    ensures forall i :: b[2] <= i < b[3] ==> !IsSpace(s[i])
  {
    assert Prev(0, b, 3) == b[2] && Prev(0, b, 4) == b[3];
    RepAt(p, s, 0, b, 3);
    forall i | b[2] <= i < b[3] ensures !IsSpace(s[i]) {
      assert In(s[i], Not(Space));
    }
    LitAt(p, s, 0, b, 4, ".");
    assert s[b[3]] == s[b[3]..b[4]][0];
  }

  lemma WebsiteSuffix(p: seq<Atom>, s: string, b: seq<nat>)
    requires WebsiteAtoms(p) && AllFit(p, s, 0, b)
    ensures b[4] + 2 <= b[5] && b[6] == b[5] && b[6] <= |s| && AtEnd(s, b[6])
    ensures forall i :: b[4] <= i < b[5] ==> IsLetter(s[i])
  {
    RepAt(p, s, 0, b, 5);
    EndAt(p, s, 0, b, 6);
  }

  lemma WebsiteSpells(p: seq<Atom>, s: string, b: seq<nat>)
    requires WebsiteAtoms(p) && WebsiteFacts(s, b)
    ensures Spells(p, s, 0, b)
  {
    forall k | 0 <= k < 7 ensures Fits(p[k], s, Prev(0, b, k), b[k]) {
      if k == 0 {
        assert s[0..4] == s[..4];
        FitsWords(["http"], true, "http", s, 0);
      } else if k == 1 {
        FitsRep(Chars("sS"), 0, AtMost(1), false, s, 4, b[1]);
      } else if k == 2 {
        FitsLit("://", s, b[1]);
      } else if k == 3 {
        FitsRep(Not(Space), 1, Unbounded, false, s, b[2], b[3]);
      } else if k == 4 {
        assert s[b[3]..b[3] + 1] == ".";
        FitsLit(".", s, b[3]);
      } else if k == 5 {
        FitsRep(Letter, 2, Unbounded, false, s, b[4], b[5]);
      } else {
        FitsEnd(s, b[6]);
      }
    }
    SpellsAll(p, s, 0, b);
  }

  lemma WebsiteFactsLayout(s: string, b: seq<nat>)
    requires WebsiteFacts(s, b)
    ensures WebsiteLayout(s[..b[6]], b[2], b[3])
  {
    var q := s[..b[6]];
    assert q[..4] == s[..4];
    assert q[b[2] - 3..b[2]] == s[b[1]..b[2]];
  }

  lemma LayoutWebsiteFacts(s: string, e: nat, scheme: nat, dot: nat)
    requires e <= |s| && AtEnd(s, e) && WebsiteLayout(s[..e], scheme, dot)
    ensures WebsiteFacts(s, [4, scheme - 3, scheme, dot, dot + 1, e, e])
  {
    var q := s[..e];
    assert forall x :: 0 <= x < e ==> s[x] == q[x];
    assert q[..4] == s[..4];
    assert q[scheme - 3..scheme] == s[scheme - 3..scheme];
  }

  /** validate_website holds exactly for an http(s) URL whose text ends in '.' and two or more letters. */
  lemma ValidWebsiteIff(website: Option<string>)
    ensures ValidWebsite(website) <==> website.Some? && WholeOrBeforeNewline(website.value, WebsiteShape)
  {
    if website.Some? {
      WebsiteSound(website.value);
      WebsiteComplete(website.value);
    }
  }

  lemma WebsiteSound(s: string)
    ensures MatchesAtStart(WebsitePattern, s) ==> WholeOrBeforeNewline(s, WebsiteShape)
  {
    if MatchesAtStart(WebsitePattern, s) {
      var b := Match(WebsitePattern, s, 0).value;
      assert WebsiteFacts(s, b) by {
        MatchSound(WebsitePattern, s, 0);
        SpellsFit(WebsitePattern, s, 0, b);
        assert WebsiteAtoms(WebsitePattern);
        WebsiteScheme(WebsitePattern, s, b);
        WebsiteSeparator(WebsitePattern, s, b);
        WebsiteHost(WebsitePattern, s, b);
        WebsiteSuffix(WebsitePattern, s, b);
      }
      WebsiteFactsLayout(s, b);
      EndSplits(s, b[6], WebsiteShape);
    }
  }

  lemma WebsiteComplete(s: string)
    ensures WholeOrBeforeNewline(s, WebsiteShape) ==> MatchesAtStart(WebsitePattern, s)
  {
    if WholeOrBeforeNewline(s, WebsiteShape) {
      var e := if WebsiteShape(s) then |s| else |s| - 1;
      assert WebsiteShape(s[..e]) by { if e == |s| { assert s[..e] == s; } }
      var scheme: nat, dot: nat :| WebsiteLayout(s[..e], scheme, dot);
      var b := [4, scheme - 3, scheme, dot, dot + 1, e, e];
      LayoutWebsiteFacts(s, e, scheme, dot);
      assert WebsiteAtoms(WebsitePattern);
      WebsiteSpells(WebsitePattern, s, b);
      MatchComplete(WebsitePattern, s, 0, b);
    }
  }

  /** A URL ending in '/' is rejected, however it starts. */
  lemma TrailingSlashInvalid(u: string)
    requires u != [] && u[|u| - 1] == '/'
    ensures !ValidWebsite(Some(u))
  {
    forall scheme: nat, dot: nat ensures !WebsiteLayout(u, scheme, dot) {
      if dot + 3 <= |u| {
        assert !IsLetter(u[|u| - 1]);
      }
    }
    ValidWebsiteIff(Some(u));
  }

  // ---------------------------------------------------------------- record checks and score

  const FieldNames: seq<string> := ["phone", "email", "website", "address", "industry", "services"]

  function Present(v: Option<string>): bool { v.Some? && v.value != [] }

  /** validate_company_data: one (field, valid) entry per field, in this order. */
  function ValidateCompanyData(d: Utils.CompanyData): (r: seq<(string, bool)>)
    ensures |r| == 6
    ensures forall i :: 0 <= i < 6 ==> r[i].0 == FieldNames[i]
    ensures r[3].1 == Present(d.address) && r[4].1 == Present(d.industry) && r[5].1 == Present(d.services)
  {
    [("phone", ValidPhone(d.phone)), ("email", ValidEmail(d.email)), ("website", ValidWebsite(d.website)),
     ("address", Present(d.address)), ("industry", Present(d.industry)), ("services", Present(d.services))]
  }

  function CountValid(v: seq<(string, bool)>): (n: nat)
    ensures n <= |v|
  {
    if v == [] then 0 else (if v[0].1 then 1 else 0) + CountValid(v[1..])
  }

  /** get_quality_score: the percentage of entries that are valid, 0 for no entries. */
  function QualityScore(v: seq<(string, bool)>): (r: real)
    ensures 0.0 <= r <= 100.0
    ensures v == [] ==> r == 0.0
    ensures r == 100.0 <==> v != [] && CountValid(v) == |v|
    ensures r == 0.0 <==> CountValid(v) == 0
    ensures v != [] ==> r * |v| as real == CountValid(v) as real * 100.0
  {
    if |v| > 0 then (CountValid(v) as real / |v| as real) * 100.0 else 0.0
  }

  /** One valid field out of the six scores 100/6. */
  lemma OneOfSixScore(d: Utils.CompanyData)
    requires CountValid(ValidateCompanyData(d)) == 1
    ensures QualityScore(ValidateCompanyData(d)) == 100.0 / 6.0
  {
  }

  /** The score as `{score:.0f}` prints it: with six fields there is never a tie to round. */
  function ScorePercent(d: Utils.CompanyData): (r: nat)
    ensures var exact := QualityScore(ValidateCompanyData(d));
      r as real - 0.5 < exact < r as real + 0.5
    ensures r <= 100
  {
    var v := ValidateCompanyData(d);
    var n := CountValid(v);
    assert QualityScore(v) == (n as real / 6.0) * 100.0;
    RoundSixths(n);
    (n * 100 + 3) / 6
  }

  /** n sixths of a hundred lie within a half of (100n + 3) / 6. */
  lemma RoundSixths(n: nat)
    requires n <= 6
    ensures (n * 100 + 3) / 6 <= 100
    ensures var r := (n * 100 + 3) / 6; r as real - 0.5 < (n as real / 6.0) * 100.0 < r as real + 0.5
  {
    if n == 0 {
    } else if n == 1 {
    } else if n == 2 {
    } else if n == 3 {
    } else if n == 4 {
    } else if n == 5 {
    } else {
    }
  }

  function SummaryParts(d: Utils.CompanyData): seq<string>
  {
    (if ValidPhone(d.phone) then ["電話:" + d.phone.value] else [])
    + (if ValidEmail(d.email) then ["Email:" + d.email.value] else [])
    + (if ValidWebsite(d.website) then ["網站:✓"] else [])
    + (if Present(d.address) then ["地址:✓"] else [])
  }

  /** get_data_summary: the valid parts joined by " | " (or "無有效數據"), then the rounded score. */
  function DataSummary(d: Utils.CompanyData): string
  {
    var parts := SummaryParts(d);
    (if parts == [] then "無有效數據" else Join(parts, " | "))
    + " (品質:" + NatToString(ScorePercent(d)) + "%)"
  }

  lemma {:induction false} JoinStartsWithFirst(parts: seq<string>, sep: string)
    requires parts != []
    ensures StartsWith(Join(parts, sep), parts[0])
  {
    if |parts| > 1 {
      assert Join(parts, sep) == parts[0] + (sep + Join(parts[1..], sep));
    }
  }

  /** A summary opens with the no-data text exactly when there are no parts, as long as no part opens with its first character. */
  lemma NoDataHead(parts: seq<string>, a: string, n: string, b: string)
    requires parts != [] ==> parts[0] != [] && parts[0][0] != '無'
    ensures StartsWith((if parts == [] then "無有效數據" else Join(parts, " | ")) + a + n + b, "無有效數據") <==> parts == []
  {
    var s := (if parts == [] then "無有效數據" else Join(parts, " | ")) + a + n + b;
    if parts == [] {
      assert s[..5] == "無有效數據";
    } else {
      JoinStartsWithFirst(parts, " | ");
      var j := Join(parts, " | ");
      assert j[0] == parts[0][0];
      assert s[0] == j[0];
    }
  }

  /** The summary says "無有效數據" exactly when none of phone, e-mail, website or address is valid. */
  lemma NoDataSummaryIff(d: Utils.CompanyData)
    ensures StartsWith(DataSummary(d), "無有效數據") <==>
      !ValidPhone(d.phone) && !ValidEmail(d.email) && !ValidWebsite(d.website) && !Present(d.address)
  {
    var parts := SummaryParts(d);
    assert parts != [] ==> parts[0] != [] && parts[0][0] in "電E網地";
    NoDataHead(parts, " (品質:", NatToString(ScorePercent(d)), "%)");
  }
}
