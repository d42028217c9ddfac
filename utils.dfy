// Field extraction from a 104 company-page snapshot (crawlers/scraper-stable/utils.py):
// the phone-pattern cascade and its normalisation, the first e-mail, the three-tier website
// search that never returns a 104 self-link, the labelled address/industry/services captures,
// and whitespace sanitising.
module Utils {
  import opened Wrappers
  import opened Text
  import opened Seqs
  import opened Pattern

  // ---------------------------------------------------------------- phone

  const DashOrSpace: Class := Union(Chars("-"), Space)

  /** 0\d{1,2}[-\s]?\d{3,4}[-\s]?\d{4} */
  const PhoneLandline: seq<Atom> :=
    [Lit("0"), Times(Digit, 1, 2), Opt(DashOrSpace), Times(Digit, 3, 4), Opt(DashOrSpace), Times(Digit, 4, 4)]
  /** 0\d{9,10} */
  const PhoneBare: seq<Atom> := [Lit("0"), Times(Digit, 9, 10)]
  /** \(\d{2,3}\)\s?\d{3,4}[-\s]?\d{4} */
  const PhoneParen: seq<Atom> :=
    [Lit("("), Times(Digit, 2, 3), Lit(")"), Opt(Space), Times(Digit, 3, 4), Opt(DashOrSpace), Times(Digit, 4, 4)]

  const PhonePatterns: seq<seq<Atom>> := [PhoneLandline, PhoneBare, PhoneParen]

  /** The first pattern (in list order) that is found anywhere in t, with its leftmost match. */
  function FirstFound(pats: seq<seq<Atom>>, t: string, k: nat): (r: Option<(nat, Hit)>)
    requires k <= |pats|
    ensures r.Some? ==> k <= r.value.0 < |pats| && Search(pats[r.value.0], t, 0) == Some(r.value.1)
    ensures r.Some? ==> forall j :: k <= j < r.value.0 ==> !Found(pats[j], t)
    ensures r.None? <==> forall j :: k <= j < |pats| ==> !Found(pats[j], t)
  {
    FirstAt(pats, k, (p: seq<Atom>) => Search(p, t, 0))
  }

  predicate IsPhoneJunk(c: char) { IsSpace(c) || c == '(' || c == ')' }

  predicate IsLandlineArea(c: char) { '2' <= c <= '8' }

  /** Strip whitespace and parentheses; a 10-character number starting with 0 gets its hyphens. */
  function NormalizePhone(m: string): string
  {
    var p := RemoveIf(m, IsPhoneJunk);
    if |p| == 10 && p[0] == '0' then
      if IsLandlineArea(p[1]) then p[..2] + "-" + p[2..6] + "-" + p[6..]
      else p[..4] + "-" + p[4..7] + "-" + p[7..]
    else p
  }

  function ExtractPhone(text: string): Option<string>
  {
    if text == [] then None
    else
      match FirstFound(PhonePatterns, text, 0)
      case None => None
      case Some((_, h)) => Some(NormalizePhone(Matched(text, h)))
  }

  /** No whitespace or parentheses survive normalisation. */
  lemma NormalizePhoneClean(m: string)
    ensures forall c :: c in NormalizePhone(m) ==> !IsPhoneJunk(c)
  {
    var p := RemoveIf(m, IsPhoneJunk);
    assert forall c :: c in p ==> !IsPhoneJunk(c);
    if |p| == 10 && p[0] == '0' {
      if IsLandlineArea(p[1]) {
        assert forall c :: c in p[..2] + "-" + p[2..6] + "-" + p[6..] ==> c in p || c == '-';
      } else {
        assert forall c :: c in p[..4] + "-" + p[4..7] + "-" + p[7..] ==> c in p || c == '-';
      }
    }
  }

  /** A returned phone contains no whitespace or parentheses; nothing is returned for empty text. */
  lemma ExtractPhoneClean(text: string)
    ensures text == [] ==> ExtractPhone(text) == None
    ensures ExtractPhone(text).Some? ==> forall c :: c in ExtractPhone(text).value ==> !IsPhoneJunk(c)
  {
    if ExtractPhone(text).Some? {
      var h := FirstFound(PhonePatterns, text, 0).value.1;
      NormalizePhoneClean(Matched(text, h));
    }
  }

  /** The phone comes from the first pattern found anywhere, even if a later pattern matches earlier in the text. */
  lemma ExtractPhoneFirstPattern(text: string, k: nat)
    requires text != [] && k < |PhonePatterns| && Found(PhonePatterns[k], text)
    requires forall j :: 0 <= j < k ==> !Found(PhonePatterns[j], text)
    ensures ExtractPhone(text) == Some(NormalizePhone(Matched(text, Search(PhonePatterns[k], text, 0).value)))
  {
    var r := FirstFound(PhonePatterns, text, 0);
    assert r.Some?;
    assert r.value.0 == k;
  }

  predicate IsHyphen(c: char) { c == '-' }

  predicate AllDigits(p: string) { forall i :: 0 <= i < |p| ==> IsDigit(p[i]) }

  /** Digits are never junk, so normalisation only formats a string of digits. */
  lemma DigitsKept(p: string)
    requires AllDigits(p)
    ensures RemoveIf(p, IsPhoneJunk) == p
  {
    RemoveIfNone(p, IsPhoneJunk);
  }

  /** The digits of a 10-digit number are kept in order: removing the inserted hyphens gives it back. */
  lemma NormalizePhoneDigits(p: string)
    requires |p| == 10 && p[0] == '0' && AllDigits(p)
    ensures |NormalizePhone(p)| == 12
    ensures RemoveIf(NormalizePhone(p), IsHyphen) == p
  {
    DigitsKept(p);
    if IsLandlineArea(p[1]) {
      RemoveHyphens3(p[..2], p[2..6], p[6..]);
      assert p[..2] + p[2..6] + p[6..] == p;
    } else {
      RemoveHyphens3(p[..4], p[4..7], p[7..]);
      assert p[..4] + p[4..7] + p[7..] == p;
    }
  }

  lemma RemoveHyphens3(a: string, b: string, c: string)
    requires AllDigits(a) && AllDigits(b) && AllDigits(c)
    ensures RemoveIf(a + "-" + b + "-" + c, IsHyphen) == a + b + c
  {
    JoinHyphen(a + "-" + b, c);
    JoinHyphen(a, b);
    RemoveIfNone(a, IsHyphen);
    RemoveIfNone(b, IsHyphen);
    RemoveIfNone(c, IsHyphen);
  }

  /** Removing hyphens from two parts joined by one is removing them from each part. */
  lemma JoinHyphen(x: string, y: string)
    ensures RemoveIf(x + "-" + y, IsHyphen) == RemoveIf(x, IsHyphen) + RemoveIf(y, IsHyphen)
  {
    assert RemoveIf("-", IsHyphen) == [];
    RemoveIfConcat(x + "-", y, IsHyphen);
    RemoveIfConcat(x, "-", IsHyphen);
    assert RemoveIf(x, IsHyphen) + [] == RemoveIf(x, IsHyphen);
  }

  /** A ten-digit number starting with 0 is split 2-4-4 after a landline area digit, else 4-3-3. */
  lemma NormalizeTen(p: string)
    requires |p| == 10 && p[0] == '0' && AllDigits(p)
    ensures NormalizePhone(p) == if IsLandlineArea(p[1]) then p[..2] + "-" + p[2..6] + "-" + p[6..]
                                 else p[..4] + "-" + p[4..7] + "-" + p[7..]
  {
    DigitsKept(p);
  }

  /** Ten or eleven characters of "0" and digits spell out the first phone pattern, split 1+2+4+4 or 1+2+3+4. */
  lemma LandlineSpells(t: string, i: nat, e: nat)
    requires i + 10 <= e <= i + 11 && e <= |t| && t[i..i + 1] == "0"
    requires forall x :: i + 1 <= x < e ==> IsDigit(t[x])
    ensures Spells(PhoneLandline, t, i, [i + 1, i + 3, i + 3, e - 4, e - 4, e])
  {
    var b := [i + 1, i + 3, i + 3, e - 4, e - 4, e];
    forall k | 0 <= k < 6 ensures Fits(PhoneLandline[k], t, Prev(i, b, k), b[k]) {
      if k == 0 {
        FitsLit("0", t, i);
      } else if k == 1 {
        FitsRep(Digit, 1, AtMost(2), false, t, i + 1, i + 3);
      } else if k == 2 {
        FitsRep(DashOrSpace, 0, AtMost(1), false, t, i + 3, i + 3);
      } else if k == 3 {
        FitsRep(Digit, 3, AtMost(4), false, t, i + 3, e - 4);
      } else if k == 4 {
        FitsRep(DashOrSpace, 0, AtMost(1), false, t, e - 4, e - 4);
      } else {
        FitsRep(Digit, 4, AtMost(4), false, t, e - 4, e);
      }
    }
    SpellsAll(PhoneLandline, t, i, b);
  }

  /** Every text the second pattern finds, the first pattern finds too, so 0\d{9,10} never decides. */
  lemma BarePatternShadowed(t: string)
    requires Found(PhoneBare, t)
    ensures Found(PhoneLandline, t)
  {
    var h := Search(PhoneBare, t, 0).value;
    var i := h.start;
    SpellsFit(PhoneBare, t, i, h.ends);
    LitAt(PhoneBare, t, i, h.ends, 0, "0");
    RepAt(PhoneBare, t, i, h.ends, 1);
    var e := h.ends[1];
    LandlineSpells(t, i, e);
    MatchComplete(PhoneLandline, t, i, [i + 1, i + 3, i + 3, e - 4, e - 4, e]);
  }

  // ---------------------------------------------------------------- e-mail

  const EmailLocal: Class := Union(Union(Letter, Digit), Chars("._%+-"))
  const EmailDomain: Class := Union(Union(Letter, Digit), Chars(".-"))

  /** [a-zA-Z0-9._%+-]+@[a-zA-Z0-9.-]+\.[a-zA-Z]{2,} */
  const EmailPattern: seq<Atom> := [Plus(EmailLocal), Lit("@"), Plus(EmailDomain), Lit("."), AtLeast(Letter, 2)]

  function ExtractEmail(text: string): (r: Option<string>)
    ensures r.Some? ==> forall i :: 0 <= i < |r.value| ==> !IsUpper(r.value[i])
  {
    if text == [] then None
    else
      match Search(EmailPattern, text, 0)
      case None => None
      case Some(h) => Some(Lower(Matched(text, h)))
  }

  /** m holds '@' at position k, after at least one character, and nowhere else. */
  predicate SoleAt(m: string, k: int)
  {
    0 < k < |m| && m[k] == '@' && forall j :: 0 <= j < |m| && j != k ==> m[j] != '@'
  }

  /** In a match of the e-mail pattern the '@' is at the end of the local part, and nowhere else. */
  lemma EmailMatchOneAt(text: string, h: Hit)
    requires Chain(text, h) && AllFit(EmailPattern, text, h.start, h.ends)
    ensures SoleAt(Matched(text, h), h.ends[0] - h.start)
  {
    assert !In('@', EmailLocal) && !In('@', EmailDomain) && !In('@', Letter);
    OneAtInMatch(EmailPattern, text, h);
  }

  /** A match of class+ "@" class+ "." class+, none of whose classes holds '@', has its one '@' after the first run. */
  lemma OneAtInMatch(p: seq<Atom>, text: string, h: Hit)
    requires |p| == 5 && p[0].Rep? && p[2].Rep? && p[4].Rep? && p[0].lo >= 1 && p[2].lo >= 1
    requires p[1] == Lit("@") && p[3] == Lit(".")
    requires !In('@', p[0].cls) && !In('@', p[2].cls) && !In('@', p[4].cls)
    requires Chain(text, h) && AllFit(p, text, h.start, h.ends)
    ensures SoleAt(Matched(text, h), h.ends[0] - h.start)
  {
    OneAtInText(p, text, h);
    assert EndOf(h) == h.ends[4];
    SoleAtInSlice(text, h.start, h.ends[0], h.ends[4]);
  }

  lemma SoleAtInSlice(text: string, a: nat, k: nat, e: nat)
    requires a < k < e <= |text| && text[k] == '@'
    requires forall x :: a <= x < e && x != k ==> text[x] != '@'
    ensures SoleAt(text[a..e], k - a)
  {
    var m := text[a..e];
    forall j | 0 <= j < |m| && j != k - a ensures m[j] != '@' {
      assert m[j] == text[a + j];
    }
  }

  lemma OneAtInText(p: seq<Atom>, text: string, h: Hit)
    requires |p| == 5 && p[0].Rep? && p[2].Rep? && p[4].Rep? && p[0].lo >= 1 && p[2].lo >= 1
    requires p[1] == Lit("@") && p[3] == Lit(".")
    requires !In('@', p[0].cls) && !In('@', p[2].cls) && !In('@', p[4].cls)
    requires Chain(text, h) && AllFit(p, text, h.start, h.ends)
    ensures h.start < h.ends[0] < h.ends[4] <= |text| && text[h.ends[0]] == '@'
    ensures forall x :: h.start <= x < h.ends[4] && x != h.ends[0] ==> text[x] != '@'
  {
    var b := h.ends;
    var i := h.start;
    RepAt(p, text, i, b, 0);
    NoAtIn(text, i, b[0], p[0].cls);
    LitAt(p, text, i, b, 1, "@");
    assert text[b[0]] == '@' by { assert text[b[0]..b[1]][0] == text[b[0]]; }
    RepAt(p, text, i, b, 2);
    NoAtIn(text, b[1], b[2], p[2].cls);
    LitAt(p, text, i, b, 3, ".");
    assert text[b[2]] == '.' by { assert text[b[2]..b[3]][0] == text[b[2]]; }
    RepAt(p, text, i, b, 4);
    NoAtIn(text, b[3], b[4], p[4].cls);
    assert b[1] == b[0] + 1 && b[3] == b[2] + 1;
    forall x | i <= x < b[4] && x != b[0] ensures text[x] != '@' {
      if x < b[0] {
      } else if x < b[2] {
        assert b[1] <= x;
      } else if x == b[2] {
      } else {
        assert b[3] <= x;
      }
    }
  }

  lemma NoAtIn(text: string, a: nat, e: nat, cls: Class)
    requires a <= e <= |text| && !In('@', cls) && forall x :: a <= x < e ==> In(text[x], cls)
    ensures forall x :: a <= x < e ==> text[x] != '@'
  {
  }

  function CountChar(s: string, c: char): nat
  {
    if s == [] then 0 else (if s[0] == c then 1 else 0) + CountChar(s[1..], c)
  }

  lemma {:induction false} CountCharOne(s: string, c: char, k: nat)
    requires k < |s| && s[k] == c && forall j :: 0 <= j < |s| && j != k ==> s[j] != c
    ensures CountChar(s, c) == 1
  {
    if k == 0 {
      CountCharNone(s[1..], c);
    } else {
      CountCharOne(s[1..], c, k - 1);
    }
  }

  lemma {:induction false} CountCharNone(s: string, c: char)
    requires forall j :: 0 <= j < |s| ==> s[j] != c
    ensures CountChar(s, c) == 0
  {
    if s != [] { CountCharNone(s[1..], c); }
  }

  /** The e-mail is the leftmost match, lower-cased, and it holds exactly one '@' with a non-empty local part before it. */
  lemma ExtractEmailShape(text: string)
    requires ExtractEmail(text).Some?
    ensures var h := Search(EmailPattern, text, 0).value;
      ExtractEmail(text).value == Lower(Matched(text, h))
      && forall j :: 0 <= j < h.start ==> Match(EmailPattern, text, j).None?
    ensures CountChar(ExtractEmail(text).value, '@') == 1
    ensures ExtractEmail(text).value[0] != '@'
  {
    var h := Search(EmailPattern, text, 0).value;
    SpellsFit(EmailPattern, text, h.start, h.ends);
    EmailMatchOneAt(text, h);
    LowerOneAt(Matched(text, h), h.ends[0] - h.start);
  }

  /** Lower-casing keeps a single '@' single, and off the front when it was. */
  lemma LowerOneAt(m: string, k: int)
    requires SoleAt(m, k)
    ensures CountChar(Lower(m), '@') == 1 && Lower(m)[0] != '@'
  {
    var r := Lower(m);
    forall j | 0 <= j < |r| && j != k ensures r[j] != '@' {
      assert r[j] == LowerChar(m[j]);
    }
    assert r[k] == '@';
    CountCharOne(r, '@', k);
  }


  // ---------------------------------------------------------------- website

  const UrlChar: Class := Not(Union(Space, Chars(")")))

  /** (?:公司網址|官網|網址|Website|官方網站)[:：\s]+([^\s\n\)]+), case-insensitive */
  const LabelledUrlPattern: seq<Atom> :=
    [Words(["公司網址", "官網", "網址", "Website", "官方網站"], true), Plus(Union(Chars(":："), Space)), Plus(UrlChar)]
  /** https?://[^\s\n\)]+ */
  const AbsoluteUrlPattern: seq<Atom> := [Lit("http"), Opt(Chars("s")), Lit("://"), Plus(UrlChar)]
  /** (www\.[^\s\n\)]+) */
  const WwwPattern: seq<Atom> := [Lit("www."), Plus(UrlChar)]

  const Self104 := "104.com.tw"

  predicate IsUrlJunk(c: char) { c in ".,;、。，；'\")" }

  function CleanUrl(u: string): string { StripBy(u, IsUrlJunk) }

  function WithScheme(u: string): string
  {
    if StartsWith(u, "http") then u else "https://" + u
  }

  /** Tier 1: the URL after a website label, unless it is a 104 link. */
  function LabelledWebsite(text: string): Option<string>
  {
    match Search(LabelledUrlPattern, text, 0)
    case None => None
    case Some(h) =>
      var u := CleanUrl(Group(text, h, 2));
      if Contains(u, Self104) then None else Some(WithScheme(u))
  }

  /** Tier 2: the first absolute URL (after cleaning) that is not a 104 link. */
  function FirstForeignUrl(text: string, hits: seq<Hit>): Option<string>
    requires forall h :: h in hits ==> Chain(text, h)
  {
    if hits == [] then None
    else
      var u := CleanUrl(Matched(text, hits[0]));
      if !Contains(u, Self104) then Some(u) else FirstForeignUrl(text, hits[1..])
  }

  /** Tier 3: the first "www." token, unless it is a 104 link. */
  function WwwWebsite(text: string): Option<string>
  {
    match Search(WwwPattern, text, 0)
    case None => None
    case Some(h) =>
      var u := CleanUrl(Matched(text, h));
      if Contains(u, Self104) then None else Some(WithScheme(u))
  }

  function ExtractWebsite(text: string): Option<string>
  {
    if text == [] then None
    else if LabelledWebsite(text).Some? then LabelledWebsite(text)
    else if FirstForeignUrl(text, FindAll(AbsoluteUrlPattern, text, 0)).Some? then
      FirstForeignUrl(text, FindAll(AbsoluteUrlPattern, text, 0))
    else WwwWebsite(text)
  }

  lemma WithSchemeShape(u: string)
    requires !Contains(u, Self104)
    ensures StartsWith(WithScheme(u), "http") && !Contains(WithScheme(u), Self104)
  {
    if !StartsWith(u, "http") {
      if Contains("https://" + u, Self104) {
        ContainsAfterPrefix("https://", u, Self104);
      }
    }
  }

  /** A cleaned match of a pattern that opens with "http" still starts with "http". */
  lemma AbsoluteUrlKeepsScheme(p: seq<Atom>, text: string, h: Hit)
    requires |p| > 0 && p[0] == Lit("http")
    requires Chain(text, h) && Spells(p, text, h.start, h.ends)
    ensures StartsWith(CleanUrl(Matched(text, h)), "http")
  {
    LitStartsMatch(p, text, h, "http");
    StripKeepsPrefix(Matched(text, h), "http", IsUrlJunk);
  }

  lemma {:induction false} FirstForeignUrlShape(text: string, hits: seq<Hit>)
    requires forall h :: h in hits ==> Chain(text, h) && Spells(AbsoluteUrlPattern, text, h.start, h.ends)
    ensures FirstForeignUrl(text, hits).Some? ==>
      StartsWith(FirstForeignUrl(text, hits).value, "http") && !Contains(FirstForeignUrl(text, hits).value, Self104)
  {
    if hits != [] {
      AbsoluteUrlKeepsScheme(AbsoluteUrlPattern, text, hits[0]);
      FirstForeignUrlShape(text, hits[1..]);
    }
  }

  lemma LabelledWebsiteShape(text: string)
    ensures LabelledWebsite(text).Some? ==>
      StartsWith(LabelledWebsite(text).value, "http") && !Contains(LabelledWebsite(text).value, Self104)
  {
    match Search(LabelledUrlPattern, text, 0)
    case None =>
    case Some(h) =>
      var u := CleanUrl(Group(text, h, 2));
      if !Contains(u, Self104) { WithSchemeShape(u); }
  }

  lemma WwwWebsiteShape(text: string)
    ensures WwwWebsite(text).Some? ==>
      StartsWith(WwwWebsite(text).value, "http") && !Contains(WwwWebsite(text).value, Self104)
  {
    match Search(WwwPattern, text, 0)
    case None =>
    case Some(h) =>
      var u := CleanUrl(Matched(text, h));
      if !Contains(u, Self104) { WithSchemeShape(u); }
  }

  /** Whatever tier decides, the website starts with "http" and is never a 104 link. */
  lemma ExtractWebsiteShape(text: string)
    ensures text == [] ==> ExtractWebsite(text) == None
    ensures ExtractWebsite(text).Some? ==>
      StartsWith(ExtractWebsite(text).value, "http") && !Contains(ExtractWebsite(text).value, Self104)
  {
    LabelledWebsiteShape(text);
    FirstForeignUrlShape(text, FindAll(AbsoluteUrlPattern, text, 0));
    WwwWebsiteShape(text);
  }

  // ---------------------------------------------------------------- snapshot

  datatype CompanyData = CompanyData(
    phone: Option<string>, email: Option<string>, website: Option<string>,
    address: Option<string>, industry: Option<string>, services: Option<string>)

  const NoData := CompanyData(None, None, None, None, None, None)

  /** heading "公司網址".*?/url:\s*([^\s\n]+) with DOTALL */
  const HeadingUrlPattern: seq<Atom> :=
    [Lit("heading \"公司網址\""), Rep(AnyChar, 0, Unbounded, true), Lit("/url:"), Star(Space), Plus(Not(Space))]

  const LabelSeparator: Class := Union(Chars(":："), Space)

  function LabelledLine(labels: seq<string>, lo: nat, hi: nat): seq<Atom>
  {
    [Words(labels, false), Plus(LabelSeparator), Times(Not(Chars("\n")), lo, hi)]
  }

  const AddressPattern := LabelledLine(["地址", "位置", "Address"], 10, 100)
  const IndustryPattern := LabelledLine(["產業類別", "產業", "Industry"], 5, 50)
  const ServicesPattern := LabelledLine(["主要商品", "服務項目", "Products", "Services"], 10, 200)

  /** The text captured after a label, stripped. */
  function LabelledValue(pat: seq<Atom>, text: string): Option<string>
    requires |pat| == 3
  {
    match Search(pat, text, 0)
    case None => None
    case Some(h) => Some(Strip(Group(text, h, 2)))
  }

  /** The URL under the "公司網址" heading, when it is not a 104 link. */
  function HeadingWebsite(text: string): Option<string>
  {
    match Search(HeadingUrlPattern, text, 0)
    case None => None
    case Some(h) =>
      var u := Strip(Group(text, h, 4));
      if Contains(u, Self104) then None else Some(u)
  }

  function Parse104Snapshot(text: string): CompanyData
  {
    if text == [] then NoData
    else
      var heading := HeadingWebsite(text);
      CompanyData(
        ExtractPhone(text),
        ExtractEmail(text),
        if heading.Some? && heading.value != [] then heading else ExtractWebsite(text),
        LabelledValue(AddressPattern, text),
        LabelledValue(IndustryPattern, text),
        LabelledValue(ServicesPattern, text))
  }

  /** A labelled capture is one line: no newline, and no longer than the window allows. */
  lemma LabelledValueOneLine(labels: seq<string>, lo: nat, hi: nat, text: string)
    ensures var v := LabelledValue(LabelledLine(labels, lo, hi), text);
      v.Some? ==> '\n' !in v.value && |v.value| <= hi
  {
    var pat := LabelledLine(labels, lo, hi);
    assert |pat| == 3 && pat[2] == Rep(Not(Chars("\n")), lo, AtMost(hi), false);
    CapturedLine(pat, lo, hi, text);
  }

  lemma CapturedLine(pat: seq<Atom>, lo: nat, hi: nat, text: string)
    requires |pat| == 3 && pat[2] == Rep(Not(Chars("\n")), lo, AtMost(hi), false)
    ensures var v := LabelledValue(pat, text);
      v.Some? ==> '\n' !in v.value && |v.value| <= hi
  {
    var found := Search(pat, text, 0);
    if found.Some? {
      var h := found.value;
      var g := Group(text, h, 2);
      assert |g| <= hi && '\n' !in g by {
        GroupInClass(pat, text, h, 2);
        assert !In('\n', pat[2].cls);
      }
      StripWithin(g, hi);
      assert LabelledValue(pat, text) == Some(Strip(g));
    }
  }

  lemma StripWithin(g: string, hi: nat)
    requires |g| <= hi && '\n' !in g
    ensures '\n' !in Strip(g) && |Strip(g)| <= hi
  {
  }

  /** Empty text gives six empty fields; otherwise the website is never a 104 link. */
  lemma Parse104SnapshotShape(text: string)
    ensures text == [] ==> Parse104Snapshot(text) == NoData
    ensures var d := Parse104Snapshot(text);
      d.website.Some? ==> !Contains(d.website.value, Self104)
  {
    if text != [] {
      ExtractWebsiteShape(text);
    }
  }

  /** The address, industry and services read from a snapshot are single lines within their windows. */
  lemma Parse104LabelledLines(text: string)
    ensures var d := Parse104Snapshot(text);
      (d.address.Some? ==> '\n' !in d.address.value && |d.address.value| <= 100)
      && (d.industry.Some? ==> '\n' !in d.industry.value && |d.industry.value| <= 50)
      && (d.services.Some? ==> '\n' !in d.services.value && |d.services.value| <= 200)
  {
    if text != [] {
      LabelledValueOneLine(["地址", "位置", "Address"], 10, 100, text);
      LabelledValueOneLine(["產業類別", "產業", "Industry"], 5, 50, text);
      LabelledValueOneLine(["主要商品", "服務項目", "Products", "Services"], 10, 200, text);
    }
  }

  /** The heading URL is preferred; extract_website is only the fallback. */
  lemma Parse104PrefersHeading(text: string)
    ensures text != [] && HeadingWebsite(text).Some? && HeadingWebsite(text).value != [] ==>
      Parse104Snapshot(text).website == HeadingWebsite(text)
    ensures text != [] && (HeadingWebsite(text).None? || HeadingWebsite(text).value == []) ==>
      Parse104Snapshot(text).website == ExtractWebsite(text)
  {
  }

  // ---------------------------------------------------------------- sanitize_text

  /** re.sub(r'\s+', ' ', s): every run of whitespace becomes one space. */
  function CollapseSpaces(s: string): (r: string)
    ensures s == [] <==> r == []
    ensures s != [] ==> (IsSpace(r[0]) <==> IsSpace(s[0]))
    ensures forall i :: 0 <= i < |r| && IsSpace(r[i]) ==> r[i] == ' '
    ensures forall i :: 0 <= i < |r| - 1 ==> !(IsSpace(r[i]) && IsSpace(r[i + 1]))
    decreases |s|
  {
    if s == [] then []
    else if IsSpace(s[0]) then
      var k := SkipFrom(s, IsSpace, 0);
      [' '] + CollapseSpaces(s[k..])
    else [s[0]] + CollapseSpaces(s[1..])
  }

  function SanitizeText(text: Option<string>): string
  {
    if text.None? || text.value == [] then [] else Strip(CollapseSpaces(text.value))
  }

  predicate Sanitized(s: string)
  {
    (s == [] || (!IsSpace(s[0]) && !IsSpace(s[|s| - 1])))
    && (forall i :: 0 <= i < |s| && IsSpace(s[i]) ==> s[i] == ' ')
    && (forall i :: 0 <= i < |s| - 1 ==> !(IsSpace(s[i]) && IsSpace(s[i + 1])))
  }

  /** The result has no whitespace at either end and never two whitespace characters in a row. */
  lemma SanitizeTextShape(text: Option<string>)
    ensures Sanitized(SanitizeText(text))
    ensures (text.None? || text.value == []) ==> SanitizeText(text) == []
  {
    if text.Some? && text.value != [] {
      var c := CollapseSpaces(text.value);
      StripIsSlice(c, IsSpace);
      var a := SkipFrom(c, IsSpace, 0);
      var b := SkipBack(c, IsSpace, a, |c|);
      SingleSpacedSlice(c, a, b);
    }
  }

  /** A slice of text whose whitespace is single spaces, never two in a row, is such text too. */
  lemma SingleSpacedSlice(c: string, a: nat, b: nat)
    requires a <= b <= |c|
    requires forall i :: 0 <= i < |c| && IsSpace(c[i]) ==> c[i] == ' '
    requires forall i :: 0 <= i < |c| - 1 ==> !(IsSpace(c[i]) && IsSpace(c[i + 1]))
    ensures var r := c[a..b];
      (forall i :: 0 <= i < |r| && IsSpace(r[i]) ==> r[i] == ' ')
      && (forall i :: 0 <= i < |r| - 1 ==> !(IsSpace(r[i]) && IsSpace(r[i + 1])))
  {
    var r := c[a..b];
    forall i | 0 <= i < |r| ensures r[i] == c[a + i] { }
  }

  lemma {:induction false} CollapseFixed(s: string)
    requires forall i :: 0 <= i < |s| && IsSpace(s[i]) ==> s[i] == ' '
    requires forall i :: 0 <= i < |s| - 1 ==> !(IsSpace(s[i]) && IsSpace(s[i + 1]))
    ensures CollapseSpaces(s) == s
  {
    if s != [] {
      if IsSpace(s[0]) {
        assert SkipFrom(s, IsSpace, 0) == 1 by {
          assert |s| == 1 || !IsSpace(s[1]);
        }
      }
      CollapseFixed(s[1..]);
    }
  }

  /** Sanitising twice is the same as sanitising once. */
  lemma SanitizeTextIdempotent(text: Option<string>)
    ensures SanitizeText(Some(SanitizeText(text))) == SanitizeText(text)
  {
    var u := SanitizeText(text);
    SanitizeTextShape(text);
    if u != [] {
      CollapseFixed(u);
      StripNoEdges(u, IsSpace);
    }
  }
}
