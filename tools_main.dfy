// The earlier single-file contact scraper (tools/scraper-stable/main.py): validation of scraped
// values, the search-page and company-page scans, retry by recursion, the per-company fallback and
// the resumable run loop over a progress record. Browser snapshots, sheet writes, clock readings
// and escaping exceptions are outcomes the caller supplies.
module StableTool {
  import opened Wrappers
  import opened Text
  import opened Pattern
  import Validator

  // ---------------------------------------------------------------- validate_phone

  /** 0\d{1,2}-?\d{6,8}, searched anywhere in the string. */
  const PhoneSearchPattern: seq<Atom> := [Lit("0"), Times(Digit, 1, 2), Opt(Chars("-")), Times(Digit, 6, 8)]

  /** A '0' at i, one or two digits up to e1, an optional '-' up to e2, and six to eight digits up to e3. */
  predicate PhoneRunAt(s: string, i: nat, e1: nat, e2: nat, e3: nat)
  {
    i + 2 <= e1 <= i + 3 && e1 <= e2 <= e1 + 1 && e2 + 6 <= e3 <= e2 + 8 && e3 <= |s|
    && s[i] == '0' && Validator.DigitsIn(s, i + 1, e1) && (e2 == e1 + 1 ==> s[e1] == '-')
    && Validator.DigitsIn(s, e2, e3)
  }

  ghost predicate HasPhoneRun(s: string)
  {
    exists i: nat, e1: nat, e2: nat, e3: nat :: PhoneRunAt(s, i, e1, e2, e3)
  }

  /** Empty and the placeholder "待查" are rejected before the search. */
  function ValidatePhone(phone: Option<string>): bool
  {
    match phone
    case None => false
    case Some(s) => if s == "" || s == "待查" then false else Found(PhoneSearchPattern, s)
  }

  lemma PhoneFacts(s: string, j: nat, b: seq<nat>)
    requires AllFit(PhoneSearchPattern, s, j, b)
    ensures |b| == 4 && b[0] == j + 1
    ensures PhoneRunAt(s, j, b[1], b[2], b[3])
  {
    var p := PhoneSearchPattern;
    LitAt(p, s, j, b, 0, "0");
    assert s[j] == s[j..b[0]][0];
    RepAt(p, s, j, b, 1);
    RepAt(p, s, j, b, 2);
    RepAt(p, s, j, b, 3);
    if b[2] == b[1] + 1 {
      assert In(s[b[1]], Chars("-"));
    }
  }

  lemma PhoneRunSpells(s: string, i: nat, e1: nat, e2: nat, e3: nat)
    requires PhoneRunAt(s, i, e1, e2, e3)
    ensures Spells(PhoneSearchPattern, s, i, [i + 1, e1, e2, e3])
  {
    var p := PhoneSearchPattern;
    var b := [i + 1, e1, e2, e3];
    forall k | 0 <= k < 4 ensures Fits(p[k], s, Prev(i, b, k), b[k]) {
      if k == 0 {
        assert s[i..i + 1] == "0";
        FitsLit("0", s, i);
      } else if k == 1 {
        FitsRep(Digit, 1, AtMost(2), false, s, i + 1, e1);
      } else if k == 2 {
        FitsRep(Chars("-"), 0, AtMost(1), false, s, e1, e2);
      } else {
        FitsRep(Digit, 6, AtMost(8), false, s, e2, e3);
      }
    }
    SpellsAll(p, s, i, b);
  }

  /** The search succeeds exactly when such a run occurs somewhere in the string. */
  lemma PhoneSearchIff(s: string)
    ensures Found(PhoneSearchPattern, s) <==> HasPhoneRun(s)
  {
    if Found(PhoneSearchPattern, s) { PhoneSearchSound(s); }
    if HasPhoneRun(s) { PhoneSearchComplete(s); }
  }

  lemma PhoneSearchSound(s: string)
    requires Found(PhoneSearchPattern, s)
    ensures HasPhoneRun(s)
  {
    var p := PhoneSearchPattern;
    var h := Search(p, s, 0).value;
    FoundFits(p, s);
    PhoneFacts(s, h.start, h.ends);
    assert PhoneRunAt(s, h.start, h.ends[1], h.ends[2], h.ends[3]);
  }

  lemma PhoneSearchComplete(s: string)
    requires HasPhoneRun(s)
    ensures Found(PhoneSearchPattern, s)
  {
    var i: nat, e1: nat, e2: nat, e3: nat :| PhoneRunAt(s, i, e1, e2, e3);
    PhoneRunSpells(s, i, e1, e2, e3);
    FoundOfSpells(PhoneSearchPattern, s, i, [i + 1, e1, e2, e3]);
  }

  /** validate_phone holds exactly for a string holding a run 0, one or two digits, an optional '-', six to eight digits. */
  lemma ValidatePhoneIff(phone: Option<string>)
    ensures ValidatePhone(phone) <==> phone.Some? && HasPhoneRun(phone.value)
  {
    if phone.Some? {
      var s := phone.value;
      PhoneSearchIff(s);
      if s == "待查" {
        forall i: nat, e1: nat, e2: nat, e3: nat ensures !PhoneRunAt(s, i, e1, e2, e3) {
          if i < |s| { assert s[i] != '0'; }
        }
      }
    }
  }

  /** The hyphenated landline format the contact pipeline writes, 0x-xxxx-xxxx, passes its own validator ... */
  lemma LandlineValidForPipeline()
    ensures Validator.ValidPhone(Some("02-1234-5678"))
  {
    var s := "02-1234-5678";
    assert Validator.HyphenLayout(s, 1, 4);
    Validator.ValidPhoneIff(Some(s));
  }

  /** ... but holds no run of six digits after the area code without a break. */
  lemma LandlineNoPhoneRun()
    ensures !HasPhoneRun("02-1234-5678")
  {
    var s := "02-1234-5678";
    forall i: nat, e1: nat, e2: nat, e3: nat ensures !PhoneRunAt(s, i, e1, e2, e3) {
      if i == 0 {
        if e1 == 3 { assert !IsDigit(s[2]); }
        else if e2 == 2 { assert !IsDigit(s[2]); }
        else if e2 == 3 { assert !IsDigit(s[7]); }
      } else if i < |s| {
        assert s[i] != '0';
      }
    }
  }

  /** So the pipeline's own landline format fails this validate_phone. */
  lemma HyphenatedLandlineRejected()
    ensures Validator.ValidPhone(Some("02-1234-5678"))
    ensures !ValidatePhone(Some("02-1234-5678"))
  {
    LandlineValidForPipeline();
    LandlineNoPhoneRun();
    ValidatePhoneIff(Some("02-1234-5678"));
  }

  // ---------------------------------------------------------------- validate_email

  /** Empty and "待查" are rejected; otherwise the same full match as the pipeline's e-mail check. */
  function ValidateEmail(email: Option<string>): bool
  {
    match email
    case None => false
    case Some(s) => if s == "" || s == "待查" then false else MatchesAtStart(Validator.EmailFullPattern, s)
  }

  /** validate_email accepts exactly local@domain.tld filling the string, and agrees with the pipeline's check
      ("待查" could never have passed it). */
  lemma ValidateEmailIff(email: Option<string>)
    ensures ValidateEmail(email) <==> email.Some? && Validator.WholeOrBeforeNewline(email.value, Validator.EmailShape)
    ensures ValidateEmail(email) == Validator.ValidEmail(email)
  {
    Validator.ValidEmailIff(email);
    if email == Some("待查") {
      var s := "待查";
      assert !Validator.EmailShape(s);
      assert s[|s| - 1] != '\n';
      assert !Validator.WholeOrBeforeNewline(s, Validator.EmailShape);
    }
  }

  // ---------------------------------------------------------------- search_104_company

  const CompanyPage: string := "https://www.104.com.tw/company/"

  /** /url:\s*https://www\.104\.com\.tw/company/([a-z0-9]+) */
  const CompanyIdPrefix: seq<Atom> := [Lit("/url:"), Star(Space), Lit(CompanyPage)]
  const CompanyIdPattern: seq<Atom> := CompanyIdPrefix + [Plus(LowerAlnum)]

  /** A line worth matching: a link to a company page that is not a search page. */
  predicate LinkCandidate(line: string)
  {
    Contains(line, "/url:") && Contains(line, "/company/") && !Contains(line, "/search")
  }

  predicate IdChar(c: char) { IsLower(c) || IsDigit(c) }

  /** The run of lower-case letters and digits captured after a prefix pattern. */
  function IdAfter(prefix: seq<Atom>, line: string): (r: Option<string>)
    ensures r.Some? ==> r.value != [] && forall c :: c in r.value ==> IdChar(c)
  {
    var r := CaptureTail(prefix, LowerAlnum, line);
    assert r.Some? ==> forall c :: c in r.value ==> IdChar(c) by {
      if r.Some? {
        forall c | c in r.value ensures IdChar(c) { assert In(c, LowerAlnum); }
      }
    }
    r
  }

  /** The id group of the first match of the link pattern on a line. */
  function CompanyId(line: string): (r: Option<string>)
    ensures r.Some? ==> r.value != [] && forall c :: c in r.value ==> IdChar(c)
  {
    IdAfter(CompanyIdPrefix, line)
  }

  /** The company URL a snapshot line yields, if any: a non-empty id of lower-case letters and digits after the company page. */
  function UrlOfLine(line: string): (r: Option<string>)
    ensures r.Some? <==> LinkCandidate(line) && CompanyId(line).Some?
    ensures r.Some? ==> |r.value| > |CompanyPage| && r.value[..|CompanyPage|] == CompanyPage
                        && (forall c :: c in r.value[|CompanyPage|..] ==> IdChar(c))
  {
    if !LinkCandidate(line) then None
    else
      match CompanyId(line)
      case None => None
      case Some(id) =>
        assert (CompanyPage + id)[|CompanyPage|..] == id;
        Some(CompanyPage + id)
  }

  /** The URL is read off the line itself: the company page prefix and the id stand there in that order. */
  lemma UrlInLine(line: string)
    requires UrlOfLine(line).Some?
    ensures Contains(line, UrlOfLine(line).value)
  {
    CaptureTailAfterLit(CompanyIdPrefix, LowerAlnum, line, CompanyPage);
  }

  /** "/url:", spaces, the company page and one id character make the link pattern match. */
  lemma CompanyIdFound(line: string, i: nat, spaces: nat)
    requires i + 5 + spaces + |CompanyPage| < |line|
    requires OccursAt(line, "/url:", i)
    requires forall x :: i + 5 <= x < i + 5 + spaces ==> IsSpace(line[x])
    requires OccursAt(line, CompanyPage, i + 5 + spaces)
    requires IdChar(line[i + 5 + spaces + |CompanyPage|])
    ensures CompanyId(line).Some?
  {
    var p := CompanyIdPattern;
    var a := i + 5 + spaces;
    var e := a + |CompanyPage|;
    var b := [i + 5, a, e, e + 1];
    assert Spells(p, line, i, b) by {
      forall k | 0 <= k < 4 ensures Fits(p[k], line, Prev(i, b, k), b[k]) {
        if k == 0 {
          FitsLit("/url:", line, i);
        } else if k == 1 {
          FitsRep(Space, 0, Unbounded, false, line, i + 5, a);
        } else if k == 2 {
          FitsLit(CompanyPage, line, a);
        } else {
          FitsRep(LowerAlnum, 1, Unbounded, false, line, e, e + 1);
        }
      }
      SpellsAll(p, line, i, b);
    }
    CaptureTailFound(CompanyIdPrefix, LowerAlnum, line, i, b);
  }

  /** The first value f yields on the lines from k on. */
  function FirstFrom<T>(lines: seq<string>, k: nat, f: string -> Option<T>): (r: Option<T>)
    decreases |lines| - k
    ensures r.Some? ==> exists j :: k <= j < |lines| && f(lines[j]) == r
                                  && (forall m :: k <= m < j ==> f(lines[m]).None?)
    ensures r.None? ==> forall j :: k <= j < |lines| ==> f(lines[j]).None?
  {
    if k >= |lines| then None
    else if f(lines[k]).Some? then f(lines[k])
    else FirstFrom(lines, k + 1, f)
  }

  /** The URL a search-page snapshot yields: that of its first line yielding one. */
  function UrlOfSnapshot(out: string): Option<string>
  {
    FirstFrom(Split(out, '\n'), 0, UrlOfLine)
  }

  /** The line scan: return at the first line that yields a URL. */
  method ScanCompanyUrl(lines: seq<string>) returns (url: Option<string>)
    ensures url == FirstFrom(lines, 0, UrlOfLine)
  {
    var k := 0;
    while k < |lines|
      invariant k <= |lines|
      invariant FirstFrom(lines, 0, UrlOfLine) == FirstFrom(lines, k, UrlOfLine)
    {
      var u := UrlOfLine(lines[k]);
      if u.Some? {
        return u;
      }
      k := k + 1;
    }
    return None;
  }

  // ---------------------------------------------------------------- extract_contact

  /** paragraph:\s*(.+) */
  const ParagraphPattern: seq<Atom> := [Lit("paragraph:"), Star(Space), Plus(Not(Chars("\n")))]

  /** The stripped text after "paragraph:" on a line, if any. */
  function ParagraphValue(line: string): Option<string>
  {
    match Capture(ParagraphPattern, line, 2)
    case None => None
    case Some(v) => Some(Strip(v))
  }

  lemma ParagraphFacts(s: string, j: nat, b: seq<nat>)
    requires AllFit(ParagraphPattern, s, j, b)
    ensures j + 10 < |s| && OccursAt(s, "paragraph:", j)
  {
    var p := ParagraphPattern;
    LitAt(p, s, j, b, 0, "paragraph:");
    RepAt(p, s, j, b, 1);
    RepAt(p, s, j, b, 2);
  }

  lemma ParagraphSpells(s: string, i: nat)
    requires i + 10 < |s| && OccursAt(s, "paragraph:", i) && s[i + 10] != '\n'
    ensures Spells(ParagraphPattern, s, i, [i + 10, i + 10, i + 11])
  {
    var p := ParagraphPattern;
    var b := [i + 10, i + 10, i + 11];
    forall k | 0 <= k < 3 ensures Fits(p[k], s, Prev(i, b, k), b[k]) {
      if k == 0 {
        FitsLit("paragraph:", s, i);
      } else if k == 1 {
        FitsRep(Space, 0, Unbounded, false, s, i + 10, i + 10);
      } else {
        FitsRep(Not(Chars("\n")), 1, Unbounded, false, s, i + 10, i + 11);
      }
    }
    SpellsAll(p, s, i, b);
  }

  /** On a line without newlines, a value is read exactly when "paragraph:" occurs before the last character. */
  lemma ParagraphValueIff(line: string)
    requires '\n' !in line
    ensures ParagraphValue(line).Some? <==> exists i :: 0 <= i && i + 10 < |line| && OccursAt(line, "paragraph:", i)
  {
    var p := ParagraphPattern;
    if Found(p, line) {
      var h := Search(p, line, 0).value;
      assert h.start + 10 < |line| && OccursAt(line, "paragraph:", h.start) by {
        FoundFits(p, line);
        ParagraphFacts(line, h.start, h.ends);
      }
    }
    if exists i :: 0 <= i && i + 10 < |line| && OccursAt(line, "paragraph:", i) {
      var i :| 0 <= i && i + 10 < |line| && OccursAt(line, "paragraph:", i);
      assert line[i + 10] in line;
      ParagraphSpells(line, i);
      FoundOfSpells(p, line, i, [i + 10, i + 10, i + 11]);
    }
  }

  predicate PhoneHeading(line: string)
  {
    Contains(line, "heading \"電話\"")
  }

  predicate EmailHeading(line: string)
  {
    Contains(line, "heading \"Email\"") || Contains(line, "heading \"E-mail\"")
  }

  datatype Contact = Contact(phone: Option<string>, email: Option<string>)

  const NoContact := Contact(None, None)

  /** Line i passes the phone test and the next line has a value. */
  predicate PhoneSlot(lines: seq<string>, i: nat, phoneHd: string -> bool, value: string -> Option<string>)
  {
    i + 1 < |lines| && phoneHd(lines[i]) && value(lines[i + 1]).Some?
  }

  /** Line i passes the e-mail test but not the phone test, and the next line has a value. */
  predicate EmailSlot(lines: seq<string>, i: nat, phoneHd: string -> bool, emailHd: string -> bool, value: string -> Option<string>)
  {
    i + 1 < |lines| && !phoneHd(lines[i]) && emailHd(lines[i]) && value(lines[i + 1]).Some?
  }

  /** What the heading scan has found after the first n lines. */
  function ScanUpTo(lines: seq<string>, n: nat, phoneHd: string -> bool, emailHd: string -> bool, value: string -> Option<string>): Contact
    requires n <= |lines|
  {
    if n == 0 then NoContact
    else
      var c := ScanUpTo(lines, n - 1, phoneHd, emailHd, value);
      var i := n - 1;
      if phoneHd(lines[i]) && i + 1 < |lines| then
        match value(lines[i + 1])
        case Some(v) => c.(phone := Some(v))
        case None => c
      else if emailHd(lines[i]) && i + 1 < |lines| then
        match value(lines[i + 1])
        case Some(v) => c.(email := Some(v))
        case None => c
      else c
  }

  /** The phone found is the value under the last phone heading that has one, and absent when there is none. */
  lemma {:induction false} ScanPhoneIsLast(lines: seq<string>, n: nat, phoneHd: string -> bool, emailHd: string -> bool, value: string -> Option<string>)
    requires n <= |lines|
    ensures var r := ScanUpTo(lines, n, phoneHd, emailHd, value);
      (r.phone.None? <==> forall i :: 0 <= i < n ==> !PhoneSlot(lines, i, phoneHd, value))
      && (r.phone.Some? ==> exists i :: 0 <= i < n && PhoneSlot(lines, i, phoneHd, value) && r.phone == value(lines[i + 1])
                                        && (forall j :: i < j < n ==> !PhoneSlot(lines, j, phoneHd, value)))
  {
    if n > 0 {
      ScanPhoneIsLast(lines, n - 1, phoneHd, emailHd, value);
      var c := ScanUpTo(lines, n - 1, phoneHd, emailHd, value);
      var i := n - 1;
      if !PhoneSlot(lines, i, phoneHd, value) && c.phone.Some? {
        var w :| 0 <= w < n - 1 && PhoneSlot(lines, w, phoneHd, value) && c.phone == value(lines[w + 1])
                 && (forall j :: w < j < n - 1 ==> !PhoneSlot(lines, j, phoneHd, value));
        assert forall j :: w < j < n ==> !PhoneSlot(lines, j, phoneHd, value);
      }
    }
  }

  /** The e-mail likewise, under the last e-mail heading that is not also a phone heading. */
  lemma {:induction false} ScanEmailIsLast(lines: seq<string>, n: nat, phoneHd: string -> bool, emailHd: string -> bool, value: string -> Option<string>)
    requires n <= |lines|
    ensures var r := ScanUpTo(lines, n, phoneHd, emailHd, value);
      (r.email.None? <==> forall i :: 0 <= i < n ==> !EmailSlot(lines, i, phoneHd, emailHd, value))
      && (r.email.Some? ==> exists i :: 0 <= i < n && EmailSlot(lines, i, phoneHd, emailHd, value) && r.email == value(lines[i + 1])
                                        && (forall j :: i < j < n ==> !EmailSlot(lines, j, phoneHd, emailHd, value)))
  {
    if n > 0 {
      ScanEmailIsLast(lines, n - 1, phoneHd, emailHd, value);
      var c := ScanUpTo(lines, n - 1, phoneHd, emailHd, value);
      var i := n - 1;
      if !EmailSlot(lines, i, phoneHd, emailHd, value) && c.email.Some? {
        var w :| 0 <= w < n - 1 && EmailSlot(lines, w, phoneHd, emailHd, value) && c.email == value(lines[w + 1])
                 && (forall j :: w < j < n - 1 ==> !EmailSlot(lines, j, phoneHd, emailHd, value));
        assert forall j :: w < j < n ==> !EmailSlot(lines, j, phoneHd, emailHd, value);
      }
    }
  }

  /** The contact of a whole page: the phone under the last "電話" heading with a paragraph value, the e-mail under the
      last "Email"/"E-mail" heading with one. */
  function ContactOfLines(lines: seq<string>): Contact
  {
    ScanUpTo(lines, |lines|, PhoneHeading, EmailHeading, ParagraphValue)
  }

  /** The contact a company-page snapshot yields. */
  function ContactOfSnapshot(out: string): Contact
  {
    ContactOfLines(Split(out, '\n'))
  }

  /** The heading scan; a later heading overwrites an earlier value. */
  method ScanContact(lines: seq<string>) returns (c: Contact)
    ensures c == ContactOfLines(lines)
  {
    var phone: Option<string> := None;
    var email: Option<string> := None;
    for i := 0 to |lines|
      invariant Contact(phone, email) == ScanUpTo(lines, i, PhoneHeading, EmailHeading, ParagraphValue)
    {
      if PhoneHeading(lines[i]) && i + 1 < |lines| {
        var v := ParagraphValue(lines[i + 1]);
        if v.Some? {
          phone := v;
        }
      } else if EmailHeading(lines[i]) && i + 1 < |lines| {
        var v := ParagraphValue(lines[i + 1]);
        if v.Some? {
          email := v;
        }
      }
    }
    c := Contact(phone, email);
  }

  // ---------------------------------------------------------------- retry by recursion

  /** Attempt `retry` either yields a snapshot or raises (None); on a raise the call recurses while retry < maxRetries. */
  function Retried<T>(runs: nat -> Option<string>, maxRetries: int, retry: nat, scan: string -> T, giveUp: T): T
    decreases if maxRetries > retry then maxRetries - retry else 0
  {
    match runs(retry)
    case Some(out) => scan(out)
    case None => if retry < maxRetries then Retried(runs, maxRetries, retry + 1, scan, giveUp) else giveUp
  }

  /** How many attempts a call starting at `retry` makes: every one before the last raised, and the last either
      returned or was attempt maxRetries (or later). */
  function AttemptsUsed(runs: nat -> Option<string>, maxRetries: int, retry: nat): (r: nat)
    decreases if maxRetries > retry then maxRetries - retry else 0
    ensures 1 <= r && retry + r - 1 <= (if maxRetries > retry then maxRetries else retry)
    ensures forall j :: retry <= j < retry + r - 1 ==> runs(j).None?
    ensures runs(retry + r - 1).Some? || retry + r - 1 >= maxRetries
  {
    if runs(retry).Some? || retry >= maxRetries then 1 else 1 + AttemptsUsed(runs, maxRetries, retry + 1)
  }

  /** The result is the scan of the last attempt's snapshot, or the give-up value when that attempt raised too. */
  lemma {:induction false} RetriedIsLastAttempt<T>(runs: nat -> Option<string>, maxRetries: int, retry: nat, scan: string -> T, giveUp: T)
    decreases if maxRetries > retry then maxRetries - retry else 0
    ensures var last := retry + AttemptsUsed(runs, maxRetries, retry) - 1;
      Retried(runs, maxRetries, retry, scan, giveUp) == (if runs(last).Some? then scan(runs(last).value) else giveUp)
  {
    var n := AttemptsUsed(runs, maxRetries, retry);
    if runs(retry).Some? || retry >= maxRetries {
      assert n == 1;
      assert retry + n - 1 == retry;
    } else {
      var m := AttemptsUsed(runs, maxRetries, retry + 1);
      assert n == 1 + m;
      assert retry + n - 1 == retry + 1 + m - 1;
      assert Retried(runs, maxRetries, retry, scan, giveUp) == Retried(runs, maxRetries, retry + 1, scan, giveUp);
      RetriedIsLastAttempt(runs, maxRetries, retry + 1, scan, giveUp);
    }
  }

  /** search_104_company: on a raise, retry with retry + 1 until max_retries, then give up with None. */
  method Search104Company(runs: nat -> Option<string>, maxRetries: int, retry: nat) returns (url: Option<string>)
    decreases if maxRetries > retry then maxRetries - retry else 0
    ensures url == Retried(runs, maxRetries, retry, UrlOfSnapshot, None)
  {
    match runs(retry)
    case Some(out) =>
      url := ScanCompanyUrl(Split(out, '\n'));
    case None =>
      if retry < maxRetries {
        url := Search104Company(runs, maxRetries, retry + 1);
      } else {
        url := None;
      }
  }

  /** extract_contact: the same retry scheme, giving up with no phone and no e-mail. */
  method ExtractContact(runs: nat -> Option<string>, maxRetries: int, retry: nat) returns (c: Contact)
    decreases if maxRetries > retry then maxRetries - retry else 0
    ensures c == Retried(runs, maxRetries, retry, ContactOfSnapshot, NoContact)
  {
    match runs(retry)
    case Some(out) =>
      c := ScanContact(Split(out, '\n'));
    case None =>
      if retry < maxRetries {
        c := ExtractContact(runs, maxRetries, retry + 1);
      } else {
        c := NoContact;
      }
  }

  /** A property of every scan result and of the give-up value holds of the retried result. */
  lemma {:induction false} RetriedKeeps<T>(runs: nat -> Option<string>, maxRetries: int, retry: nat, scan: string -> T, giveUp: T,
                                           P: T -> bool)
    requires P(giveUp) && forall s :: P(scan(s))
    decreases if maxRetries > retry then maxRetries - retry else 0
    ensures P(Retried(runs, maxRetries, retry, scan, giveUp))
  {
    if runs(retry).None? && retry < maxRetries {
      RetriedKeeps(runs, maxRetries, retry + 1, scan, giveUp, P);
    }
  }

  /** A property of None and of every line's result holds of the first result. */
  lemma {:induction false} FirstFromKeeps<T>(lines: seq<string>, k: nat, f: string -> Option<T>, P: Option<T> -> bool)
    requires P(None) && forall line :: P(f(line))
    decreases |lines| - k
    ensures P(FirstFrom(lines, k, f))
  {
    if k < |lines| && f(lines[k]).None? {
      FirstFromKeeps(lines, k + 1, f, P);
    }
  }

  /** A retried scan gives nothing exactly when every attempt made raised or scanned to nothing. */
  lemma RetriedNoneIff<T>(runs: nat -> Option<string>, maxRetries: int, scan: string -> Option<T>)
    ensures Retried(runs, maxRetries, 0, scan, None).None? <==>
      forall j :: 0 <= j < AttemptsUsed(runs, maxRetries, 0) ==> runs(j).None? || scan(runs(j).value).None?
  {
    RetriedIsLastAttempt(runs, maxRetries, 0, scan, None);
  }

  /** A search that finds a page yields a URL that is never empty, so the truthiness test on it only rules out None. */
  lemma SearchUrlNonEmpty(runs: nat -> Option<string>, maxRetries: int)
    requires Retried(runs, maxRetries, 0, UrlOfSnapshot, None).Some?
    ensures |Retried(runs, maxRetries, 0, UrlOfSnapshot, None).value| > |CompanyPage|
  {
    var P := (o: Option<string>) => o.Some? ==> |o.value| > |CompanyPage|;
    forall out
      ensures P(UrlOfSnapshot(out))
    {
      forall line
        ensures P(UrlOfLine(line))
      {
      }
      FirstFromKeeps(Split(out, '\n'), 0, UrlOfLine, P);
    }
    RetriedKeeps(runs, maxRetries, 0, UrlOfSnapshot, None, P);
  }

  // ---------------------------------------------------------------- process_company

  /** One entry of the input list: sheet row, company name and the current phone and e-mail cells ("" when absent). */
  datatype Company = Company(row: int, name: string, phone: string, email: string)

  /** What the outside world does for one company: search-page attempts, company-page attempts, the sheet update. */
  datatype Fetches = Fetches(search: nat -> Option<string>, contact: nat -> Option<string>, sheetOk: bool)

  /** The phone to write: the scraped one when it validates, else the current cell (its "待查" branch keeps "待查" too). */
  function PhoneToWrite(scraped: Option<string>, current: string): (r: string)
    ensures r == (if ValidatePhone(scraped) then scraped.value else current)
    ensures r != current ==> HasPhoneRun(r)
  {
    ValidatePhoneIff(scraped);
    if ValidatePhone(scraped) then scraped.value else if current != "待查" then current else "待查"
  }

  /** The e-mail to write, chosen the same way. */
  function EmailToWrite(scraped: Option<string>, current: string): (r: string)
    ensures r == (if ValidateEmail(scraped) then scraped.value else current)
    ensures r != current ==> Validator.WholeOrBeforeNewline(r, Validator.EmailShape)
  {
    ValidateEmailIff(scraped);
    if ValidateEmail(scraped) then scraped.value else if current != "待查" then current else "待查"
  }

  /** The phone and e-mail cells process_company writes, or None when no company page is found. */
  function CellsToWrite(c: Company, f: Fetches, maxRetries: int): Option<(string, string)>
  {
    match Retried(f.search, maxRetries, 0, UrlOfSnapshot, None)
    case None => None
    case Some(_) =>
      var contact := Retried(f.contact, maxRetries, 0, ContactOfSnapshot, NoContact);
      Some((PhoneToWrite(contact.phone, c.phone), EmailToWrite(contact.email, c.email)))
  }

  predicate ProcessSucceeds(c: Company, f: Fetches, maxRetries: int)
  {
    CellsToWrite(c, f, maxRetries).Some? && f.sheetOk
  }

  /** Search, extract, choose the values, write the row; true exactly when a page was found and the write went through. */
  method ProcessCompany(c: Company, f: Fetches, maxRetries: int) returns (success: bool, cells: Option<(string, string)>)
    ensures cells == CellsToWrite(c, f, maxRetries)
    ensures success <==> cells.Some? && f.sheetOk
  {
    var url := Search104Company(f.search, maxRetries, 0);
    if url.None? {
      return false, None;
    }
    var contact := ExtractContact(f.contact, maxRetries, 0);
    var phone := PhoneToWrite(contact.phone, c.phone);
    var email := EmailToWrite(contact.email, c.email);
    cells := Some((phone, email));
    success := f.sheetOk;
  }

  /** Nothing is written without a company page, and a found page writes scraped values only where they validate. */
  lemma CellsSource(c: Company, f: Fetches, maxRetries: int)
    ensures CellsToWrite(c, f, maxRetries).None? <==> forall j :: 0 <= j < AttemptsUsed(f.search, maxRetries, 0) ==>
      f.search(j).None? || UrlOfSnapshot(f.search(j).value).None?
    ensures CellsToWrite(c, f, maxRetries).Some? ==>
      var cells := CellsToWrite(c, f, maxRetries).value;
      (cells.0 == c.phone || HasPhoneRun(cells.0)) && (cells.1 == c.email || Validator.WholeOrBeforeNewline(cells.1, Validator.EmailShape))
  {
    RetriedNoneIff(f.search, maxRetries, UrlOfSnapshot);
  }

  // ---------------------------------------------------------------- progress and the run loop

  /** progress.json: rows processed, failed and succeeded, counters, start and last-save stamps. */
  datatype Progress = Progress(
    processed: seq<int>,
    failed: seq<int>,
    success: seq<int>,
    lastPosition: int,
    totalProcessed: int,
    totalSuccess: int,
    totalFailed: int,
    startedAt: int,
    lastUpdated: Option<int>)

  /** The counters agree with each other and with the three lists. */
  predicate Balanced(p: Progress)
  {
    p.totalProcessed == p.totalSuccess + p.totalFailed
    && p.totalProcessed == |p.processed| && p.totalSuccess == |p.success| && p.totalFailed == |p.failed|
  }

  predicate Distinct(rows: seq<int>)
  {
    forall a, b :: 0 <= a < b < |rows| ==> rows[a] != rows[b]
  }

  /** The record of a first run. */
  function FreshProgress(now: int): (r: Progress)
    ensures Balanced(r) && Distinct(r.processed) && r.totalProcessed == 0 && r.lastUpdated.None?
  {
    Progress([], [], [], 0, 0, 0, 0, now, None)
  }

  /** A normal iteration: the row is processed and counted as a success or a failure. */
  function Recorded(p: Progress, row: int, success: bool): Progress
  {
    var q := p.(processed := p.processed + [row], totalProcessed := p.totalProcessed + 1);
    if success then q.(success := q.success + [row], totalSuccess := q.totalSuccess + 1)
    else q.(failed := q.failed + [row], totalFailed := q.totalFailed + 1)
  }

  /** The generic exception path: a failure without the row being processed. */
  function FailedByError(p: Progress, row: int): Progress
  {
    p.(failed := p.failed + [row], totalFailed := p.totalFailed + 1)
  }

  /** success_rate of a report: a fraction, 0 before anything is processed. */
  function Rate(p: Progress): real
  {
    if p.totalProcessed > 0 then p.totalSuccess as real / p.totalProcessed as real else 0.0
  }

  /** The auto-pause test at a report boundary. */
  predicate PauseDue(p: Progress, failRate: real)
  {
    p.totalProcessed >= 5 && Rate(p) < 1.0 - failRate
  }

  lemma ScaleKeepsOrder(x: real, y: real, n: real)
    requires n > 0.0
    ensures x < y <==> x * n < y * n
  {
    assert y * n - x * n == (y - x) * n;
    if x < y {
      assert (y - x) * n > 0.0;
    } else {
      assert (x - y) * n >= 0.0;
    }
  }

  /** With balanced counters the test fires exactly when more than failRate of the processed rows failed. */
  lemma PauseMeansFailureRate(p: Progress, failRate: real)
    requires Balanced(p) && p.totalProcessed >= 5
    ensures PauseDue(p, failRate) <==> p.totalFailed as real > failRate * p.totalProcessed as real
  {
    var n := p.totalProcessed as real;
    var s := p.totalSuccess as real;
    assert n > 0.0;
    assert Rate(p) == s / n;
    assert Rate(p) * n == s;
    ScaleKeepsOrder(Rate(p), 1.0 - failRate, n);
    assert (1.0 - failRate) * n == n - failRate * n;
    assert p.totalFailed as real == n - s;
  }

  /** config.json: the settings the run loop reads. */
  datatype Config = Config(maxRetries: int, saveInterval: int, batchReportSize: int, autoPauseFailRate: real)

  /** How processing a company ends: normally, with an exception, or with a keyboard interrupt. */
  datatype Escape = Proceeds | Raises | Interrupted

  /** Per position i (1-based): the outside world for that company, how it ends, and the clock at its save points. */
  datatype Env = Env(fetches: nat -> Fetches, escape: nat -> Escape, clock: nat -> int)

  datatype Control = Continue | Pause | Exit

  /** What follows the recording of a row: the periodic save and, at a report boundary, the auto-pause test. Python
      evaluates i % 0 inside the try, so a zero interval sends the row down the exception path after it was recorded. */
  function Settle(p1: Progress, row: int, i: nat, env: Env, cfg: Config): (Progress, Control)
  {
    if cfg.saveInterval == 0 then (FailedByError(p1, row), Continue)
    else
      var p2 := if i % cfg.saveInterval == 0 then p1.(lastUpdated := Some(env.clock(i))) else p1;
      if cfg.batchReportSize == 0 then (FailedByError(p2, row), Continue)
      else if i % cfg.batchReportSize == 0 && PauseDue(p2, cfg.autoPauseFailRate) then (p2, Pause)
      else (p2, Continue)
  }

  /** One iteration of run for the company at position i (1-based). */
  function Step(p: Progress, c: Company, i: nat, env: Env, cfg: Config): (Progress, Control)
  {
    if c.row in p.processed then (p, Continue)
    else
      match env.escape(i)
      case Interrupted => (p.(lastUpdated := Some(env.clock(i))), Exit)
      case Raises => (FailedByError(p, c.row), Continue)
      case Proceeds => Settle(Recorded(p, c.row, ProcessSucceeds(c, env.fetches(i), cfg.maxRetries)), c.row, i, env, cfg)
  }

  /** The loop from the company at index k on: it ends at the end of the list, at an auto-pause or at an interrupt. */
  function RunFrom(p: Progress, cs: seq<Company>, k: nat, env: Env, cfg: Config): (Progress, Control)
    decreases |cs| - k
  {
    if k >= |cs| then (p, Continue)
    else
      var (q, ctl) := Step(p, cs[k], k + 1, env, cfg);
      if ctl == Continue then RunFrom(q, cs, k + 1, env, cfg) else (q, ctl)
  }

  /** What one iteration does to the record. */
  lemma StepEffect(p: Progress, c: Company, i: nat, env: Env, cfg: Config)
    ensures var (q, ctl) := Step(p, c, i, env, cfg);
      (c.row in p.processed ==> q == p && ctl == Continue)
      && (c.row !in p.processed && env.escape(i) == Raises ==>
            q.processed == p.processed && q.failed == p.failed + [c.row] && q.success == p.success
            && q.totalProcessed == p.totalProcessed && q.totalFailed == p.totalFailed + 1
            && c.row !in q.processed && (Balanced(p) ==> !Balanced(q)))
      && (c.row !in p.processed && env.escape(i) == Proceeds && cfg.saveInterval != 0 && cfg.batchReportSize != 0 ==>
            var ok := ProcessSucceeds(c, env.fetches(i), cfg.maxRetries);
            q.processed == p.processed + [c.row] && q.totalProcessed == p.totalProcessed + 1
            && (ok ==> q.success == p.success + [c.row] && q.failed == p.failed && q.totalSuccess == p.totalSuccess + 1)
            && (!ok ==> q.failed == p.failed + [c.row] && q.success == p.success && q.totalFailed == p.totalFailed + 1)
            && (Balanced(p) ==> Balanced(q)))
      && (ctl == Pause <==> (c.row !in p.processed && env.escape(i) == Proceeds && cfg.saveInterval != 0
            && cfg.batchReportSize != 0 && i % cfg.batchReportSize == 0 && PauseDue(q, cfg.autoPauseFailRate)))
      && (ctl == Exit <==> c.row !in p.processed && env.escape(i) == Interrupted)
  {
  }

  /** No exception escaping and non-zero intervals: the counters stay balanced over a whole run. */
  lemma {:induction false} RunKeepsBalance(p: Progress, cs: seq<Company>, k: nat, env: Env, cfg: Config)
    requires Balanced(p) && cfg.saveInterval != 0 && cfg.batchReportSize != 0
    requires forall i :: k < i <= |cs| ==> env.escape(i) != Raises
    decreases |cs| - k
    ensures Balanced(RunFrom(p, cs, k, env, cfg).0)
  {
    if k < |cs| {
      StepEffect(p, cs[k], k + 1, env, cfg);
      var (q, ctl) := Step(p, cs[k], k + 1, env, cfg);
      if ctl == Continue {
        RunKeepsBalance(q, cs, k + 1, env, cfg);
      }
    }
  }

  /** A row is never processed twice: the processed list only grows, and without repeats when it had none. */
  lemma {:induction false} RunProcessesOnce(p: Progress, cs: seq<Company>, k: nat, env: Env, cfg: Config)
    decreases |cs| - k
    ensures var r := RunFrom(p, cs, k, env, cfg).0;
      |p.processed| <= |r.processed| && r.processed[..|p.processed|] == p.processed
      && (Distinct(p.processed) ==> Distinct(r.processed))
  {
    if k < |cs| {
      var (q, ctl) := Step(p, cs[k], k + 1, env, cfg);
      assert q.processed == p.processed || (q.processed == p.processed + [cs[k].row] && cs[k].row !in p.processed) by {
        StepEffect(p, cs[k], k + 1, env, cfg);
      }
      if ctl == Continue {
        RunProcessesOnce(q, cs, k + 1, env, cfg);
        var r := RunFrom(q, cs, k + 1, env, cfg).0;
        assert r.processed[..|p.processed|] == r.processed[..|q.processed|][..|p.processed|];
      }
    }
  }

  /** The scraper object: its configuration, the progress record in memory and what progress.json holds. */
  class StableScraper {
    const config: Config
    var progress: Progress
    var file: Option<Progress>

    /** Loads progress.json, or starts a fresh record when there is none. */
    constructor (config: Config, stored: Option<Progress>, now: int)
      ensures this.config == config && file == stored
      ensures progress == if stored.Some? then stored.value else FreshProgress(now)
    {
      this.config := config;
      file := stored;
      progress := if stored.Some? then stored.value else FreshProgress(now);
    }

    /** Stamps last_updated and writes the record out. */
    method SaveProgress(now: int)
      modifies this
      ensures progress == old(progress).(lastUpdated := Some(now)) && file == Some(progress)
    {
      progress := progress.(lastUpdated := Some(now));
      file := Some(progress);
    }

    /** Counts a processed row as a success or a failure. */
    method RecordOutcome(row: int, success: bool)
      modifies this
      ensures progress == Recorded(old(progress), row, success) && file == old(file)
    {
      progress := progress.(processed := progress.processed + [row], totalProcessed := progress.totalProcessed + 1);
      if success {
        progress := progress.(success := progress.success + [row], totalSuccess := progress.totalSuccess + 1);
      } else {
        progress := progress.(failed := progress.failed + [row], totalFailed := progress.totalFailed + 1);
      }
    }

    /** The except branch: the row failed but stays unprocessed. */
    method RecordError(row: int)
      modifies this
      ensures progress == FailedByError(old(progress), row) && file == old(file)
    {
      progress := progress.(failed := progress.failed + [row], totalFailed := progress.totalFailed + 1);
    }

    /** The save and report steps after a row was recorded. */
    method SettleAt(row: int, i: nat, env: Env) returns (ctl: Control)
      modifies this
      ensures (progress, ctl) == Settle(old(progress), row, i, env, config)
    {
      ctl := Continue;
      if config.saveInterval == 0 {
        RecordError(row);
        return;
      }
      if i % config.saveInterval == 0 {
        SaveProgress(env.clock(i));
      }
      if config.batchReportSize == 0 {
        RecordError(row);
      } else if i % config.batchReportSize == 0 {
        var rate := if progress.totalProcessed > 0 then progress.totalSuccess as real / progress.totalProcessed as real else 0.0;
        if progress.totalProcessed >= 5 && rate < 1.0 - config.autoPauseFailRate {
          ctl := Pause;
        }
      }
    }

    /** The body of the loop for one company not yet processed; an interrupt saves before leaving. */
    method ProcessAt(company: Company, i: nat, env: Env) returns (ctl: Control)
      requires company.row !in progress.processed
      modifies this
      ensures (progress, ctl) == Step(old(progress), company, i, env, config)
      ensures ctl == Exit ==> file == Some(progress)
    {
      match env.escape(i) {
        case Interrupted =>
          SaveProgress(env.clock(i));
          ctl := Exit;
        case Raises =>
          RecordError(company.row);
          ctl := Continue;
        case Proceeds =>
          var success, _ := ProcessCompany(company, env.fetches(i), config.maxRetries);
          RecordOutcome(company.row, success);
          ctl := SettleAt(company.row, i, env);
      }
    }

    /** The run loop, then the final save (skipped after an interrupt, which saves and exits). */
    method Run(companies: seq<Company>, env: Env, endClock: int) returns (stop: Control)
      modifies this
      ensures stop == RunFrom(old(progress), companies, 0, env, config).1
      ensures stop == Exit ==> progress == RunFrom(old(progress), companies, 0, env, config).0
      ensures stop != Exit ==> progress == RunFrom(old(progress), companies, 0, env, config).0.(lastUpdated := Some(endClock))
      ensures file == Some(progress)
    {
      var k := 0;
      while k < |companies|
        invariant k <= |companies|
        invariant RunFrom(old(progress), companies, 0, env, config) == RunFrom(progress, companies, k, env, config)
      {
        if companies[k].row in progress.processed {
          k := k + 1;
          continue;
        }
        var ctl := ProcessAt(companies[k], k + 1, env);
        if ctl == Exit {
          return Exit;
        } else if ctl == Pause {
          SaveProgress(endClock);
          return Pause;
        }
        k := k + 1;
      }
      SaveProgress(endClock);
      stop := Continue;
    }
  }

  /** companies[:limit] in Python: a prefix, and a negative limit drops that many from the end. */
  function Limited(companies: seq<Company>, limit: int): (r: seq<Company>)
    ensures |r| <= |companies| && r == companies[..|r|]
    ensures limit >= 0 ==> |r| == if limit < |companies| then limit else |companies|
    ensures limit < 0 ==> |r| == if |companies| + limit > 0 then |companies| + limit else 0
  {
    var n := if limit >= 0 then limit else |companies| + limit;
    var m := if n < 0 then 0 else if n > |companies| then |companies| else n;
    companies[..m]
  }
}
