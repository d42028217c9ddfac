// Company contact scraping (skills/headhunter/scripts/scraper-company-contact.py): the company id
// read off a 104 job URL, the scan of a job page's accessibility refs that keeps the first
// phone-like and e-mail-like names and the last company and website links, the crawl of up to
// five pages of the company's own site, and the merge of all of it into the company record.
// Browser snapshots are parameters: `pageOf` gives the refs of a job page (None when its JSON
// cannot be parsed) and `fetch` the text of a website page (None when the attempt raised).
module CompanyContact {
  import opened Wrappers
  import opened Text
  import opened Seqs
  import opened Pattern

  // ---------------------------------------------------------------- company id

  /** /job/([a-z0-9]+) */
  const JobPrefix: seq<Atom> := [Lit("/job/")]

  /** The id after "/job/" in a job URL: a non-empty run of lower-case letters and digits, or None. */
  function CompanyIdFromUrl(url: string): (r: Option<string>)
    ensures r.Some? ==> r.value != [] && forall c :: c in r.value ==> IsLower(c) || IsDigit(c)
    ensures r.Some? <==> Found(JobPrefix + [Plus(LowerAlnum)], url)
    ensures r.Some? ==> exists i :: FirstGroupText(JobPrefix + [Plus(LowerAlnum)], url, i, 1, r.value)
  {
    var r := CaptureTail(JobPrefix, LowerAlnum, url);
    assert r.Some? ==> forall c :: c in r.value ==> IsLower(c) || IsDigit(c) by {
      if r.Some? {
        forall c | c in r.value ensures IsLower(c) || IsDigit(c) { assert In(c, LowerAlnum); }
      }
    }
    r
  }

  /** The id is read off the URL right after "/job/". */
  lemma CompanyIdAfterJob(url: string)
    requires CompanyIdFromUrl(url).Some?
    ensures Contains(url, "/job/" + CompanyIdFromUrl(url).value)
  {
    CaptureTailAfterLit(JobPrefix, LowerAlnum, url, "/job/");
  }

  /** "/job/" followed by a lower-case letter or digit anywhere in the URL yields an id. */
  lemma CompanyIdFound(url: string, i: nat)
    requires OccursAt(url, "/job/", i) && i + 5 < |url| && (IsLower(url[i + 5]) || IsDigit(url[i + 5]))
    ensures CompanyIdFromUrl(url).Some?
  {
    var p := JobPrefix + [Plus(LowerAlnum)];
    var b := [i + 5, i + 6];
    assert Spells(p, url, i, b) by {
      forall k | 0 <= k < 2 ensures Fits(p[k], url, Prev(i, b, k), b[k]) {
        if k == 0 {
          FitsLit("/job/", url, i);
        } else {
          FitsRep(LowerAlnum, 1, Unbounded, false, url, i + 5, i + 6);
        }
      }
      SpellsAll(p, url, i, b);
    }
    CaptureTailFound(JobPrefix, LowerAlnum, url, i, b);
  }

  // ---------------------------------------------------------------- the two searches

  const DashOrSpace: Class := Union(Chars("-"), Space)

  /** (\d{2,4}[-\s]?\d{3,4}[-\s]?\d{3,4}): the group spans the whole match. */
  const PhonePattern: seq<Atom> :=
    [Times(Digit, 2, 4), Opt(DashOrSpace), Times(Digit, 3, 4), Opt(DashOrSpace), Times(Digit, 3, 4)]

  const EmailChar: Class := Union(Word, Chars(".-"))

  /** [\w\.-]+@[\w\.-]+\.\w+ */
  const EmailPattern: seq<Atom> := [Plus(EmailChar), Lit("@"), Plus(EmailChar), Lit("."), Plus(Word)]

  /** The first phone-like text, or None: a piece of the text at least two characters long. */
  function PhoneOf(text: string): (r: Option<string>)
    ensures r.Some? <==> Found(PhonePattern, text)
    ensures r.Some? ==> Contains(text, r.value) && 2 <= |r.value|
    ensures r.Some? ==> exists i :: FirstMatchText(PhonePattern, text, i, r.value)
  {
    match Search(PhonePattern, text, 0)
    case None => None
    case Some(h) =>
      SearchIsFirst(PhonePattern, text);
      ChainEnd(text, h);
      assert OccursAt(text, Matched(text, h), h.start);
      SpellsFit(PhonePattern, text, h.start, h.ends);
      RepInMatched(PhonePattern, text, h, 0);
      Some(Matched(text, h))
  }

  /** The first e-mail-like text, or None: a piece of the text holding an '@'. */
  function EmailOf(text: string): (r: Option<string>)
    ensures r.Some? <==> Found(EmailPattern, text)
    ensures r.Some? ==> Contains(text, r.value) && Contains(r.value, "@")
    ensures r.Some? ==> exists i :: FirstMatchText(EmailPattern, text, i, r.value)
  {
    match Search(EmailPattern, text, 0)
    case None => None
    case Some(h) =>
      SearchIsFirst(EmailPattern, text);
      ChainEnd(text, h);
      assert OccursAt(text, Matched(text, h), h.start);
      SpellsFit(EmailPattern, text, h.start, h.ends);
      assert EmailPattern[1] == Lit("@");
      LitInMatched(EmailPattern, text, h, 1, "@");
      Some(Matched(text, h))
  }

  /** The phone and e-mail searches the scan and the crawl run, passed as values. */
  datatype Finders = Finders(phone: string -> Option<string>, email: string -> Option<string>)

  /** The script's own searches. */
  function Regexes(): Finders
  {
    Finders(s => PhoneOf(s), s => EmailOf(s))
  }

  /** Searches that never report an empty text. */
  ghost predicate NonBlank(f: Finders)
  {
    forall s :: (f.phone(s).Some? ==> f.phone(s).value != "") && (f.email(s).Some? ==> f.email(s).value != "")
  }

  lemma RegexesNonBlank()
    ensures NonBlank(Regexes())
  {
    forall s: string ensures EmailOf(s).Some? ==> EmailOf(s).value != "" {
      if EmailOf(s).Some? {
        var v := EmailOf(s).value;
        var i :| 0 <= i <= |v| - 1 && OccursAt(v, "@", i);
      }
    }
  }

  /** Python truthiness of an optional string: present and non-empty. */
  predicate Truthy(o: Option<string>)
  {
    o.Some? && o.value != ""
  }

  // ---------------------------------------------------------------- links on the job page

  /** A ref of the job page snapshot. */
  datatype Ref = Ref(name: string, role: string, href: string)

  const Site: string := "https://www.104.com.tw"

  /** The company page a ref links to, made absolute on the 104 site. */
  function CompanyLinkOf(r: Ref): (u: Option<string>)
    ensures u.Some? <==> r.role == "link" && Contains(r.href, "/company/")
    ensures u.Some? ==> StartsWith(u.value, "http") && EndsWith(u.value, r.href)
    ensures u.Some? && StartsWith(r.href, "http") ==> u.value == r.href
  {
    if r.role == "link" && Contains(r.href, "/company/") then
      var u := if StartsWith(r.href, "http") then r.href else Site + r.href;
      assert u[|u| - |r.href|..] == r.href;
      assert u[..4] == "http";
      Some(u)
    else None
  }

  predicate Labelled(name: string)
  {
    Contains(name, "公司網址") || Contains(name, "官方網站") || Contains(name, "官網")
  }

  /** The website a labelled ref links to, given https:// when it has no scheme; relative links are skipped. */
  function WebsiteOf(r: Ref): (u: Option<string>)
    ensures u.Some? <==> r.role == "link" && Labelled(r.name) && r.href != "" && !StartsWith(r.href, "/")
    ensures u.Some? ==> StartsWith(u.value, "http") && EndsWith(u.value, r.href) && u.value != ""
    ensures u.Some? && StartsWith(r.href, "http") ==> u.value == r.href
  {
    if r.role == "link" && Labelled(r.name) && r.href != "" && !StartsWith(r.href, "/") then
      var u := if StartsWith(r.href, "http") then r.href else "https://" + r.href;
      assert u[|u| - |r.href|..] == r.href;
      assert u[..4] == "http";
      Some(u)
    else None
  }

  // ---------------------------------------------------------------- the ref scan

  /** The company_info dict the scan fills. */
  datatype PageInfo = PageInfo(phone: Option<string>, email: Option<string>, website: Option<string>, companyUrl: Option<string>)

  /** One ref: phone and e-mail only while still unset, the two links whenever a ref qualifies. */
  function Absorb(info: PageInfo, r: Ref, f: Finders): PageInfo
  {
    PageInfo(
      if !Truthy(info.phone) && f.phone(r.name).Some? then f.phone(r.name) else info.phone,
      if !Truthy(info.email) && f.email(r.name).Some? then f.email(r.name) else info.email,
      if WebsiteOf(r).Some? then WebsiteOf(r) else info.website,
      if CompanyLinkOf(r).Some? then CompanyLinkOf(r) else info.companyUrl)
  }

  /** The state after scanning refs in order. */
  function Scan(refs: seq<Ref>, f: Finders): PageInfo
    decreases |refs|
  {
    if refs == [] then PageInfo(None, None, None, None)
    else Absorb(Scan(refs[..|refs| - 1], f), refs[|refs| - 1], f)
  }

  /** scrape_104_company_page: None when the snapshot cannot be parsed, else the scan of its refs. */
  method ScanCompanyPage(snapshot: Option<seq<Ref>>, f: Finders) returns (r: Option<PageInfo>)
    ensures snapshot.None? ==> r.None?
    ensures snapshot.Some? ==> r == Some(Scan(snapshot.value, f))
  {
    if snapshot.None? {
      return None;
    }
    var refs := snapshot.value;
    var phone: Option<string>, email: Option<string> := None, None;
    var website: Option<string>, companyUrl: Option<string> := None, None;
    var i := 0;
    while i < |refs|
      invariant 0 <= i <= |refs|
      invariant PageInfo(phone, email, website, companyUrl) == Scan(refs[..i], f)
    {
      var ref := refs[i];
      if !Truthy(phone) {
        var m := f.phone(ref.name);
        if m.Some? {
          phone := m;
        }
      }
      if !Truthy(email) {
        var m := f.email(ref.name);
        if m.Some? {
          email := m;
        }
      }
      if ref.role == "link" && Contains(ref.href, "/company/") {
        companyUrl := Some(if StartsWith(ref.href, "http") then ref.href else Site + ref.href);
      }
      if ref.role == "link" && Labelled(ref.name) {
        if ref.href != "" && !StartsWith(ref.href, "/") {
          website := Some(if StartsWith(ref.href, "http") then ref.href else "https://" + ref.href);
        }
      }
      assert refs[..i + 1][..i] == refs[..i];
      i := i + 1;
    }
    assert refs[..|refs|] == refs;
    return Some(PageInfo(phone, email, website, companyUrl));
  }

  function PhoneFinds(f: Finders): Ref -> Option<string> { (r: Ref) => f.phone(r.name) }
  function EmailFinds(f: Finders): Ref -> Option<string> { (r: Ref) => f.email(r.name) }

  /** Once the scan holds a phone, no later ref replaces it. */
  lemma {:induction false} PhoneNeverOverwritten(refs: seq<Ref>, f: Finders, i: nat)
    requires i <= |refs| && Truthy(Scan(refs[..i], f).phone)
    ensures Scan(refs, f).phone == Scan(refs[..i], f).phone
    decreases |refs| - i
  {
    if i < |refs| {
      var n := |refs| - 1;
      assert refs[..n][..i] == refs[..i];
      PhoneNeverOverwritten(refs[..n], f, i);
    } else {
      assert refs[..i] == refs;
    }
  }

  /** Once the scan holds an e-mail, no later ref replaces it. */
  lemma {:induction false} EmailNeverOverwritten(refs: seq<Ref>, f: Finders, i: nat)
    requires i <= |refs| && Truthy(Scan(refs[..i], f).email)
    ensures Scan(refs, f).email == Scan(refs[..i], f).email
    decreases |refs| - i
  {
    if i < |refs| {
      var n := |refs| - 1;
      assert refs[..n][..i] == refs[..i];
      EmailNeverOverwritten(refs[..n], f, i);
    } else {
      assert refs[..i] == refs;
    }
  }

  /** With searches that never report an empty text, the phone is that of the first ref whose name has one. */
  lemma {:induction false} ScanPhoneFirst(refs: seq<Ref>, f: Finders)
    requires NonBlank(f)
    ensures Scan(refs, f).phone == FirstSome(refs, PhoneFinds(f))
    decreases |refs|
  {
    if refs != [] {
      var n := |refs| - 1;
      ScanPhoneFirst(refs[..n], f);
      var before := FirstSome(refs[..n], PhoneFinds(f));
      assert before.Some? ==> before.value != "" by {
        if before.Some? {
          var k :| 0 <= k < n && PhoneFinds(f)(refs[..n][k]) == before;
          assert f.phone(refs[..n][k].name) == before;
        }
      }
    }
  }

  /** With searches that never report an empty text, the e-mail is that of the first ref whose name has one. */
  lemma {:induction false} ScanEmailFirst(refs: seq<Ref>, f: Finders)
    requires NonBlank(f)
    ensures Scan(refs, f).email == FirstSome(refs, EmailFinds(f))
    decreases |refs|
  {
    if refs != [] {
      var n := |refs| - 1;
      ScanEmailFirst(refs[..n], f);
      var before := FirstSome(refs[..n], EmailFinds(f));
      assert before.Some? ==> before.value != "" by {
        if before.Some? {
          var k :| 0 <= k < n && EmailFinds(f)(refs[..n][k]) == before;
          assert f.email(refs[..n][k].name) == before;
        }
      }
    }
  }

  /** company_url is the absolute form of the last company link. */
  lemma {:induction false} ScanCompanyUrlLast(refs: seq<Ref>, f: Finders)
    ensures Scan(refs, f).companyUrl == LastSome(refs, CompanyLinkOf)
    decreases |refs|
  {
    if refs != [] {
      ScanCompanyUrlLast(refs[..|refs| - 1], f);
    }
  }

  /** website is the last labelled, non-relative link, with a scheme. */
  lemma {:induction false} ScanWebsiteLast(refs: seq<Ref>, f: Finders)
    ensures Scan(refs, f).website == LastSome(refs, WebsiteOf)
    decreases |refs|
  {
    if refs != [] {
      ScanWebsiteLast(refs[..|refs| - 1], f);
    }
  }

  // ---------------------------------------------------------------- the website crawl

  /** rstrip: s without its trailing run of c. */
  function StripTrailing(s: string, c: char): (r: string)
    ensures |r| <= |s| && r == s[..|r|]
    ensures r == [] || r[|r| - 1] != c
    ensures forall k :: |r| <= k < |s| ==> s[k] == c
    decreases |s|
  {
    if s != [] && s[|s| - 1] == c then StripTrailing(s[..|s| - 1], c) else s
  }

  const ContactPaths: seq<string> := ["/contact", "/contact-us", "/about", "/about-us"]

  /** The pages tried, in order: the site itself, then each contact path under its slash-stripped form. */
  function ContactUrls(website: string): (r: seq<string>)
    ensures |r| == 5 && r[0] == website
    ensures forall k :: 1 <= k < 5 ==> r[k] == StripTrailing(website, '/') + ContactPaths[k - 1]
  {
    var base := StripTrailing(website, '/');
    [website] + seq(4, k requires 0 <= k < 4 => base + ContactPaths[k])
  }

  /** The five pages are five different URLs. */
  lemma ContactUrlsDistinct(website: string)
    ensures forall i, j :: 0 <= i < j < 5 ==> ContactUrls(website)[i] != ContactUrls(website)[j]
  {
  }

  datatype Contact = Contact(phone: Option<string>, email: Option<string>)

  predicate HasContact(c: Contact)
  {
    Truthy(c.phone) || Truthy(c.email)
  }

  /** The phone and e-mail of a fetched page, when fetching it did not raise. */
  function PageContact(page: Option<string>, f: Finders): Contact
  {
    if page.None? then Contact(None, None) else Contact(f.phone(page.value), f.email(page.value))
  }

  /** The contact of the first page, from urls on, that has a phone or an e-mail. */
  function FirstContact(urls: seq<string>, fetch: string -> Option<string>, f: Finders): (r: Contact)
    ensures HasContact(r) ==> exists k :: 0 <= k < |urls| && r == PageContact(fetch(urls[k]), f)
                                && forall j :: 0 <= j < k ==> !HasContact(PageContact(fetch(urls[j]), f))
    ensures !HasContact(r) ==> r == Contact(None, None)
                                 && forall k :: 0 <= k < |urls| ==> !HasContact(PageContact(fetch(urls[k]), f))
    decreases |urls|
  {
    if urls == [] then Contact(None, None)
    else
      var c := PageContact(fetch(urls[0]), f);
      if HasContact(c) then c
      else
        var rest := FirstContact(urls[1..], fetch, f);
        assert forall k :: 1 <= k < |urls| ==> urls[1..][k - 1] == urls[k];
        rest
  }

  /** scrape_company_website as a value: nothing for an empty URL, else the first page with a contact. */
  function WebsiteContact(website: string, fetch: string -> Option<string>, f: Finders): Contact
  {
    if website == "" then Contact(None, None) else FirstContact(ContactUrls(website), fetch, f)
  }

  /** scrape_company_website: try the pages in order, return at the first that has a phone or an e-mail. */
  method CrawlWebsite(website: string, fetch: string -> Option<string>, f: Finders) returns (r: Contact)
    ensures r == WebsiteContact(website, fetch, f)
  {
    if website == "" {
      return Contact(None, None);
    }
    var urls := ContactUrls(website);
    var i := 0;
    while i < |urls|
      invariant 0 <= i <= |urls|
      invariant FirstContact(urls[i..], fetch, f) == FirstContact(urls, fetch, f)
    {
      var page := fetch(urls[i]);
      if page.Some? {
        var phone := f.phone(page.value);
        var email := f.email(page.value);
        if Truthy(phone) || Truthy(email) {
          return Contact(phone, email);
        }
      }
      assert urls[i..][1..] == urls[i + 1..];
      i := i + 1;
    }
    return Contact(None, None);
  }

  // ---------------------------------------------------------------- the merged record

  /** A company record as read from the input JSON: field name to value. */
  type Record = map<string, string>

  const Pending: string := "待查"
  const Greeting: string := "您好"
  const Waiting: string := "待聯繫"

  /** `value or "待查"`. */
  function OrPending(o: Option<string>): (r: string)
    ensures r != ""
    ensures Truthy(o) ==> r == o.value
    ensures !Truthy(o) ==> r == Pending
  {
    if Truthy(o) then o.value else Pending
  }

  /** Step 2: phone or e-mail missing and a website known, so fill the missing ones from the site. */
  function Fill(info: PageInfo, fetch: string -> Option<string>, f: Finders): PageInfo
  {
    if (!Truthy(info.phone) || !Truthy(info.email)) && Truthy(info.website) then
      var wc := WebsiteContact(info.website.value, fetch, f);
      info.(phone := if !Truthy(info.phone) then wc.phone else info.phone,
            email := if !Truthy(info.email) then wc.email else info.email)
    else info
  }

  function JobUrl(data: Record): string
  {
    if "url" in data then data["url"] else ""
  }

  /** scrape_company_contact as a value: the input record with the contact fields written over it. */
  function ContactRecord(data: Record, pageOf: string -> Option<seq<Ref>>, fetch: string -> Option<string>, f: Finders): (r: Record)
    ensures forall k :: k in data ==> k in r
    ensures forall k :: k in data && k !in {"phone", "email", "website", "contact_person", "status"} ==> r[k] == data[k]
    ensures "phone" in r && "email" in r && "website" in r
    ensures r["phone"] != "" && r["email"] != "" && r["website"] != ""
  {
    match pageOf(JobUrl(data))
    case None => data["phone" := Pending]["email" := Pending]["website" := Pending]
    case Some(refs) =>
      var info := Fill(Scan(refs, f), fetch, f);
      data["phone" := OrPending(info.phone)]["email" := OrPending(info.email)]["website" := OrPending(info.website)]
          ["contact_person" := Greeting]["status" := Waiting]
  }

  /** scrape_company_contact: scan the job page, crawl the site when phone or e-mail is missing, merge. */
  method ScrapeCompanyContact(data: Record, pageOf: string -> Option<seq<Ref>>, fetch: string -> Option<string>, f: Finders)
    returns (r: Record)
    ensures r == ContactRecord(data, pageOf, fetch, f)
  {
    var jobUrl := if "url" in data then data["url"] else "";
    var page := ScanCompanyPage(pageOf(jobUrl), f);
    if page.None? {
      return data["phone" := Pending]["email" := Pending]["website" := Pending];
    }
    var info := page.value;
    if (!Truthy(info.phone) || !Truthy(info.email)) && Truthy(info.website) {
      var wc := CrawlWebsite(info.website.value, fetch, f);
      if !Truthy(info.phone) {
        info := info.(phone := wc.phone);
      }
      if !Truthy(info.email) {
        info := info.(email := wc.email);
      }
    }
    assert info == Fill(Scan(pageOf(JobUrl(data)).value, f), fetch, f);
    r := data["phone" := OrPending(info.phone)]["email" := OrPending(info.email)]["website" := OrPending(info.website)]
          ["contact_person" := Greeting]["status" := Waiting];
  }

  /** An unparseable job page marks all three contact fields pending and adds nothing else. */
  lemma UnparseablePagePending(data: Record, pageOf: string -> Option<seq<Ref>>, fetch: string -> Option<string>, f: Finders)
    requires pageOf(JobUrl(data)).None?
    ensures var r := ContactRecord(data, pageOf, fetch, f);
      r["phone"] == Pending && r["email"] == Pending && r["website"] == Pending
      && r.Keys == data.Keys + {"phone", "email", "website"}
  {
  }

  /** A parsed page adds the greeting and the waiting status. */
  lemma ParsedPageStatus(data: Record, pageOf: string -> Option<seq<Ref>>, fetch: string -> Option<string>, f: Finders)
    requires pageOf(JobUrl(data)).Some?
    ensures var r := ContactRecord(data, pageOf, fetch, f);
      r["contact_person"] == Greeting && r["status"] == Waiting
      && r.Keys == data.Keys + {"phone", "email", "website", "contact_person", "status"}
  {
  }

  /** A phone or e-mail found on the job page is the one reported; the website never replaces it. */
  lemma PageContactWins(data: Record, pageOf: string -> Option<seq<Ref>>, fetch: string -> Option<string>, f: Finders)
    requires pageOf(JobUrl(data)).Some?
    ensures var info := Scan(pageOf(JobUrl(data)).value, f); var r := ContactRecord(data, pageOf, fetch, f);
      (Truthy(info.phone) ==> r["phone"] == info.phone.value)
      && (Truthy(info.email) ==> r["email"] == info.email.value)
      && r["website"] == OrPending(info.website)
  {
  }

  /** A phone missing from the job page is taken from the crawl of a known website. */
  lemma WebsiteFillsMissing(data: Record, pageOf: string -> Option<seq<Ref>>, fetch: string -> Option<string>, f: Finders)
    requires pageOf(JobUrl(data)).Some?
    requires var info := Scan(pageOf(JobUrl(data)).value, f); Truthy(info.website)
    ensures var info := Scan(pageOf(JobUrl(data)).value, f); var r := ContactRecord(data, pageOf, fetch, f);
      var wc := WebsiteContact(info.website.value, fetch, f);
      (!Truthy(info.phone) ==> r["phone"] == OrPending(wc.phone))
      && (!Truthy(info.email) ==> r["email"] == OrPending(wc.email))
  {
  }

  // ---------------------------------------------------------------- main

  /** main: one detailed record per input company, in order. */
  method ScrapeAll(companies: seq<Record>, pageOf: string -> Option<seq<Ref>>, fetch: string -> Option<string>)
    returns (detailed: seq<Record>)
    ensures |detailed| == |companies|
    ensures forall i :: 0 <= i < |companies| ==> detailed[i] == ContactRecord(companies[i], pageOf, fetch, Regexes())
  {
    detailed := [];
    for i := 0 to |companies|
      invariant |detailed| == i
      invariant forall j :: 0 <= j < i ==> detailed[j] == ContactRecord(companies[j], pageOf, fetch, Regexes())
    {
      var d := ScrapeCompanyContact(companies[i], pageOf, fetch, Regexes());
      detailed := detailed + [d];
    }
  }
}
