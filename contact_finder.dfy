// Multi-channel contact search (scripts/contact-finder.py): the e-mail and phone extractors
// (findall, then set-deduplication), the three placeholder search channels, the per-candidate
// aggregation that deduplicates what the channels returned, and the batch driver.
module ContactFinder {
  import opened Wrappers
  import opened Text
  import opened Seqs
  import opened Pattern

  // ---------------------------------------------------------------- matches as text

  /** The matched texts of a list of hits (re.findall on a pattern without groups): each a piece of the text. */
  function Texts(text: string, hits: seq<Hit>): (r: seq<string>)
    requires forall h :: h in hits ==> Chain(text, h)
    ensures |r| == |hits|
    ensures forall k :: 0 <= k < |hits| ==> r[k] == Matched(text, hits[k])
    ensures forall m :: m in r ==> Contains(text, m)
  {
    if hits == [] then []
    else
      var h := hits[0];
      ChainEnd(text, h);
      assert OccursAt(text, Matched(text, h), h.start);
      [Matched(text, h)] + Texts(text, hits[1..])
  }

  function MatchTexts(p: seq<Atom>, text: string): (r: seq<string>)
    ensures forall m :: m in r ==> Contains(text, m)
  {
    Texts(text, FindAll(p, text, 0))
  }

  /** A literal atom of the pattern appears in every text findall reports. */
  lemma LitInMatches(p: seq<Atom>, text: string, k: nat, w: string)
    requires k < |p| && p[k] == Lit(w)
    ensures forall m :: m in MatchTexts(p, text) ==> Contains(m, w)
  {
    var hits := FindAll(p, text, 0);
    var ms := Texts(text, hits);
    forall m | m in ms ensures Contains(m, w) {
      var j :| 0 <= j < |hits| && ms[j] == m;
      assert hits[j] in hits;
      SpellsFit(p, text, hits[j].start, hits[j].ends);
      LitInMatched(p, text, hits[j], k, w);
    }
  }

  // ---------------------------------------------------------------- e-mail

  const EmailLocal: Class := Union(Union(Letter, Digit), Chars("._%+-"))
  const EmailDomain: Class := Union(Union(Letter, Digit), Chars(".-"))
  /** The class [A-Z|a-z], which also admits '|'. */
  const EmailTld: Class := Union(Letter, Chars("|"))

  /** \b[A-Za-z0-9._%+-]+@[A-Za-z0-9.-]+\.[A-Z|a-z]{2,}\b */
  const EmailPattern: seq<Atom> :=
    [Boundary, Plus(EmailLocal), Lit("@"), Plus(EmailDomain), Lit("."), AtLeast(EmailTld, 2), Boundary]

  /** All e-mail matches, each once (list(set(...)); the order of a Python set is not modelled). */
  function ExtractEmails(text: string): (r: seq<string>)
    ensures NoDup(r)
    ensures forall e :: e in r <==> e in MatchTexts(EmailPattern, text)
  {
    Dedup(MatchTexts(EmailPattern, text))
  }

  /** Every extracted address is a piece of the text and holds an '@'. */
  lemma EmailsAreAddresses(text: string)
    ensures forall e :: e in ExtractEmails(text) ==> Contains(text, e) && Contains(e, "@")
  {
    assert EmailPattern[2] == Lit("@");
    LitInMatches(EmailPattern, text, 2, "@");
  }

  // ---------------------------------------------------------------- phone

  const DashOrSpace: Class := Union(Chars("-"), Space)

  /** \+886[-\s]?\d{1,2}[-\s]?\d{3,4}[-\s]?\d{4} */
  const PhoneIntl: seq<Atom> :=
    [Lit("+886"), Opt(DashOrSpace), Times(Digit, 1, 2), Opt(DashOrSpace), Times(Digit, 3, 4), Opt(DashOrSpace), Times(Digit, 4, 4)]
  /** 0\d{1,2}[-\s]?\d{3,4}[-\s]?\d{4} */
  const PhoneLocal: seq<Atom> :=
    [Lit("0"), Times(Digit, 1, 2), Opt(DashOrSpace), Times(Digit, 3, 4), Opt(DashOrSpace), Times(Digit, 4, 4)]
  /** \d{4}[-\s]?\d{6} */
  const PhoneMobile: seq<Atom> := [Times(Digit, 4, 4), Opt(DashOrSpace), Times(Digit, 6, 6)]

  const PhonePatterns: seq<seq<Atom>> := [PhoneIntl, PhoneLocal, PhoneMobile]

  /** The lists concatenated in order. */
  function Concat<T>(xss: seq<seq<T>>): seq<T>
  {
    if xss == [] then [] else Concat(xss[..|xss| - 1]) + xss[|xss| - 1]
  }

  /** An element is in the concatenation iff it is in one of the lists. */
  lemma {:induction false} ConcatMembers<T>(xss: seq<seq<T>>)
    ensures forall x :: x in Concat(xss) <==> exists k :: 0 <= k < |xss| && x in xss[k]
  {
    if xss != [] {
      var init := xss[..|xss| - 1];
      ConcatMembers(init);
      forall x ensures x in Concat(xss) <==> exists k :: 0 <= k < |xss| && x in xss[k] {
        if x in Concat(init) {
          var k :| 0 <= k < |init| && x in init[k];
          assert xss[k] == init[k];
        }
        if exists k :: 0 <= k < |xss| && x in xss[k] {
          var k :| 0 <= k < |xss| && x in xss[k];
          if k < |init| { assert init[k] == xss[k]; }
        }
      }
    }
  }

  /** The findall results of each pattern, in pattern order. */
  function MatchLists<P>(pats: seq<P>, findAll: P -> seq<string>): (r: seq<seq<string>>)
    ensures |r| == |pats|
    ensures forall k :: 0 <= k < |pats| ==> r[k] == findAll(pats[k])
  {
    seq(|pats|, k requires 0 <= k < |pats| => findAll(pats[k]))
  }

  /** `found.extend(re.findall(pattern, text))` for each pattern in order. */
  method CollectMatches<P>(pats: seq<P>, findAll: P -> seq<string>) returns (all: seq<string>)
    ensures all == Concat(MatchLists(pats, findAll))
  {
    ghost var lists := MatchLists(pats, findAll);
    all := [];
    for i := 0 to |pats|
      invariant all == Concat(lists[..i])
    {
      assert lists[..i + 1][..i] == lists[..i];
      var matches := findAll(pats[i]);
      all := all + matches;
    }
    assert lists[..|pats|] == lists;
  }

  /** Every match of every pattern, each once: list(set(found)). */
  method ExtractAll<P>(pats: seq<P>, findAll: P -> seq<string>) returns (r: seq<string>)
    ensures NoDup(r)
    ensures forall x :: x in r <==> exists k :: 0 <= k < |pats| && x in findAll(pats[k])
  {
    var all := CollectMatches(pats, findAll);
    ConcatMembers(MatchLists(pats, findAll));
    r := Dedup(all);
  }

  function FindAllIn(text: string): seq<Atom> -> seq<string>
  {
    p => MatchTexts(p, text)
  }

  /** The phone numbers: every match of any of the three patterns, each once, each a piece of the text. */
  method ExtractPhones(text: string) returns (r: seq<string>)
    ensures NoDup(r)
    ensures forall x :: x in r <==> exists k :: 0 <= k < |PhonePatterns| && x in MatchTexts(PhonePatterns[k], text)
    ensures forall x :: x in r ==> Contains(text, x)
  {
    r := ExtractAll(PhonePatterns, FindAllIn(text));
  }

  // ---------------------------------------------------------------- search channels

  datatype QueryResult = QueryResult(query: string, emails: seq<string>, phones: seq<string>)

  const QuerySuffixes: seq<string> := ["email", "contact", "聯絡"]

  /** The three Google queries, in a fixed order; the search itself is a placeholder that finds nothing. */
  function GoogleQueries(name: string, company: string): (r: seq<QueryResult>)
    ensures |r| == |QuerySuffixes|
    ensures forall k :: 0 <= k < |r| ==>
      StartsWith(r[k].query, name + " " + company + " ") && EndsWith(r[k].query, QuerySuffixes[k])
      && |r[k].query| == |name + " " + company + " "| + |QuerySuffixes[k]|
    ensures forall q :: q in r ==> q.emails == [] && q.phones == []
  {
    var head := name + " " + company + " ";
    seq(|QuerySuffixes|, k requires 0 <= k < |QuerySuffixes| => QueryResult(head + QuerySuffixes[k], [], []))
  }

  /** The three queries are different from each other. */
  lemma GoogleQueriesDistinct(name: string, company: string)
    ensures forall i, j :: 0 <= i < j < |GoogleQueries(name, company)| ==>
      GoogleQueries(name, company)[i].query != GoogleQueries(name, company)[j].query
  {
    var r := GoogleQueries(name, company);
    var n := |name + " " + company + " "|;
    assert |r[0].query| == n + 5 && |r[1].query| == n + 7 && |r[2].query| == n + 2;
  }

  datatype GithubResult = GithubResult(url: string, emails: seq<string>, publicRepos: Option<nat>, bio: Option<string>)

  const GithubPrefix: string := "https://github.com/"

  /** The GitHub channel: the profile URL of the user; the fetch is a placeholder that finds nothing. */
  function SearchGithub(user: string): (r: GithubResult)
    ensures StartsWith(r.url, GithubPrefix) && r.url[|GithubPrefix|..] == user
    ensures r.emails == [] && r.publicRepos.None? && r.bio.None?
  {
    GithubResult(GithubPrefix + user, [], None, None)
  }

  /** Different users get different profile URLs. */
  lemma GithubUrlInjective(u: string, v: string)
    ensures SearchGithub(u).url == SearchGithub(v).url ==> u == v
  {
    if SearchGithub(u).url == SearchGithub(v).url {
      assert u == SearchGithub(u).url[|GithubPrefix|..];
    }
  }

  datatype PageResult = PageResult(url: string, found: bool, emails: seq<string>, phones: seq<string>)

  const CompanyPages: seq<string> := ["/team", "/about", "/about-us", "/people", "/our-team", "/contact"]

  /** The company-website channel: one placeholder result per common page, none of them found. */
  function SearchCompanyWebsite(website: string, candidateName: string): (r: seq<PageResult>)
    ensures |r| == |CompanyPages|
    ensures forall k :: 0 <= k < |r| ==> StartsWith(r[k].url, website) && r[k].url[|website|..] == CompanyPages[k]
    ensures forall p :: p in r ==> !p.found && p.emails == [] && p.phones == []
  {
    seq(|CompanyPages|, k requires 0 <= k < |CompanyPages| => PageResult(website + CompanyPages[k], false, [], []))
  }

  /** The six page URLs are different from each other. */
  lemma CompanyPagesDistinct(website: string, candidateName: string)
    ensures forall i, j :: 0 <= i < j < |CompanyPages| ==>
      SearchCompanyWebsite(website, candidateName)[i].url != SearchCompanyWebsite(website, candidateName)[j].url
  {
    var r := SearchCompanyWebsite(website, candidateName);
    forall i, j | 0 <= i < j < |CompanyPages| ensures r[i].url != r[j].url {
      assert r[i].url[|website|..] == CompanyPages[i];
      assert r[j].url[|website|..] == CompanyPages[j];
      assert CompanyPages[i] != CompanyPages[j] by {
        assert CompanyPages[2][1] != CompanyPages[4][1];
      }
    }
  }

  // ---------------------------------------------------------------- aggregation

  /** A candidate's name, company and GitHub username; a missing key reads as "". */
  datatype Candidate = Candidate(name: string, company: string, githubUsername: string)

  datatype Source = Google(queries: seq<QueryResult>) | Github(profile: GithubResult)

  datatype ContactInfo = ContactInfo(
    candidate: Candidate,
    contactFound: bool,
    emails: seq<string>,
    phones: seq<string>,
    sources: seq<Source>)

  /** The e-mails of the query results, concatenated in order. */
  function QueryEmails(rs: seq<QueryResult>): seq<string>
  {
    if rs == [] then [] else QueryEmails(rs[..|rs| - 1]) + rs[|rs| - 1].emails
  }

  function QueryPhones(rs: seq<QueryResult>): seq<string>
  {
    if rs == [] then [] else QueryPhones(rs[..|rs| - 1]) + rs[|rs| - 1].phones
  }

  /** Query results that carry nothing contribute nothing. */
  lemma {:induction false} QueryNothing(rs: seq<QueryResult>)
    requires forall q :: q in rs ==> q.emails == [] && q.phones == []
    ensures QueryEmails(rs) == [] && QueryPhones(rs) == []
  {
    if rs != [] {
      assert forall q :: q in rs[..|rs| - 1] ==> q in rs;
      QueryNothing(rs[..|rs| - 1]);
      assert rs[|rs| - 1] in rs;
    }
  }

  /** What the channels gathered before deduplication: Google's e-mails, then GitHub's. */
  function GatheredEmails(c: Candidate): seq<string>
  {
    QueryEmails(GoogleQueries(c.name, c.company))
      + (if c.githubUsername != "" then SearchGithub(c.githubUsername).emails else [])
  }

  function GatheredPhones(c: Candidate): seq<string>
  {
    QueryPhones(GoogleQueries(c.name, c.company))
  }

  /** With every channel still a placeholder, nothing is ever gathered. */
  lemma NothingGathered(c: Candidate)
    ensures GatheredEmails(c) == [] && GatheredPhones(c) == []
  {
    QueryNothing(GoogleQueries(c.name, c.company));
  }

  /** Search every channel for one candidate and merge what they found. */
  method FindContactInfo(c: Candidate) returns (r: ContactInfo)
    ensures r.candidate == c
    ensures 1 <= |r.sources| <= 2 && r.sources[0] == Google(GoogleQueries(c.name, c.company))
    ensures |r.sources| == 2 <==> c.githubUsername != ""
    ensures |r.sources| == 2 ==> r.sources[1] == Github(SearchGithub(c.githubUsername))
    ensures NoDup(r.emails) && NoDup(r.phones)
    ensures |r.emails| <= |GatheredEmails(c)| && |r.phones| <= |GatheredPhones(c)|
    ensures forall e :: e in r.emails <==> e in GatheredEmails(c)
    ensures forall p :: p in r.phones <==> p in GatheredPhones(c)
    ensures r.contactFound <==> r.emails != [] || r.phones != []
  {
    var google := GoogleQueries(c.name, c.company);
    var sources := [Google(google)];
    var emails: seq<string> := [];
    var phones: seq<string> := [];
    for i := 0 to |google|
      invariant emails == QueryEmails(google[..i]) && phones == QueryPhones(google[..i])
    {
      assert google[..i + 1][..i] == google[..i];
      emails := emails + google[i].emails;
      phones := phones + google[i].phones;
    }
    assert google[..|google|] == google;
    if c.githubUsername != "" {
      var profile := SearchGithub(c.githubUsername);
      sources := sources + [Github(profile)];
      emails := emails + profile.emails;
    }
    emails := Dedup(emails);
    phones := Dedup(phones);
    r := ContactInfo(c, emails != [] || phones != [], emails, phones, sources);
  }

  /** Search every candidate in order; an empty batch fails at the success-percentage division. */
  method BatchFindContacts(cs: seq<Candidate>) returns (r: Result<seq<ContactInfo>, string>)
    ensures r.Err? <==> cs == []
    ensures r.Ok? ==> |r.value| == |cs| && forall k :: 0 <= k < |cs| ==> r.value[k].candidate == cs[k]
    ensures r.Ok? ==> forall k :: 0 <= k < |cs| ==> !r.value[k].contactFound
  {
    var results: seq<ContactInfo> := [];
    for i := 0 to |cs|
      invariant |results| == i
      invariant forall k :: 0 <= k < i ==> results[k].candidate == cs[k] && !results[k].contactFound
    {
      var info := FindContactInfo(cs[i]);
      NothingGathered(cs[i]);
      results := results + [info];
    }
    if |cs| == 0 {
      r := Err("ZeroDivisionError");
    } else {
      r := Ok(results);
    }
  }
}
