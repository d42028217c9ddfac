// The PTT Soft_Job scraper (scripts/scraper-ptt-softjob.py): the board's listing-page URLs,
// the candidate record read from an article (whole-word skill keywords, years of experience,
// first e-mail and LINE id), the title filter and the bounded parse loop of main.
module PttScraper {
  import opened Wrappers
  import opened Text
  import opened Seqs
  import opened Pattern

  // ---------------------------------------------------------------- listing pages

  const BoardBase: string := "https://www.ptt.cc/bbs/"

  function PagePrefix(board: string): string { BoardBase + board + "/index" }

  /** The listing page of a board: index.html for page 1, index{n}.html for any later page. */
  function PageUrl(board: string, page: nat): (r: string)
    requires page >= 1
    ensures StartsWith(r, PagePrefix(board)) && EndsWith(r, ".html")
    ensures |r| >= |PagePrefix(board)| + 5
    ensures r[|PagePrefix(board)|..|r| - 5] == (if page == 1 then "" else NatToString(page))
  {
    var pre := PagePrefix(board);
    var mid := if page == 1 then "" else NatToString(page);
    var r := pre + mid + ".html";
    assert r[|pre|..|r| - 5] == mid;
    r
  }

  /** Different pages of a board have different URLs. */
  lemma PageUrlInjective(board: string, p: nat, q: nat)
    requires p >= 1 && q >= 1 && PageUrl(board, p) == PageUrl(board, q)
    ensures p == q
  {
    var n := |PagePrefix(board)|;
    var u := PageUrl(board, p);
    var mp := if p == 1 then "" else NatToString(p);
    var mq := if q == 1 then "" else NatToString(q);
    assert mp == u[n..|u| - 5] == mq;
    if p != 1 && q != 1 {
      NatToStringInjective(p, q);
    }
  }

  /** The listing pages fetched for `pages` pages, in order. */
  function PageUrls(board: string, pages: nat): (r: seq<string>)
    ensures |r| == pages
    ensures forall i :: 0 <= i < pages ==> r[i] == PageUrl(board, i + 1)
  {
    seq(pages, i requires 0 <= i < pages => PageUrl(board, i + 1))
  }

  /** No listing page is fetched twice. */
  lemma PageUrlsDistinct(board: string, pages: nat)
    ensures NoDup(PageUrls(board, pages))
  {
    forall p, q | 1 <= p < q <= pages ensures PageUrl(board, p) != PageUrl(board, q) {
      if PageUrl(board, p) == PageUrl(board, q) {
        PageUrlInjective(board, p, q);
      }
    }
    var r := PageUrls(board, pages);
    forall i, j | 0 <= i < j < pages ensures r[i] != r[j] {
      assert r[i] == PageUrl(board, i + 1) && r[j] == PageUrl(board, j + 1);
    }
  }

  // ---------------------------------------------------------------- skills

  /**
   * The skill keywords as the script writes them: regular-expression text, so `c++` and `node.js`
   * appear with their backslash escapes.
   */
  const SkillKeywords: seq<string> := [
    "python", "java", "javascript", "typescript", "c\\+\\+", "c#", "go", "rust",
    "react", "vue", "angular", "node\\.js", "django", "flask",
    "sql", "mysql", "postgresql", "mongodb", "redis",
    "aws", "gcp", "azure", "docker", "kubernetes", "k8s",
    "machine learning", "ml", "deep learning", "ai", "tensorflow", "pytorch",
    "git", "linux", "ci/cd", "devops"]

  /** The literal a keyword's regular expression matches: every backslash escape taken as the escaped character. */
  function Unescape(k: string): (r: string)
    ensures |r| <= |k|
  {
    if k == [] then []
    else if k[0] == '\\' && |k| >= 2 then [k[1]] + Unescape(k[2..])
    else [k[0]] + Unescape(k[1..])
  }

  /** \b<keyword>\b */
  function WholeWord(k: string): seq<Atom>
  {
    [Boundary, Lit(Unescape(k)), Boundary]
  }

  /** re.search(r'\b' + k + r'\b', lower) is truthy. */
  predicate WholeWordIn(lower: string, k: string)
  {
    Found(WholeWord(k), lower)
  }

  function MentionedIn(lower: string): string -> bool
  {
    (k: string) => WholeWordIn(lower, k)
  }

  /** The name reported for a keyword: upper-cased up to three characters, title-cased beyond, escapes and all. */
  function Display(k: string): (r: string)
    ensures |r| == |k|
    ensures |k| <= 3 ==> forall i :: 0 <= i < |k| ==> r[i] == UpperChar(k[i])
    ensures |k| > 3 ==> forall i :: 0 <= i < |k| ==>
      r[i] == if i > 0 && IsLetter(k[i - 1]) then LowerChar(k[i]) else UpperChar(k[i])
  {
    if |k| <= 3 then Upper(k) else Title(k)
  }

  /** The display names of the keywords that are found, in keyword order. */
  function Mentioned(keywords: seq<string>, found: string -> bool): (r: seq<string>)
    ensures |r| == |Filter(keywords, found)|
    ensures forall j :: 0 <= j < |r| ==> r[j] == Display(Filter(keywords, found)[j])
  {
    var hits := Filter(keywords, found);
    seq(|hits|, j requires 0 <= j < |hits| => Display(hits[j]))
  }

  /** A name is reported iff it is the display name of a keyword that is found. */
  lemma MentionedExactly(keywords: seq<string>, found: string -> bool)
    ensures forall s :: s in Mentioned(keywords, found) <==>
      exists k :: k in keywords && found(k) && s == Display(k)
  {
    var all := Mentioned(keywords, found);
    var hits := Filter(keywords, found);
    forall s ensures s in all <==> exists k :: k in keywords && found(k) && s == Display(k) {
      if s in all {
        var j :| 0 <= j < |all| && all[j] == s;
        assert hits[j] in hits;
      }
      if exists k :: k in keywords && found(k) && s == Display(k) {
        var k :| k in keywords && found(k) && s == Display(k);
        var j :| 0 <= j < |hits| && hits[j] == k;
        assert all[j] == s;
      }
    }
  }

  /** One more keyword adds its display name exactly when it is found. */
  lemma MentionedSnoc(keywords: seq<string>, k: string, found: string -> bool)
    ensures Mentioned(keywords + [k], found) == Mentioned(keywords, found) + (if found(k) then [Display(k)] else [])
  {
    FilterAppend(keywords, [k], found);
    var hits := Filter(keywords, found);
    var more := Filter(keywords + [k], found);
    assert Filter([k], found) == if found(k) then [k] else [];
    assert more == hits + (if found(k) then [k] else []);
    var a := Mentioned(keywords + [k], found);
    var b := Mentioned(keywords, found) + (if found(k) then [Display(k)] else []);
    assert |a| == |b|;
    forall j | 0 <= j < |a| ensures a[j] == b[j] {
      if j < |hits| {
        assert more[j] == hits[j];
      }
    }
  }

  /** The skill loop of extract_candidate_info (`found` is the whole-word search in the lower-cased content). */
  method CollectSkills(keywords: seq<string>, found: string -> bool) returns (skills: seq<string>)
    ensures skills == Mentioned(keywords, found)
  {
    skills := [];
    for i := 0 to |keywords|
      invariant skills == Mentioned(keywords[..i], found)
    {
      var k := keywords[i];
      assert keywords[..i + 1] == keywords[..i] + [k];
      MentionedSnoc(keywords[..i], k, found);
      if found(k) {
        skills := skills + [Display(k)];
      }
    }
    assert keywords[..|keywords|] == keywords;
  }

  /** The regular expression node\.js matches the literal "node.js". */
  lemma UnescapeNodeJs()
    ensures Unescape("node\\.js") == "node.js"
  {
    var k := "node\\.js";
    assert Unescape(k[6..]) == "js" by { assert k[6..][1..] == "s" && k[6..][1..][1..] == []; }
    assert Unescape(k[4..]) == ".js" by { assert k[4..][2..] == k[6..]; }
    assert Unescape(k) == "node.js" by {
      assert k[1..] == "ode\\.js" && k[2..] == "de\\.js" && k[3..] == "e\\.js" && k[3..][1..] == k[4..];
    }
  }

  /** Escaped keywords keep their backslashes in the name reported: node\.js is shown as "Node\.Js". */
  lemma DisplayNodeJs()
    ensures Display("node\\.js") == "Node\\.Js"
  {
    var t := Title("node\\.js");
    assert t[0] == 'N' && t[1] == 'o' && t[2] == 'd' && t[3] == 'e';
    assert t[4] == '\\' && t[5] == '.' && t[6] == 'J' && t[7] == 's';
  }

  /** c\+\+ is shown as "C\+\+". */
  lemma DisplayCpp()
    ensures Unescape("c\\+\\+") == "c++"
    ensures Display("c\\+\\+") == "C\\+\\+"
  {
    var c := Title("c\\+\\+");
    assert c[0] == 'C' && c[1] == '\\' && c[2] == '+' && c[3] == '\\' && c[4] == '+';
  }

  /** A whole-word match of w: the literal stands in the text with a word boundary on either side. */
  lemma WholeWordFits(s: string, w: string, i: nat, b: seq<nat>)
    requires Spells([Boundary, Lit(w), Boundary], s, i, b)
    ensures i + |w| <= |s| && s[i..i + |w|] == w && AtBoundary(s, i) && AtBoundary(s, i + |w|)
  {
    var p := [Boundary, Lit(w), Boundary];
    SpellsAt(p, s, i, b, 0);
    assert b[0] == i;
    SpellsAt(p, s, i, b, 1);
    var v :| v in [w] && WordAt(s, i, v, false) && b[1] == i + |v|;
    assert v == w;
    SpellsAt(p, s, i, b, 2);
  }

  /** A literal with no occurrence bounded by word boundaries on both sides is not found as a whole word. */
  lemma NotWholeWord(s: string, w: string)
    requires forall i: nat :: OccursAt(s, w, i) ==> !(AtBoundary(s, i) && AtBoundary(s, i + |w|))
    ensures !Found([Boundary, Lit(w), Boundary], s)
  {
    if Found([Boundary, Lit(w), Boundary], s) {
      var h := Search([Boundary, Lit(w), Boundary], s, 0).value;
      WholeWordFits(s, w, h.start, h.ends);
      assert OccursAt(s, w, h.start);
      assert false;
    }
  }

  /**
   * \b after a keyword that ends in '+' needs a word character next, so "c++" followed by a space
   * is not reported.
   */
  lemma CppNeedsWordAfter()
    ensures !WholeWordIn("c++ ", "c\\+\\+")
  {
    DisplayCpp();
    var s := "c++ ";
    assert s[1..4] == "++ ";
    assert !AtBoundary(s, 3);
    forall i: nat | OccursAt(s, "c++", i) ensures i == 0 { }
    NotWholeWord(s, "c++");
  }

  // ---------------------------------------------------------------- years, e-mail, LINE id

  /** (\d+)\s*年 */
  const YearsPattern: seq<Atom> := [Plus(Digit), Star(Space), Lit("年")]

  /** The number before the first "年" (spaces allowed between), or 0. */
  function YearsOf(content: string): (r: nat)
    ensures !Found(YearsPattern, content) ==> r == 0
    ensures Found(YearsPattern, content) ==> exists i, d :: FirstDigits(YearsPattern, content, i, d) && r == ParseNat(d)
  {
    assert YearsPattern[0] == Plus(Digit);
    LeadingNumber(YearsPattern, content)
  }

  /** d is the leading group of the first match of p, a non-empty run of digits. */
  predicate FirstDigits(p: seq<Atom>, content: string, i: nat, d: string)
  {
    FirstGroupText(p, content, i, 0, d) && d != [] && forall c :: c in d ==> IsDigit(c)
  }

  /** int() of the leading digit group of the first match, or 0 when nothing matches. */
  function LeadingNumber(p: seq<Atom>, content: string): (r: nat)
    requires |p| > 0 && p[0] == Plus(Digit)
    ensures !Found(p, content) ==> r == 0
    ensures Found(p, content) ==> exists i, d :: FirstDigits(p, content, i, d) && r == ParseNat(d)
  {
    match Search(p, content, 0)
    case None => 0
    case Some(h) =>
      var d := Group(content, h, 0);
      GroupInClass(p, content, h, 0);
      assert forall c :: c in d ==> IsDigit(c) by {
        forall c | c in d ensures IsDigit(c) { assert In(c, Digit); }
      }
      assert FirstDigits(p, content, h.start, d);
      ParseNat(d)
  }

  const EmailLocal: Class := Union(Union(Letter, Digit), Chars("._%+-"))
  const EmailDomain: Class := Union(Union(Letter, Digit), Chars(".-"))

  /** [a-zA-Z0-9._%+-]+@[a-zA-Z0-9.-]+\.[a-zA-Z]{2,} */
  const EmailPattern: seq<Atom> := [Plus(EmailLocal), Lit("@"), Plus(EmailDomain), Lit("."), AtLeast(Letter, 2)]

  /** The first e-mail-like text, or None: a piece of the content holding an '@'. */
  function EmailOf(content: string): (r: Option<string>)
    ensures r.Some? <==> Found(EmailPattern, content)
    ensures r.Some? ==> Contains(content, r.value) && Contains(r.value, "@")
    ensures r.Some? ==> exists i :: FirstMatchText(EmailPattern, content, i, r.value)
  {
    match Search(EmailPattern, content, 0)
    case None => None
    case Some(h) =>
      SearchIsFirst(EmailPattern, content);
      ChainEnd(content, h);
      assert OccursAt(content, Matched(content, h), h.start);
      SpellsFit(EmailPattern, content, h.start, h.ends);
      assert EmailPattern[1] == Lit("@");
      LitInMatched(EmailPattern, content, h, 1, "@");
      Some(Matched(content, h))
  }

  /** Any local@domain.tld (a tld of two letters or more) anywhere in the content yields an e-mail. */
  lemma EmailFound(content: string, i: nat, at: nat, dot: nat, e: nat)
    requires i < at && at + 1 < dot && dot + 3 <= e <= |content|
    requires content[at] == '@' && content[dot] == '.'
    requires forall j :: i <= j < at ==> In(content[j], EmailLocal)
    requires forall j :: at + 1 <= j < dot ==> In(content[j], EmailDomain)
    requires forall j :: dot + 1 <= j < e ==> In(content[j], Letter)
    ensures EmailOf(content).Some?
  {
    var b := [at, at + 1, dot, dot + 1, e];
    assert Spells(EmailPattern, content, i, b) by {
      forall k | 0 <= k < 5 ensures Fits(EmailPattern[k], content, Prev(i, b, k), b[k]) {
        if k == 0 {
          FitsRep(EmailLocal, 1, Unbounded, false, content, i, at);
        } else if k == 1 {
          FitsLit("@", content, at);
        } else if k == 2 {
          FitsRep(EmailDomain, 1, Unbounded, false, content, at + 1, dot);
        } else if k == 3 {
          FitsLit(".", content, dot);
        } else {
          FitsRep(Letter, 2, Unbounded, false, content, dot + 1, e);
        }
      }
      SpellsAll(EmailPattern, content, i, b);
    }
    FoundOfSpells(EmailPattern, content, i, b);
  }

  const LineIdChars: Class := Union(Union(Letter, Digit), Chars("_-"))

  /** LINE[：:\s]* in any case, followed by the id [a-zA-Z0-9_\-]+ */
  const LinePrefix: seq<Atom> := [Words(["LINE"], true), Star(Union(Chars("：:"), Space))]

  /** The whole LINE pattern: the label, then the id as the last group. */
  const LinePattern: seq<Atom> := LinePrefix + [Plus(LineIdChars)]

  /**
   * The id group of the first match of the LINE pattern, or None when it matches nowhere: never empty,
   * only letters, digits, '_' and '-'.
   */
  function LineIdOf(content: string): (r: Option<string>)
    ensures r.Some? <==> Found(LinePattern, content)
    ensures r.Some? ==> r.value != [] && forall c :: c in r.value ==> In(c, LineIdChars)
    ensures r.Some? ==> exists i :: FirstGroupText(LinePattern, content, i, |LinePrefix|, r.value)
  {
    CaptureTail(LinePrefix, LineIdChars, content)
  }

  /** "LINE" in any case, directly followed by an id character anywhere in the content, yields a LINE id. */
  lemma LineIdFound(content: string, i: nat)
    requires WordAt(content, i, "LINE", true) && i + 4 < |content| && In(content[i + 4], LineIdChars)
    ensures LineIdOf(content).Some?
  {
    var b := [i + 4, i + 4, i + 5];
    assert Spells(LinePattern, content, i, b) by {
      forall k | 0 <= k < 3 ensures Fits(LinePattern[k], content, Prev(i, b, k), b[k]) {
        if k == 0 {
          assert "LINE" in ["LINE"];
        } else if k == 1 {
          FitsRep(Union(Chars("：:"), Space), 0, Unbounded, false, content, i + 4, i + 4);
        } else {
          FitsRep(LineIdChars, 1, Unbounded, false, content, i + 4, i + 5);
        }
      }
      SpellsAll(LinePattern, content, i, b);
    }
    CaptureTailFound(LinePrefix, LineIdChars, content, i, b);
  }

  // ---------------------------------------------------------------- candidate record

  const Source: string := "ptt_soft_job"

  datatype Info = Info(
    title: string,
    skills: seq<string>,
    yearsOfExperience: nat,
    email: Option<string>,
    lineId: Option<string>,
    source: string)

  /** extract_candidate_info: nothing for empty content, else the record read from it. */
  function CandidateInfo(keywords: seq<string>, title: string, content: string): Option<Info>
  {
    if content == "" then None
    else Some(Info(title, Dedup(Mentioned(keywords, MentionedIn(Lower(content)))), YearsOf(content),
                   EmailOf(content), LineIdOf(content), Source))
  }

  /** The record exists iff there is content; its skills are the keywords found, once each. */
  lemma CandidateInfoFields(keywords: seq<string>, title: string, content: string)
    ensures CandidateInfo(keywords, title, content).None? <==> content == ""
    ensures CandidateInfo(keywords, title, content).Some? ==>
      var i := CandidateInfo(keywords, title, content).value;
      && i.title == title && i.source == "ptt_soft_job" && NoDup(i.skills)
      && (forall s :: s in i.skills <==>
            exists k :: k in keywords && MentionedIn(Lower(content))(k) && s == Display(k))
      && i.yearsOfExperience == YearsOf(content) && i.email == EmailOf(content) && i.lineId == LineIdOf(content)
  {
    MentionedExactly(keywords, MentionedIn(Lower(content)));
  }

  method ExtractCandidateInfo(keywords: seq<string>, title: string, content: string) returns (r: Option<Info>)
    ensures r == CandidateInfo(keywords, title, content)
  {
    if content == "" {
      return None;
    }
    var skills := CollectSkills(keywords, MentionedIn(Lower(content)));
    r := Some(Info(title, Dedup(skills), YearsOf(content), EmailOf(content), LineIdOf(content), Source));
  }

  // ---------------------------------------------------------------- main

  datatype Article = Article(title: string, url: string, board: string)

  /** Title words that mark an article as relevant whatever keywords were asked for. */
  const Markers: seq<string> := ["自介", "徵", "hiring"]

  /** The --keywords argument: comma-separated, lower-cased. */
  function KeywordList(arg: string): (r: seq<string>)
    ensures |r| == |Split(arg, ',')|
    ensures forall i :: 0 <= i < |r| ==> r[i] == Lower(Split(arg, ',')[i])
  {
    var parts := Split(arg, ',');
    seq(|parts|, i requires 0 <= i < |parts| => Lower(parts[i]))
  }

  /** Joining the keywords back with commas gives the lower-cased argument: nothing but case is lost. */
  lemma KeywordListRejoins(arg: string)
    ensures Join(KeywordList(arg), ",") == Lower(arg)
  {
    JoinSplit(arg, ',');
    JoinLowered(Split(arg, ','), KeywordList(arg));
  }

  /** Lower-casing every part and joining with a comma is lower-casing the joined text. */
  lemma {:induction false} JoinLowered(parts: seq<string>, r: seq<string>)
    requires |r| == |parts| && forall i :: 0 <= i < |parts| ==> r[i] == Lower(parts[i])
    ensures Join(r, ",") == Lower(Join(parts, ","))
    decreases |parts|
  {
    if |parts| > 1 {
      JoinLowered(parts[1..], r[1..]);
      var tail := Join(parts[1..], ",");
      var whole := parts[0] + "," + tail;
      assert Lower(whole) == Lower(parts[0]) + "," + Lower(tail) by {
        assert |Lower(whole)| == |Lower(parts[0]) + "," + Lower(tail)|;
        forall i | 0 <= i < |whole| ensures Lower(whole)[i] == (Lower(parts[0]) + "," + Lower(tail))[i] {
          if i < |parts[0]| {
            assert whole[i] == parts[0][i];
          } else if i > |parts[0]| {
            assert whole[i] == tail[i - |parts[0]| - 1];
          }
        }
      }
    }
  }

  predicate Relevant(keywords: seq<string>, a: Article)
  {
    (exists kw :: kw in keywords && Contains(Lower(a.title), kw))
    || (exists m :: m in Markers && Contains(Lower(a.title), m))
  }

  function RelevantTo(keywords: seq<string>): Article -> bool
  {
    (a: Article) => Relevant(keywords, a)
  }

  /** The title filter of main, in listing order. */
  method FilterArticles(articles: seq<Article>, keywords: seq<string>) returns (kept: seq<Article>)
    ensures kept == Filter(articles, RelevantTo(keywords))
  {
    kept := [];
    var i := |articles|;
    while i > 0
      invariant 0 <= i <= |articles|
      invariant kept == Filter(articles[i..], RelevantTo(keywords))
    {
      i := i - 1;
      assert articles[i..] == [articles[i]] + articles[i + 1..];
      if Relevant(keywords, articles[i]) {
        kept := [articles[i]] + kept;
      }
    }
  }

  /** An empty keyword (say, from a trailing comma) matches every title, so nothing is filtered out. */
  lemma EmptyKeywordKeepsAll(articles: seq<Article>, keywords: seq<string>)
    requires "" in keywords
    ensures Filter(articles, RelevantTo(keywords)) == articles
  {
    forall a | a in articles ensures RelevantTo(keywords)(a) {
      assert OccursAt(Lower(a.title), "", 0);
    }
    FilterAll(articles, RelevantTo(keywords));
  }

  /** The most articles main reads. */
  const MaxParsed: nat := 10

  datatype Candidate = Candidate(info: Info, pttUrl: string)

  /** One filtered article's outcome: a candidate when its content is fetched, non-empty, and names a skill. */
  function ArticleCandidate(keywords: seq<string>, fetch: string -> Option<string>, a: Article): (r: Option<Candidate>)
    ensures r.Some? ==> r.value.info.skills != [] && r.value.info.source == "ptt_soft_job"
    ensures r.Some? ==> r.value.pttUrl == a.url && r.value.info.title == a.title
  {
    match fetch(a.url)
    case None => None
    case Some(content) =>
      match CandidateInfo(keywords, a.title, content)
      case None => None
      case Some(info) => if info.skills == [] then None else Some(Candidate(info, a.url))
  }

  function CandidateOf(keywords: seq<string>, fetch: string -> Option<string>): Article -> Option<Candidate>
  {
    (a: Article) => ArticleCandidate(keywords, fetch, a)
  }

  function Head(articles: seq<Article>): (r: seq<Article>)
    ensures |r| == (if |articles| < MaxParsed then |articles| else MaxParsed) && r == articles[..|r|]
    ensures |articles| <= MaxParsed ==> r == articles
  {
    if |articles| <= MaxParsed then articles else articles[..MaxParsed]
  }

  /**
   * The parse loop of main over the first ten filtered articles; `fetch` stands for
   * parse_article_content (None when the page cannot be fetched or has no main content).
   */
  method CollectCandidates(keywords: seq<string>, filtered: seq<Article>, fetch: string -> Option<string>)
    returns (candidates: seq<Candidate>)
    ensures candidates == Collect(Head(filtered), CandidateOf(keywords, fetch))
  {
    var todo := Head(filtered);
    candidates := [];
    for i := 0 to |todo|
      invariant candidates == Collect(todo[..i], CandidateOf(keywords, fetch))
    {
      var a := todo[i];
      assert todo[..i + 1][..i] == todo[..i];
      ghost var next := CandidateOf(keywords, fetch)(a);
      var content := fetch(a.url);
      if content.Some? {
        var info := ExtractCandidateInfo(keywords, a.title, content.value);
        if info.Some? && info.value.skills != [] {
          assert next == Some(Candidate(info.value, a.url));
          candidates := candidates + [Candidate(info.value, a.url)];
        } else {
          assert next.None?;
        }
      } else {
        assert next.None?;
      }
    }
    assert todo[..|todo|] == todo;
  }

  /** At most ten candidates, each from a parsed article, each with at least one skill. */
  lemma CandidatesBounded(keywords: seq<string>, filtered: seq<Article>, fetch: string -> Option<string>)
    ensures var cs := Collect(Head(filtered), CandidateOf(keywords, fetch));
      && |cs| <= MaxParsed
      && forall j :: 0 <= j < |cs| ==>
           cs[j].info.skills != [] && cs[j].info.source == "ptt_soft_job"
           && exists a :: a in Head(filtered) && cs[j].pttUrl == a.url && cs[j].info.title == a.title
  {
    var cs := Collect(Head(filtered), CandidateOf(keywords, fetch));
    forall j | 0 <= j < |cs|
      ensures cs[j].info.skills != [] && cs[j].info.source == "ptt_soft_job"
      ensures exists a :: a in Head(filtered) && cs[j].pttUrl == a.url && cs[j].info.title == a.title
    {
      var a :| a in Head(filtered) && CandidateOf(keywords, fetch)(a) == Some(cs[j]);
      assert ArticleCandidate(keywords, fetch, a) == Some(cs[j]);
    }
  }
}
