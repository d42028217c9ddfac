// Channel allocation for candidate sourcing (scripts/multi-channel-sourcing.py): a title is
// "tech" when it mentions a tech keyword or a known tech position; the requested head count is
// split over the channels by the tech or non-tech percentage table, and each channel's search
// query is built from the title and skills. The searches themselves return no candidates.
module MultiChannel {
  import opened Text

  const TechPositions: seq<string> := ["AI工程師", "數據分析師", "全端工程師", "後端開發工程師",
    "前端工程師", "BIM工程師", "軟體測試工程師", "資安工程師", "雲端維運工程師", "DevOps", "SRE", ".NET工程師",
    "Machine Learning Engineer", "Data Scientist", "Software Engineer"]

  const TechKeywords: seq<string> := ["工程師", "engineer", "developer", "programmer",
    "architect", "tech", "軟體", "software", "開發"]

  // ---------------------------------------------------------------- classification

  /** The first loop of is_tech_position: does any of the words occur in the text? */
  function AnyOccurs(words: seq<string>, text: string): (r: bool)
    ensures r <==> exists w :: w in words && Contains(text, w)
  {
    if words == [] then false
    else Contains(text, words[0]) || AnyOccurs(words[1..], text)
  }

  function LowerAll(words: seq<string>): (r: seq<string>)
    ensures |r| == |words| && forall i :: 0 <= i < |words| ==> r[i] == Lower(words[i])
  {
    seq(|words|, i requires 0 <= i < |words| => Lower(words[i]))
  }

  /** is_tech_position: a keyword, or a lower-cased listed position, in the lower-cased title. */
  function IsTechPosition(position: string): bool
  {
    var title := Lower(position);
    AnyOccurs(TechKeywords, title) || AnyOccurs(LowerAll(TechPositions), title)
  }

  /** Tech exactly when the lower-cased title contains a keyword or a lower-cased listed position. */
  lemma IsTechPositionIff(position: string)
    ensures IsTechPosition(position) <==>
      (exists k :: k in TechKeywords && Contains(Lower(position), k))
      || (exists i :: 0 <= i < |TechPositions| && Contains(Lower(position), Lower(TechPositions[i])))
  {
    var lowered := LowerAll(TechPositions);
    if exists i :: 0 <= i < |TechPositions| && Contains(Lower(position), Lower(TechPositions[i])) {
      var i :| 0 <= i < |TechPositions| && Contains(Lower(position), Lower(TechPositions[i]));
      assert lowered[i] in lowered;
    }
  }

  // ---------------------------------------------------------------- allocation

  const TechStrategy: seq<(string, int)> := [("linkedin", 30), ("github", 50), ("cakeresume", 20)]
  const NonTechStrategy: seq<(string, int)> := [("linkedin", 60), ("cakeresume", 30), ("company_website", 10)]

  function StrategyFor(isTech: bool): seq<(string, int)>
  {
    if isTech then TechStrategy else NonTechStrategy
  }

  /** Python's int() of total × pct / 100: the quotient truncated toward zero. */
  function Share(total: int, pct: int): int
  {
    var n := total * pct;
    if n >= 0 then n / 100 else -((-n) / 100)
  }

  /** max(1, int(total × pct / 100)) */
  function ChannelCount(total: int, pct: int): (r: int)
    ensures r >= 1
    ensures r == Share(total, pct) || (r == 1 && Share(total, pct) < 1)
  {
    var share := Share(total, pct);
    if share >= 1 then share else 1
  }

  function Keys(strategy: seq<(string, int)>): set<string>
  {
    set i | 0 <= i < |strategy| :: strategy[i].0
  }

  /** The counts dictionary for a strategy, later entries overwriting earlier ones with the same channel. */
  function CountsOf(strategy: seq<(string, int)>, total: int): (r: map<string, int>)
    ensures r.Keys == Keys(strategy)
    ensures forall c :: c in r ==> r[c] >= 1
  {
    if strategy == [] then map[]
    else
      var init := strategy[..|strategy| - 1];
      var last := strategy[|strategy| - 1];
      assert Keys(strategy) == Keys(init) + {last.0} by {
        forall c | c in Keys(strategy) ensures c in Keys(init) + {last.0} {
          var i :| 0 <= i < |strategy| && strategy[i].0 == c;
          if i < |init| { assert init[i] == strategy[i]; }
        }
        forall c | c in Keys(init) ensures c in Keys(strategy) {
          var i :| 0 <= i < |init| && init[i].0 == c;
          assert strategy[i] == init[i];
        }
      }
      CountsOf(init, total)[last.0 := ChannelCount(total, last.1)]
  }

  /** calculate_channel_counts, proved against CountsOf. */
  method CalculateChannelCounts(total: int, isTech: bool) returns (counts: map<string, int>)
    ensures counts == CountsOf(StrategyFor(isTech), total)
  {
    var strategy := StrategyFor(isTech);
    counts := map[];
    var i := 0;
    while i < |strategy|
      invariant 0 <= i <= |strategy|
      invariant counts == CountsOf(strategy[..i], total)
    {
      var entry := strategy[i];
      assert strategy[..i + 1][..i] == strategy[..i];
      counts := counts[entry.0 := ChannelCount(total, entry.1)];
      i := i + 1;
    }
    assert strategy[..i] == strategy;
  }

  /** The tech counts: LinkedIn 30 %, GitHub 50 %, CakeResume 20 %, each at least 1. */
  lemma TechCounts(total: int)
    ensures CountsOf(TechStrategy, total) == map["linkedin" := ChannelCount(total, 30),
      "github" := ChannelCount(total, 50), "cakeresume" := ChannelCount(total, 20)]
  {
    var s := TechStrategy;
    assert s[..1][..0] == [];
    assert CountsOf(s[..1], total) == map[s[0].0 := ChannelCount(total, s[0].1)];
    assert s[..2][..1] == s[..1];
    assert CountsOf(s[..2], total) == CountsOf(s[..1], total)[s[1].0 := ChannelCount(total, s[1].1)];
    assert s[..3] == s;
    assert CountsOf(s, total) == CountsOf(s[..2], total)[s[2].0 := ChannelCount(total, s[2].1)];
  }

  /** The non-tech counts: LinkedIn 60 %, CakeResume 30 %, company websites 10 %, each at least 1. */
  lemma NonTechCounts(total: int)
    ensures CountsOf(NonTechStrategy, total) == map["linkedin" := ChannelCount(total, 60),
      "cakeresume" := ChannelCount(total, 30), "company_website" := ChannelCount(total, 10)]
  {
    var s := NonTechStrategy;
    assert s[..1][..0] == [];
    assert CountsOf(s[..1], total) == map[s[0].0 := ChannelCount(total, s[0].1)];
    assert s[..2][..1] == s[..1];
    assert CountsOf(s[..2], total) == CountsOf(s[..1], total)[s[1].0 := ChannelCount(total, s[1].1)];
    assert s[..3] == s;
    assert CountsOf(s, total) == CountsOf(s[..2], total)[s[2].0 := ChannelCount(total, s[2].1)];
  }

  /** The percentages of both tables sum to 100, so when no share is lifted to 1 the counts never exceed the total. */
  lemma CountsWithinTotal(total: int, isTech: bool)
    requires forall i :: 0 <= i < |StrategyFor(isTech)| ==> Share(total, StrategyFor(isTech)[i].1) >= 1
    ensures isTech ==> ChannelCount(total, 30) + ChannelCount(total, 50) + ChannelCount(total, 20) <= total
    ensures !isTech ==> ChannelCount(total, 60) + ChannelCount(total, 30) + ChannelCount(total, 10) <= total
  {
    var s := StrategyFor(isTech);
    assert Share(total, s[0].1) >= 1 && Share(total, s[1].1) >= 1 && Share(total, s[2].1) >= 1;
    assert total > 0;
  }

  // ---------------------------------------------------------------- searches

  datatype CompanyQuery = CompanyQuery(company: string, query: string)

  datatype Search =
    | ChannelSearch(channel: string, query: string, count: int)
    | CompanySearch(count: int, results: seq<CompanyQuery>)

  function LinkedinQuery(position: string, skills: string): string
  {
    position + " " + skills + " Taiwan site:linkedin.com/in"
  }

  function GithubQuery(skills: string): string
  {
    skills + " Taiwan site:github.com"
  }

  function CakeresumeQuery(position: string, skills: string): string
  {
    position + " " + skills + " site:cakeresume.com"
  }

  function CompanyQueryOf(company: string): CompanyQuery
  {
    CompanyQuery(company, company + " team site:" + company)
  }

  /** target_companies[:count] */
  function FirstCompanies(targets: seq<string>, count: int): (r: seq<string>)
    ensures |r| <= |targets| && (count >= 0 ==> |r| <= count) && r == targets[..|r|]
    ensures count >= 0 ==> |r| == (if count < |targets| then count else |targets|)
    ensures count < 0 ==> |r| == (if |targets| + count < 0 then 0 else |targets| + count)
  {
    if count < 0 then targets[..if |targets| + count < 0 then 0 else |targets| + count]
    else if count < |targets| then targets[..count]
    else targets
  }

  function CompanyQueries(companies: seq<string>): (r: seq<CompanyQuery>)
    ensures |r| == |companies|
    ensures forall i :: 0 <= i < |companies| ==> r[i].company == companies[i]
  {
    if companies == [] then []
    else CompanyQueries(companies[..|companies| - 1]) + [CompanyQueryOf(companies[|companies| - 1])]
  }

  /** search_company_website: one query per company, for the first `count` companies. */
  method SearchCompanyWebsite(targets: seq<string>, count: int) returns (r: Search)
    ensures r == CompanySearch(count, CompanyQueries(FirstCompanies(targets, count)))
  {
    var companies := FirstCompanies(targets, count);
    var results: seq<CompanyQuery> := [];
    var i := 0;
    while i < |companies|
      invariant 0 <= i <= |companies|
      invariant results == CompanyQueries(companies[..i])
    {
      var company := companies[i];
      assert companies[..i + 1][..i] == companies[..i];
      results := results + [CompanyQuery(company, company + " team site:" + company)];
      i := i + 1;
    }
    assert companies[..i] == companies;
    r := CompanySearch(count, results);
  }

  datatype Sourcing = Sourcing(
    position: string,
    skills: string,
    positionType: string,
    isTech: bool,
    totalCount: int,
    channelStrategy: map<string, int>,
    searchResults: seq<Search>,
    timestamp: string)

  /** The searches multi_channel_search runs, in its fixed channel order. */
  function Searches(position: string, skills: string, counts: map<string, int>, targets: seq<string>): seq<Search>
  {
    (if "linkedin" in counts then [ChannelSearch("linkedin", LinkedinQuery(position, skills), counts["linkedin"])] else [])
    + (if "github" in counts then [ChannelSearch("github", GithubQuery(skills), counts["github"])] else [])
    + (if "cakeresume" in counts then [ChannelSearch("cakeresume", CakeresumeQuery(position, skills), counts["cakeresume"])] else [])
    + (if "company_website" in counts && targets != [] then
        [CompanySearch(counts["company_website"], CompanyQueries(FirstCompanies(targets, counts["company_website"])))]
       else [])
  }

  /** multi_channel_search; the clock reading is the `timestamp` parameter and an absent company list is []. */
  function MultiChannelSearch(position: string, skills: string, totalCount: int, targets: seq<string>,
                              timestamp: string): Sourcing
  {
    var isTech := IsTechPosition(position);
    var counts := CountsOf(StrategyFor(isTech), totalCount);
    Sourcing(position, skills, if isTech then "技術職缺" else "非技術職缺", isTech, totalCount, counts,
             Searches(position, skills, counts, targets), timestamp)
  }

  /** A tech title searches LinkedIn, GitHub and CakeResume, with the tech counts. */
  lemma TechSearchPlan(position: string, skills: string, totalCount: int, targets: seq<string>, timestamp: string)
    requires IsTechPosition(position)
    ensures MultiChannelSearch(position, skills, totalCount, targets, timestamp).searchResults == [
      ChannelSearch("linkedin", LinkedinQuery(position, skills), ChannelCount(totalCount, 30)),
      ChannelSearch("github", GithubQuery(skills), ChannelCount(totalCount, 50)),
      ChannelSearch("cakeresume", CakeresumeQuery(position, skills), ChannelCount(totalCount, 20))]
  {
    TechCounts(totalCount);
    TechSearches(position, skills, CountsOf(StrategyFor(true), totalCount), targets);
  }

  lemma TechSearches(position: string, skills: string, counts: map<string, int>, targets: seq<string>)
    requires counts.Keys == {"linkedin", "github", "cakeresume"}
    ensures Searches(position, skills, counts, targets) == [
      ChannelSearch("linkedin", LinkedinQuery(position, skills), counts["linkedin"]),
      ChannelSearch("github", GithubQuery(skills), counts["github"]),
      ChannelSearch("cakeresume", CakeresumeQuery(position, skills), counts["cakeresume"])]
  {
    assert "company_website" !in counts;
  }

  /** Any other title searches LinkedIn and CakeResume, and the company websites only when companies were
      given, visiting at most the company_website count of them, in the given order. */
  lemma NonTechSearchPlan(position: string, skills: string, totalCount: int, targets: seq<string>, timestamp: string)
    requires !IsTechPosition(position)
    ensures var r := MultiChannelSearch(position, skills, totalCount, targets, timestamp).searchResults;
      var websites := ChannelCount(totalCount, 10);
      |r| >= 2 && r[..2] == [ChannelSearch("linkedin", LinkedinQuery(position, skills), ChannelCount(totalCount, 60)),
        ChannelSearch("cakeresume", CakeresumeQuery(position, skills), ChannelCount(totalCount, 30))]
      && (targets == [] <==> |r| == 2)
      && (targets != [] ==>
            |r| == 3 && r[2].CompanySearch? && r[2].count == websites
            && |r[2].results| <= websites && |r[2].results| <= |targets|
            && forall i :: 0 <= i < |r[2].results| ==> r[2].results[i].company == targets[i])
  {
    NonTechCounts(totalCount);
    NonTechSearches(position, skills, CountsOf(StrategyFor(false), totalCount), targets);
  }

  lemma NonTechSearches(position: string, skills: string, counts: map<string, int>, targets: seq<string>)
    requires counts.Keys == {"linkedin", "cakeresume", "company_website"}
    ensures Searches(position, skills, counts, targets) == [
      ChannelSearch("linkedin", LinkedinQuery(position, skills), counts["linkedin"]),
      ChannelSearch("cakeresume", CakeresumeQuery(position, skills), counts["cakeresume"])]
      + (if targets != [] then
           [CompanySearch(counts["company_website"], CompanyQueries(FirstCompanies(targets, counts["company_website"])))]
         else [])
  {
    assert "github" !in counts;
  }
}
