// The keyword resume/JD matcher (skills/headhunter/scripts/batch-match.py): skills are the
// entries of a fixed list found case-insensitively in the text, experience is the largest
// "N years" figure below 50, and the score is 70 for skills plus 30 for experience.
module BatchMatch {
  import opened Wrappers
  import opened Text
  import opened Pattern
  import Seqs

  const ThresholdHigh := 90
  const ThresholdMid := 70
  const ThresholdLow := 70

  // ---------------------------------------------------------------- skills

  const Languages: seq<string> := ["Python", "Java", "JavaScript", "TypeScript", "Go", "Golang",
    "C++", "C#", "Ruby", "PHP", "Rust", "Kotlin", "Swift", "Scala", "Node.js", "NodeJS"]
  const Frameworks: seq<string> := ["React", "Vue", "Angular", "Express", "FastAPI", "Django",
    "Flask", "Spring", "SpringBoot", "Laravel", "Rails", "Gin", "Next.js", "Nuxt.js", "NestJS"]
  const Databases: seq<string> := ["MySQL", "PostgreSQL", "MongoDB", "Redis", "Elasticsearch",
    "Cassandra", "DynamoDB", "SQL Server", "Oracle", "SQLite"]
  const Cloud: seq<string> := ["AWS", "GCP", "Azure", "Alibaba Cloud", "EC2", "S3", "RDS",
    "Lambda", "CloudFront", "EKS", "ECS"]
  const DevOps: seq<string> := ["Docker", "Kubernetes", "K8s", "Jenkins", "GitLab CI",
    "GitHub Actions", "Terraform", "Ansible", "Prometheus", "Grafana"]
  const Others: seq<string> := ["REST", "RESTful", "GraphQL", "gRPC", "Microservices", "微服務",
    "Agile", "Scrum", "TDD", "CI/CD", "Linux", "Git"]

  const AllSkills: seq<string> := Languages + Frameworks + Databases + Cloud + DevOps + Others

  /** skill.upper() in text.upper() */
  predicate Mentions(text: string, skill: string)
  {
    Contains(Upper(text), Upper(skill))
  }

  function MentionedIn(text: string): string -> bool
  {
    skill => Mentions(text, skill)
  }

  /** What extract_skills finds: the listed skills the text mentions, each once. */
  function SkillsIn(text: string): (r: seq<string>)
    ensures Seqs.NoDup(r)
    ensures forall s :: s in r <==> s in AllSkills && Mentions(text, s)
  {
    Seqs.Dedup(Seqs.Filter(AllSkills, MentionedIn(text)))
  }

  /** The loop of extract_skills over a list of names. */
  method CollectMentioned(names: seq<string>, text: string) returns (found: seq<string>)
    ensures found == Seqs.Filter(names, MentionedIn(text))
  {
    found := [];
    var i := 0;
    while i < |names|
      invariant 0 <= i <= |names|
      invariant found == Seqs.Filter(names[..i], MentionedIn(text))
    {
      var skill := names[i];
      Seqs.FilterAppend(names[..i], [skill], MentionedIn(text));
      assert names[..i + 1] == names[..i] + [skill];
      if Mentions(text, skill) {
        found := found + [skill];
      }
      i := i + 1;
    }
    assert names[..i] == names;
  }

  /** extract_skills: one pass over the list, then the duplicates dropped. */
  method ExtractSkills(text: string) returns (skills: seq<string>)
    ensures skills == SkillsIn(text)
  {
    var found := CollectMentioned(AllSkills, text);
    skills := Seqs.Dedup(found);
  }

  /** Containment is plain substring search, so a short name is found inside a longer word: "Go" in "Google". */
  lemma GoFoundInGoogle()
    ensures "Go" in SkillsIn("Google")
  {
    assert AllSkills[4] == "Go";
    assert OccursAt(Upper("Google"), Upper("Go"), 0);
  }

  // ---------------------------------------------------------------- years of experience

  /** (\d+)\s*[+]?\s*年 */
  const ChineseYears: seq<Atom> := [Plus(Digit), Star(Space), Opt(Chars("+")), Star(Space), Lit("年")]
  /** (\d+)\s*[+]?\s*years? under IGNORECASE */
  const EnglishYears: seq<Atom> :=
    [Plus(Digit), Star(Space), Opt(Chars("+")), Star(Space), Words(["year"], true), Opt(Chars("sS"))]
  /** 經驗\s*[:：]?\s*(\d+) */
  const ExperienceLabel: seq<Atom> := [Lit("經驗"), Star(Space), Opt(Chars(":：")), Star(Space), Plus(Digit)]

  /** Each pattern with the index of its capturing group, in the order they are tried. */
  const YearPatterns: seq<(seq<Atom>, nat)> := [(ChineseYears, 0), (EnglishYears, 0), (ExperienceLabel, 4)]

  predicate NumberGroup(pk: (seq<Atom>, nat))
  {
    pk.1 < |pk.0| && pk.0[pk.1] == Plus(Digit)
  }

  predicate AllDigits(g: string)
  {
    forall i :: 0 <= i < |g| ==> IsDigit(g[i])
  }

  /** int() of the captured digits of one match (0 for a hit that has no such group, which findall never returns). */
  function CapturedNumber(k: nat, text: string, h: Hit): nat
  {
    if Chain(text, h) && k < |h.ends| && AllDigits(Group(text, h, k)) then ParseNat(Group(text, h, k)) else 0
  }

  /** For every hit findall reports, the number is int() of the captured group. */
  lemma CapturedNumberIsInt(pk: (seq<Atom>, nat), text: string, h: Hit)
    requires NumberGroup(pk) && h in FindAll(pk.0, text, 0)
    ensures Chain(text, h) && pk.1 < |h.ends| && Group(text, h, pk.1) != [] && AllDigits(Group(text, h, pk.1))
    ensures CapturedNumber(pk.1, text, h) == ParseNat(Group(text, h, pk.1))
  {
    GroupInClass(pk.0, text, h, pk.1);
    var g := Group(text, h, pk.1);
    forall i | 0 <= i < |g| ensures IsDigit(g[i]) { assert g[i] in g; }
  }

  /** Every number taken from a match of one of the three patterns is int() of its digit group. */
  lemma YearNumbersAreInts(n: nat, text: string, h: Hit)
    requires n < |YearPatterns| && h in FindAll(YearPatterns[n].0, text, 0)
    ensures var k := YearPatterns[n].1;
      Chain(text, h) && k < |h.ends| && Group(text, h, k) != [] && AllDigits(Group(text, h, k))
      && CapturedNumber(k, text, h) == ParseNat(Group(text, h, k))
  {
    YearPatternsNumbered(n);
    CapturedNumberIsInt(YearPatterns[n], text, h);
  }

  lemma YearPatternsNumbered(n: nat)
    requires n < |YearPatterns|
    ensures NumberGroup(YearPatterns[n])
  {
  }

  function CapturedNumbers(k: nat, text: string, hits: seq<Hit>): (r: seq<nat>)
    ensures |r| == |hits|
  {
    if hits == [] then []
    else CapturedNumbers(k, text, hits[..|hits| - 1]) + [CapturedNumber(k, text, hits[|hits| - 1])]
  }

  /** The numbers re.findall returns for pattern n. */
  function NumbersOf(pats: seq<(seq<Atom>, nat)>, n: nat, text: string): seq<nat>
    requires n < |pats|
  {
    CapturedNumbers(pats[n].1, text, FindAll(pats[n].0, text, 0))
  }

  /** The numbers of the first n patterns, in the order the loop meets them. */
  function NumbersUpTo(pats: seq<(seq<Atom>, nat)>, n: nat, text: string): seq<nat>
    requires n <= |pats|
  {
    if n == 0 then [] else NumbersUpTo(pats, n - 1, text) + NumbersOf(pats, n - 1, text)
  }

  /** max(best, years) when years < 50. */
  function Keep(best: nat, years: nat): nat
  {
    if years < 50 && years > best then years else best
  }

  /** Keep applied to every number of ys in turn, starting from best. */
  function KeepAll(best: nat, ys: seq<nat>): nat
  {
    if ys == [] then best else Keep(KeepAll(best, ys[..|ys| - 1]), ys[|ys| - 1])
  }

  lemma {:induction false} KeepAllAppend(best: nat, xs: seq<nat>, ys: seq<nat>)
    ensures KeepAll(best, xs + ys) == KeepAll(KeepAll(best, xs), ys)
  {
    if ys == [] {
      assert xs + ys == xs;
    } else {
      var init := ys[..|ys| - 1];
      KeepAllAppend(best, xs, init);
      assert (xs + ys)[..|xs + ys| - 1] == xs + init;
    }
  }

  function ExperienceYears(text: string): nat
  {
    KeepAll(0, NumbersUpTo(YearPatterns, |YearPatterns|, text))
  }

  /** Starting from 0, the result is the largest number below 50 among xs, or 0 when there is none. */
  lemma {:induction false} KeepAllIsMax(xs: seq<nat>)
    ensures KeepAll(0, xs) < 50
    ensures KeepAll(0, xs) == 0 || KeepAll(0, xs) in xs
    ensures forall x :: x in xs && x < 50 ==> x <= KeepAll(0, xs)
  {
    if xs != [] {
      var init := xs[..|xs| - 1];
      KeepAllIsMax(init);
      assert xs == init + [xs[|xs| - 1]];
    }
  }

  /** extract_experience_years is the largest captured number below 50 across the three patterns, or 0. */
  lemma ExperienceYearsIsMax(text: string)
    ensures ExperienceYears(text) < 50
    ensures ExperienceYears(text) == 0 || ExperienceYears(text) in NumbersUpTo(YearPatterns, |YearPatterns|, text)
    ensures forall x :: x in NumbersUpTo(YearPatterns, |YearPatterns|, text) && x < 50 ==> x <= ExperienceYears(text)
  {
    KeepAllIsMax(NumbersUpTo(YearPatterns, |YearPatterns|, text));
  }

  /** The inner loop of extract_experience_years: the matches of one pattern in turn. */
  method KeepMatches(k: nat, text: string, matches: seq<Hit>, best: nat) returns (maxYears: nat)
    ensures maxYears == KeepAll(best, CapturedNumbers(k, text, matches))
  {
    maxYears := best;
    var j := 0;
    while j < |matches|
      invariant 0 <= j <= |matches|
      invariant maxYears == KeepAll(best, CapturedNumbers(k, text, matches[..j]))
    {
      var years := CapturedNumber(k, text, matches[j]);
      KeepNext(best, k, text, matches, j);
      if years < 50 {
        maxYears := if maxYears >= years then maxYears else years;
      }
      j := j + 1;
    }
    assert matches[..j] == matches;
  }

  /** Taking one more match keeps the running maximum of the numbers so far, and then the new number. */
  lemma KeepNext(best: nat, k: nat, text: string, hs: seq<Hit>, j: nat)
    requires j < |hs|
    ensures KeepAll(best, CapturedNumbers(k, text, hs[..j + 1]))
         == Keep(KeepAll(best, CapturedNumbers(k, text, hs[..j])), CapturedNumber(k, text, hs[j]))
  {
    var ys := CapturedNumbers(k, text, hs[..j + 1]);
    assert hs[..j + 1][..j] == hs[..j];
    assert ys == CapturedNumbers(k, text, hs[..j]) + [CapturedNumber(k, text, hs[j])];
    assert ys[..|ys| - 1] == CapturedNumbers(k, text, hs[..j]);
  }

  /** Taking one more pattern continues the running maximum over that pattern's numbers. */
  lemma KeepAcrossNext(pats: seq<(seq<Atom>, nat)>, n: nat, text: string)
    requires n < |pats|
    ensures KeepAll(0, NumbersUpTo(pats, n + 1, text))
         == KeepAll(KeepAll(0, NumbersUpTo(pats, n, text)), CapturedNumbers(pats[n].1, text, FindAll(pats[n].0, text, 0)))
  {
    KeepAllAppend(0, NumbersUpTo(pats, n, text), NumbersOf(pats, n, text));
  }

  /** extract_experience_years: every pattern in turn, every match of it in turn. */
  method ExtractExperienceYears(text: string) returns (maxYears: nat)
    ensures maxYears == ExperienceYears(text)
  {
    maxYears := KeepAcross(YearPatterns, text);
  }

  /** The outer loop of extract_experience_years: the patterns in turn. */
  method KeepAcross(pats: seq<(seq<Atom>, nat)>, text: string) returns (maxYears: nat)
    ensures maxYears == KeepAll(0, NumbersUpTo(pats, |pats|, text))
  {
    maxYears := 0;
    var n := 0;
    while n < |pats|
      invariant 0 <= n <= |pats|
      invariant maxYears == KeepAll(0, NumbersUpTo(pats, n, text))
    {
      var pk := pats[n];
      var matches := FindAll(pk.0, text, 0);
      KeepAcrossNext(pats, n, text);
      maxYears := KeepMatches(pk.1, text, matches, maxYears);
      n := n + 1;
    }
  }

  // ---------------------------------------------------------------- score

  function Uppers(skills: seq<string>): set<string>
  {
    set s | s in skills :: Upper(s)
  }

  /** A subset is no larger than its superset, and one of the same size is the superset. */
  lemma {:induction false} SubsetSize<T>(a: set<T>, b: set<T>)
    requires a <= b
    ensures |a| <= |b|
    ensures |a| == |b| ==> a == b
    decreases |a|
  {
    if a != {} {
      var x :| x in a;
      SubsetSize(a - {x}, b - {x});
      assert a == (a - {x}) + {x} && b == (b - {x}) + {x};
    }
  }

  lemma {:induction false} UppersSize(skills: seq<string>)
    ensures |Uppers(skills)| <= |skills|
  {
    if skills != [] {
      var init := skills[..|skills| - 1];
      UppersSize(init);
      assert Uppers(skills) == Uppers(init) + {Upper(skills[|skills| - 1])} by {
        assert forall s :: s in skills <==> s in init || s == skills[|skills| - 1];
      }
    }
  }

  /** skill.upper() in [s.upper() for s in resume_skills] */
  predicate Has(resumeSkills: seq<string>, skill: string)
  {
    Upper(skill) in Uppers(resumeSkills)
  }

  /** The JD skills the resume has, in JD order. */
  function Present(jdSkills: seq<string>, resumeSkills: seq<string>): (r: seq<string>)
    ensures forall s :: s in r <==> s in jdSkills && Has(resumeSkills, s)
  {
    if jdSkills == [] then []
    else
      var last := jdSkills[|jdSkills| - 1];
      var init := jdSkills[..|jdSkills| - 1];
      assert forall s :: s in jdSkills <==> s in init || s == last;
      Present(init, resumeSkills) + (if Has(resumeSkills, last) then [last] else [])
  }

  /** The JD skills the resume lacks, in JD order. */
  function Absent(jdSkills: seq<string>, resumeSkills: seq<string>): (r: seq<string>)
    ensures forall s :: s in r <==> s in jdSkills && !Has(resumeSkills, s)
  {
    if jdSkills == [] then []
    else
      var last := jdSkills[|jdSkills| - 1];
      var init := jdSkills[..|jdSkills| - 1];
      assert forall s :: s in jdSkills <==> s in init || s == last;
      Absent(init, resumeSkills) + (if Has(resumeSkills, last) then [] else [last])
  }

  /** Every JD skill lands in exactly one of the two lists, and together they have one entry per JD skill. */
  lemma {:induction false} SkillsPartition(jdSkills: seq<string>, resumeSkills: seq<string>)
    ensures |Present(jdSkills, resumeSkills)| + |Absent(jdSkills, resumeSkills)| == |jdSkills|
    ensures forall s :: s in jdSkills ==> (s in Present(jdSkills, resumeSkills) <==> s !in Absent(jdSkills, resumeSkills))
  {
    if jdSkills != [] {
      SkillsPartition(jdSkills[..|jdSkills| - 1], resumeSkills);
    }
  }

  const Tick := " ✓"
  const Gap := "（缺少）"

  /** Each skill with the marker appended. */
  function Suffixed(skills: seq<string>, suffix: string): (r: seq<string>)
    ensures |r| == |skills|
  {
    if skills == [] then [] else Suffixed(skills[..|skills| - 1], suffix) + [skills[|skills| - 1] + suffix]
  }

  /** Distinct upper-cased names common to both lists. */
  function CommonCount(resumeSkills: seq<string>, jdSkills: seq<string>): nat
  {
    |Uppers(resumeSkills) * Uppers(jdSkills)|
  }

  /** A share of a positive whole, scaled by k, lies between 0 and k. */
  lemma ScaledShare(m: real, l: real, k: real)
    requires 0.0 <= m <= l && 0.0 < l && 0.0 <= k
    ensures 0.0 <= m / l * k <= k
  {
  }

  /** The skill part: 70 × common / |jd_skills|, or 35 when the JD names no skill. */
  function SkillPart(resumeSkills: seq<string>, jdSkills: seq<string>): (r: real)
    ensures 0.0 <= r <= 70.0
  {
    if |jdSkills| > 0 then
      assert CommonCount(resumeSkills, jdSkills) <= |jdSkills| by {
        UppersSize(jdSkills);
        SubsetSize(Uppers(resumeSkills) * Uppers(jdSkills), Uppers(jdSkills));
      }
      ScaledShare(CommonCount(resumeSkills, jdSkills) as real, |jdSkills| as real, 70.0);
      CommonCount(resumeSkills, jdSkills) as real / |jdSkills| as real * 70.0
    else 35.0
  }

  /** The experience part: 30, 20 or 10 against a stated requirement, 15 without one. */
  function ExperiencePart(resumeExp: nat, jdExp: nat): int
  {
    if jdExp > 0 then
      if resumeExp >= jdExp then 30 else if resumeExp + 1 >= jdExp then 20 else 10
    else 15
  }

  /** The experience line: a match item when the requirement is met, a gap item when it is not. */
  function ExperienceItem(resumeExp: nat, jdExp: nat): Option<(bool, string)>
  {
    if jdExp == 0 then None
    else if resumeExp >= jdExp then Some((true, NatToString(resumeExp) + "年經驗 ✓"))
    else if resumeExp + 1 >= jdExp then
      Some((false, "經驗略少（需" + NatToString(jdExp) + "年，有" + NatToString(resumeExp) + "年）"))
    else Some((false, "經驗不足（需" + NatToString(jdExp) + "年，有" + NatToString(resumeExp) + "年）"))
  }

  datatype Scored = Scored(score: int, matchItems: seq<string>, gapItems: seq<string>)

  /** What calculate_match_score returns. */
  function ScoreOf(resumeSkills: seq<string>, jdSkills: seq<string>, resumeExp: nat, jdExp: nat): Scored
  {
    var total := SkillPart(resumeSkills, jdSkills) + ExperiencePart(resumeExp, jdExp) as real;
    var item := ExperienceItem(resumeExp, jdExp);
    var skillMatches := if |jdSkills| > 0 then Suffixed(Present(jdSkills, resumeSkills), Tick) else [];
    var skillGaps := if |jdSkills| > 0 then Suffixed(Absent(jdSkills, resumeSkills), Gap) else [];
    Scored(total.Floor,
      skillMatches + (if item.Some? && item.value.0 then [item.value.1] else []),
      skillGaps + (if item.Some? && !item.value.0 then [item.value.1] else []))
  }

  /** The score is the truncated total and always lies in [10, 100]; each JD skill gives exactly one item. */
  lemma ScoreBounds(resumeSkills: seq<string>, jdSkills: seq<string>, resumeExp: nat, jdExp: nat)
    ensures var r := ScoreOf(resumeSkills, jdSkills, resumeExp, jdExp);
      10 <= r.score <= 100
      && r.score as real <= SkillPart(resumeSkills, jdSkills) + ExperiencePart(resumeExp, jdExp) as real < r.score as real + 1.0
      && |r.matchItems| + |r.gapItems| == |jdSkills| + (if jdExp > 0 then 1 else 0)
  {
    SkillsPartition(jdSkills, resumeSkills);
  }

  /** The full 70 for skills means the resume has every JD skill. */
  lemma FullSkillMarks(resumeSkills: seq<string>, jdSkills: seq<string>)
    requires |jdSkills| > 0 && SkillPart(resumeSkills, jdSkills) == 70.0
    ensures Absent(jdSkills, resumeSkills) == []
  {
    var common := Uppers(resumeSkills) * Uppers(jdSkills);
    var c := |common|;
    var n := |jdSkills|;
    UppersSize(jdSkills);
    SubsetSize(common, Uppers(jdSkills));
    assert c == n;
    forall s | s in jdSkills
      ensures Has(resumeSkills, s)
    {
      assert Upper(s) in Uppers(jdSkills);
    }
    NothingAbsent(jdSkills, resumeSkills);
  }

  lemma {:induction false} NothingAbsent(jdSkills: seq<string>, resumeSkills: seq<string>)
    requires forall s :: s in jdSkills ==> Has(resumeSkills, s)
    ensures Absent(jdSkills, resumeSkills) == []
  {
    if jdSkills != [] {
      NothingAbsent(jdSkills[..|jdSkills| - 1], resumeSkills);
      assert jdSkills[|jdSkills| - 1] in jdSkills;
    }
  }

  /** One more JD skill goes to the end of exactly one of the two lists. */
  lemma SplitStep(jdSkills: seq<string>, i: nat, resumeSkills: seq<string>)
    requires i < |jdSkills|
    ensures Has(resumeSkills, jdSkills[i]) ==>
      Present(jdSkills[..i + 1], resumeSkills) == Present(jdSkills[..i], resumeSkills) + [jdSkills[i]]
      && Absent(jdSkills[..i + 1], resumeSkills) == Absent(jdSkills[..i], resumeSkills)
    ensures !Has(resumeSkills, jdSkills[i]) ==>
      Present(jdSkills[..i + 1], resumeSkills) == Present(jdSkills[..i], resumeSkills)
      && Absent(jdSkills[..i + 1], resumeSkills) == Absent(jdSkills[..i], resumeSkills) + [jdSkills[i]]
  {
    assert jdSkills[..i + 1][..i] == jdSkills[..i];
    assert Present(jdSkills[..i], resumeSkills) + [] == Present(jdSkills[..i], resumeSkills);
    assert Absent(jdSkills[..i], resumeSkills) + [] == Absent(jdSkills[..i], resumeSkills);
  }

  lemma SuffixedSnoc(skills: seq<string>, skill: string, suffix: string)
    ensures Suffixed(skills + [skill], suffix) == Suffixed(skills, suffix) + [skill + suffix]
  {
    assert (skills + [skill])[..|skills|] == skills;
  }

  /** The skill loop of calculate_match_score: a tick for each JD skill the resume has, a gap for each it lacks. */
  method SkillItems(resumeSkills: seq<string>, jdSkills: seq<string>) returns (matchItems: seq<string>, gapItems: seq<string>)
    ensures matchItems == Suffixed(Present(jdSkills, resumeSkills), Tick)
    ensures gapItems == Suffixed(Absent(jdSkills, resumeSkills), Gap)
  {
    matchItems := [];
    gapItems := [];
    var i := 0;
    while i < |jdSkills|
      invariant 0 <= i <= |jdSkills|
      invariant matchItems == Suffixed(Present(jdSkills[..i], resumeSkills), Tick)
      invariant gapItems == Suffixed(Absent(jdSkills[..i], resumeSkills), Gap)
    {
      var skill := jdSkills[i];
      SplitStep(jdSkills, i, resumeSkills);
      if Upper(skill) in Uppers(resumeSkills) {
        SuffixedSnoc(Present(jdSkills[..i], resumeSkills), skill, Tick);
        matchItems := matchItems + [skill + Tick];
      } else {
        SuffixedSnoc(Absent(jdSkills[..i], resumeSkills), skill, Gap);
        gapItems := gapItems + [skill + Gap];
      }
      i := i + 1;
    }
    assert jdSkills[..i] == jdSkills;
  }

  /** calculate_match_score: the skill loop fills the two item lists in JD order, then the experience line is added. */
  method CalculateMatchScore(resumeSkills: seq<string>, jdSkills: seq<string>, resumeExp: nat, jdExp: nat)
    returns (score: int, matchItems: seq<string>, gapItems: seq<string>)
    ensures score == ScoreOf(resumeSkills, jdSkills, resumeExp, jdExp).score
    ensures matchItems == ScoreOf(resumeSkills, jdSkills, resumeExp, jdExp).matchItems
    ensures gapItems == ScoreOf(resumeSkills, jdSkills, resumeExp, jdExp).gapItems
  {
    var total: real := 0.0;
    matchItems := [];
    gapItems := [];
    if |jdSkills| > 0 {
      total := total + SkillPart(resumeSkills, jdSkills);
      matchItems, gapItems := SkillItems(resumeSkills, jdSkills);
    } else {
      total := total + 35.0;
    }
    var points, line := ExperienceLine(resumeExp, jdExp);
    total := total + points as real;
    if line.Some? {
      if line.value.0 {
        matchItems := matchItems + [line.value.1];
      } else {
        gapItems := gapItems + [line.value.1];
      }
    }
    score := total.Floor;
  }

  /** The experience branch of calculate_match_score. */
  method ExperienceLine(resumeExp: nat, jdExp: nat) returns (points: int, line: Option<(bool, string)>)
    ensures points == ExperiencePart(resumeExp, jdExp) && line == ExperienceItem(resumeExp, jdExp)
  {
    if jdExp > 0 {
      if resumeExp >= jdExp {
        points := 30;
        line := Some((true, NatToString(resumeExp) + "年經驗 ✓"));
      } else if resumeExp >= jdExp - 1 {
        points := 20;
        line := Some((false, "經驗略少（需" + NatToString(jdExp) + "年，有" + NatToString(resumeExp) + "年）"));
      } else {
        points := 10;
        line := Some((false, "經驗不足（需" + NatToString(jdExp) + "年，有" + NatToString(resumeExp) + "年）"));
      }
    } else {
      points := 15;
      line := None;
    }
  }

  // ---------------------------------------------------------------- one resume, a batch

  datatype Status = High | Mid | Low

  function StatusOf(score: int): Status
  {
    if score >= ThresholdHigh then High else if score >= ThresholdMid then Mid else Low
  }

  /** The report's three buckets (≥ high, mid up to high, < low) partition all scores and agree with the status. */
  lemma BucketsPartition(score: int)
    ensures (score >= ThresholdHigh) <==> StatusOf(score) == High
    ensures (ThresholdMid <= score < ThresholdHigh) <==> StatusOf(score) == Mid
    ensures (score < ThresholdLow) <==> StatusOf(score) == Low
  {
  }

  datatype Report = Report(
    id: string,
    name: string,
    score: int,
    status: Status,
    resumeSkills: seq<string>,
    jdSkills: seq<string>,
    resumeExp: nat,
    jdExp: nat,
    matchItems: seq<string>,
    gapItems: seq<string>)

  /** match_resume_to_jd, before batch_match sets id and name. */
  function ReportOf(resumeText: string, jdText: string): Report
  {
    var resumeSkills := SkillsIn(resumeText);
    var jdSkills := SkillsIn(jdText);
    var resumeExp := ExperienceYears(resumeText);
    var jdExp := ExperienceYears(jdText);
    var s := ScoreOf(resumeSkills, jdSkills, resumeExp, jdExp);
    Report("", "", s.score, StatusOf(s.score), resumeSkills, jdSkills, resumeExp, jdExp, s.matchItems, s.gapItems)
  }

  method MatchResumeToJd(resumeText: string, jdText: string) returns (r: Report)
    ensures r == ReportOf(resumeText, jdText)
  {
    var resumeSkills := ExtractSkills(resumeText);
    var jdSkills := ExtractSkills(jdText);
    var resumeExp := ExtractExperienceYears(resumeText);
    var jdExp := ExtractExperienceYears(jdText);
    var score, matchItems, gapItems := CalculateMatchScore(resumeSkills, jdSkills, resumeExp, jdExp);
    var status := if score >= ThresholdHigh then High else if score >= ThresholdMid then Mid else Low;
    r := Report("", "", score, status, resumeSkills, jdSkills, resumeExp, jdExp, matchItems, gapItems);
  }

  datatype Resume = Resume(id: Option<string>, name: Option<string>, text: string)

  /** The report for the i-th resume (counted from 0), with the id and name defaults. */
  function Labelled(resume: Resume, i: nat, jdText: string): Report
  {
    ReportOf(resume.text, jdText).(
      id := resume.id.GetOr("Resume-" + NatToString(i + 1)),
      name := resume.name.GetOr("候選人 " + NatToString(i + 1)))
  }

  function LabelFor(jdText: string): (Resume, nat) -> Report
  {
    (resume: Resume, i: nat) => Labelled(resume, i, jdText)
  }

  /** [f(xs[0], 0), f(xs[1], 1), ...] */
  function MapIndexed<A, B>(xs: seq<A>, f: (A, nat) -> B): (r: seq<B>)
    ensures |r| == |xs| && forall i :: 0 <= i < |xs| ==> r[i] == f(xs[i], i)
  {
    seq(|xs|, i requires 0 <= i < |xs| => f(xs[i], i))
  }

  lemma MapIndexedStep<A, B>(xs: seq<A>, i: nat, f: (A, nat) -> B)
    requires i < |xs|
    ensures MapIndexed(xs[..i + 1], f) == MapIndexed(xs[..i], f) + [f(xs[i], i)]
  {
  }

  /** One report per resume, in input order. */
  function Reports(resumes: seq<Resume>, jdText: string): (r: seq<Report>)
    ensures |r| == |resumes|
    ensures forall i :: 0 <= i < |resumes| ==> r[i] == Labelled(resumes[i], i, jdText)
  {
    MapIndexed(resumes, LabelFor(jdText))
  }

  function NegScore(r: Report): int { -r.score }

  /** results.sort(key=score, reverse=True): a stable sort on the negated score. */
  function Rank(reports: seq<Report>): seq<Report>
  {
    Seqs.SortBy(reports, NegScore)
  }

  function Ranked(resumes: seq<Resume>, jdText: string): seq<Report>
  {
    Rank(Reports(resumes, jdText))
  }

  /** The same reports, highest score first. */
  lemma RankOrdered(reports: seq<Report>)
    ensures multiset(Rank(reports)) == multiset(reports) && |Rank(reports)| == |reports|
    ensures forall i, j :: 0 <= i < j < |reports| ==> Rank(reports)[i].score >= Rank(reports)[j].score
  {
    Seqs.SortBySorted(reports, NegScore);
  }

  /** Reports with equal scores keep their order. */
  lemma RankStable(reports: seq<Report>, score: int)
    ensures Seqs.WithKey(Rank(reports), NegScore, -score) == Seqs.WithKey(reports, NegScore, -score)
  {
    Seqs.SortByStable(reports, NegScore, -score);
  }

  /** batch_match: match every resume, label it, then sort. */
  method BatchMatchResumes(resumes: seq<Resume>, jdText: string) returns (results: seq<Report>)
    ensures results == Ranked(resumes, jdText)
  {
    var built: seq<Report> := [];
    var i := 0;
    while i < |resumes|
      invariant 0 <= i <= |resumes|
      invariant built == Reports(resumes[..i], jdText)
    {
      var r := MatchResumeToJd(resumes[i].text, jdText);
      r := r.(id := resumes[i].id.GetOr("Resume-" + NatToString(i + 1)),
              name := resumes[i].name.GetOr("候選人 " + NatToString(i + 1)));
      assert r == Labelled(resumes[i], i, jdText);
      MapIndexedStep(resumes, i, LabelFor(jdText));
      built := built + [r];
      i := i + 1;
    }
    assert resumes[..i] == resumes;
    results := Rank(built);
  }
}
