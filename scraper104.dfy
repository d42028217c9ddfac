// The 104 job-search crawler (crawlers/scraper-104.py): the scan over the snapshot's link refs
// that groups them into jobs (a title opens a job, later refs fill its fields in a fixed order),
// the max_results cut-off, and the output rows with their "N/A" defaults.
module Scraper104 {
  import opened Wrappers
  import opened Text
  import opened Seqs
  import opened Pattern

  /** One element of the browser snapshot; a missing key reads as "". */
  datatype Ref = Ref(id: string, name: string, role: string, href: string)

  /** A job being assembled; the five optional fields are the keys current_job may still lack. */
  datatype Job = Job(
    title: string,
    ref: string,
    url: string,
    company: Option<string>,
    industry: Option<string>,
    location: Option<string>,
    salary: Option<string>,
    experience: Option<string>)

  // ---------------------------------------------------------------- ref classification

  predicate IsLink(r: Ref) { r.role == "link" }

  const TitleWords: seq<string> := ["Engineer", "工程師", "Developer", "Backend", "Frontend", "Manager", "主管"]

  /** Engineer|工程師|Developer|Backend|Frontend|Manager|主管, any case */
  const TitlePattern: seq<Atom> := [Words(TitleWords, true)]

  /** Full.?Stack, any case (`.` does not match a newline) */
  const FullStackPattern: seq<Atom> := [Words(["Full"], true), Opt(Not(Chars("\n"))), Words(["Stack"], true)]

  /** The name looks like a job title. */
  predicate IsTitle(name: string)
  {
    Found(TitlePattern, name) || Found(FullStackPattern, name)
  }

  /**
   * The title test as a value. The scan below takes the title test as a parameter `isTitle`,
   * which is always this one; that keeps the regular-expression search out of the proofs about the scan.
   */
  function TitleTest(): string -> bool
  {
    (name: string) => IsTitle(name)
  }

  predicate IsCompany(name: string)
  {
    Contains(name, "股份有限公司") || Contains(name, "有限公司") || Contains(name, "科技")
  }

  predicate IsIndustry(name: string)
  {
    Contains(name, "業") && |name| < 20
  }

  const Cities: seq<string> := ["台北", "新北", "桃園", "新竹", "台中", "台南", "高雄"]

  predicate IsLocation(name: string)
  {
    exists c :: c in Cities && StartsWith(name, c)
  }

  predicate IsSalary(name: string)
  {
    Contains(name, "月薪") || Contains(name, "年薪") || Contains(name, "待遇")
  }

  predicate IsExperience(name: string)
  {
    Contains(name, "年以上") || Contains(name, "經歷不拘")
  }

  const Site: string := "https://www.104.com.tw"

  /** The job link: an absolute href as it is, a relative one under the 104 site. */
  function JobUrl(href: string): (r: string)
    ensures StartsWith(href, "http") ==> r == href
    ensures !StartsWith(href, "http") ==> StartsWith(r, Site) && r[|Site|..] == href
  {
    if StartsWith(href, "http") then href else Site + href
  }

  /** The job a title ref opens: title, ref id and URL, no other field yet. */
  function Opened(r: Ref): Job
  {
    Job(r.name, r.id, JobUrl(r.href), None, None, None, None, None)
  }

  // ---------------------------------------------------------------- the scan

  /** The loop state: the jobs closed so far and the job being assembled (None for the empty dict). */
  datatype Scan = Scan(jobs: seq<Job>, current: Option<Job>)

  /** What a link ref does: a title closes the current job and opens a new one; otherwise the first missing field, if the name fits it. */
  function Step(st: Scan, r: Ref, isTitle: string -> bool): Scan
  {
    if isTitle(r.name) then
      Scan(st.jobs + (if st.current.Some? then [st.current.value] else []), Some(Opened(r)))
    else if st.current.None? then st
    else
      var j := st.current.value;
      var n := r.name;
      if j.company.None? then
        (if IsCompany(n) then Scan(st.jobs, Some(j.(company := Some(n)))) else st)
      else if j.industry.None? then
        (if IsIndustry(n) then Scan(st.jobs, Some(j.(industry := Some(n)))) else st)
      else if j.location.None? then
        (if IsLocation(n) then Scan(st.jobs, Some(j.(location := Some(n)))) else st)
      else if j.salary.None? then
        (if IsSalary(n) then Scan(st.jobs, Some(j.(salary := Some(n)))) else st)
      else if j.experience.None? then
        (if IsExperience(n) then Scan(st.jobs, Some(j.(experience := Some(n)))) else st)
      else st
  }

  /** The ref loop: non-link refs are skipped; after each link ref the loop stops once max_results jobs are closed. */
  function Run(refs: seq<Ref>, maxResults: int, st: Scan, isTitle: string -> bool): Scan
  {
    if refs == [] then st
    else if !IsLink(refs[0]) then Run(refs[1..], maxResults, st, isTitle)
    else
      var next := Step(st, refs[0], isTitle);
      if |next.jobs| >= maxResults then next else Run(refs[1..], maxResults, next, isTitle)
  }

  /** After the loop: the job still being assembled is added when there is room. */
  function Finish(st: Scan, maxResults: int): seq<Job>
  {
    if st.current.Some? && |st.jobs| < maxResults then st.jobs + [st.current.value] else st.jobs
  }

  /** search_104_jobs on a snapshot: None stands for a snapshot that is not valid JSON, which gives no jobs. */
  function Jobs(snapshot: Option<seq<Ref>>, maxResults: int, isTitle: string -> bool): seq<Job>
  {
    match snapshot
    case None => []
    case Some(refs) => Finish(Run(refs, maxResults, Scan([], None), isTitle), maxResults)
  }

  /** search_104_jobs with the script's title test. */
  method SearchJobs(snapshot: Option<seq<Ref>>, maxResults: int) returns (jobs: seq<Job>)
    ensures jobs == Jobs(snapshot, maxResults, TitleTest())
  {
    jobs := ScanRefs(snapshot, maxResults, TitleTest());
  }

  /** The ref loop of search_104_jobs, proved against Run and Finish. */
  method ScanRefs(snapshot: Option<seq<Ref>>, maxResults: int, isTitle: string -> bool) returns (jobs: seq<Job>)
    ensures jobs == Jobs(snapshot, maxResults, isTitle)
  {
    if snapshot.None? {
      return [];
    }
    var refs := snapshot.value;
    jobs := [];
    var current: Option<Job> := None;
    var i := 0;
    while i < |refs|
      invariant 0 <= i <= |refs|
      invariant Run(refs[i..], maxResults, Scan(jobs, current), isTitle) == Run(refs, maxResults, Scan([], None), isTitle)
    {
      var r := refs[i];
      ghost var before := Scan(jobs, current);
      assert refs[i..][0] == r && refs[i..][1..] == refs[i + 1..];
      i := i + 1;
      if r.role != "link" {
        continue;
      }
      if isTitle(r.name) {
        if current.Some? {
          jobs := jobs + [current.value];
        }
        current := Some(Opened(r));
      } else if current.Some? && current.value.company.None? {
        if IsCompany(r.name) {
          current := Some(current.value.(company := Some(r.name)));
        }
      } else if current.Some? && current.value.industry.None? {
        if IsIndustry(r.name) {
          current := Some(current.value.(industry := Some(r.name)));
        }
      } else if current.Some? && current.value.location.None? {
        if IsLocation(r.name) {
          current := Some(current.value.(location := Some(r.name)));
        }
      } else if current.Some? && current.value.salary.None? {
        if IsSalary(r.name) {
          current := Some(current.value.(salary := Some(r.name)));
        }
      } else if current.Some? && current.value.experience.None? {
        if IsExperience(r.name) {
          current := Some(current.value.(experience := Some(r.name)));
        }
      }
      assert Scan(jobs, current) == Step(before, r, isTitle);
      if |jobs| >= maxResults {
        assert Scan(jobs, current) == Run(refs, maxResults, Scan([], None), isTitle);
        break;
      }
    }
    assert Scan(jobs, current) == Run(refs, maxResults, Scan([], None), isTitle);
    if current.Some? && |jobs| < maxResults {
      jobs := jobs + [current.value];
    }
  }

  // ---------------------------------------------------------------- what the scan guarantees

  /** The number of the five optional fields that are set. */
  function Filled(j: Job): nat
  {
    (if j.company.Some? then 1 else 0) + (if j.industry.Some? then 1 else 0) + (if j.location.Some? then 1 else 0)
    + (if j.salary.Some? then 1 else 0) + (if j.experience.Some? then 1 else 0)
  }

  /** b is a with possibly more fields set: nothing a has is changed. */
  predicate Extends(a: Job, b: Job)
  {
    && b.title == a.title && b.ref == a.ref && b.url == a.url
    && (a.company.Some? ==> b.company == a.company)
    && (a.industry.Some? ==> b.industry == a.industry)
    && (a.location.Some? ==> b.location == a.location)
    && (a.salary.Some? ==> b.salary == a.salary)
    && (a.experience.Some? ==> b.experience == a.experience)
  }

  /** Fields are filled strictly in the order company, industry, location, salary, experience. */
  predicate InOrder(j: Job)
  {
    && (j.industry.Some? ==> j.company.Some?)
    && (j.location.Some? ==> j.industry.Some?)
    && (j.salary.Some? ==> j.location.Some?)
    && (j.experience.Some? ==> j.salary.Some?)
  }

  /** A job as the scan builds it: opened by a title ref, fields in order. */
  predicate WellFormed(j: Job, isTitle: string -> bool)
  {
    isTitle(j.title) && InOrder(j)
  }

  predicate AllWellFormed(st: Scan, isTitle: string -> bool)
  {
    && (forall j :: j in st.jobs ==> WellFormed(j, isTitle))
    && (st.current.Some? ==> WellFormed(st.current.value, isTitle))
  }

  /** A link ref that is not a title sets at most one field of the current job, overwrites none, and closes no job. */
  lemma StepFillsOneField(st: Scan, r: Ref, isTitle: string -> bool)
    requires st.current.Some? && !isTitle(r.name)
    ensures Step(st, r, isTitle).jobs == st.jobs && Step(st, r, isTitle).current.Some?
    ensures Extends(st.current.value, Step(st, r, isTitle).current.value)
    ensures Filled(Step(st, r, isTitle).current.value) <= Filled(st.current.value) + 1
    ensures InOrder(st.current.value) ==> InOrder(Step(st, r, isTitle).current.value)
  {
  }

  /** A step closes at most one job, and only when a title ref arrives while a job is open. */
  lemma StepCloses(st: Scan, r: Ref, isTitle: string -> bool)
    ensures |st.jobs| <= |Step(st, r, isTitle).jobs| <= |st.jobs| + 1
    ensures |Step(st, r, isTitle).jobs| == |st.jobs| + 1 ==> st.current.Some? && isTitle(r.name)
    ensures Step(st, r, isTitle).jobs[..|st.jobs|] == st.jobs
  {
  }

  /** Every step keeps the closed jobs and the current one well formed. */
  lemma StepWellFormed(st: Scan, r: Ref, isTitle: string -> bool)
    requires AllWellFormed(st, isTitle)
    ensures AllWellFormed(Step(st, r, isTitle), isTitle)
  {
    if !isTitle(r.name) && st.current.Some? {
      StepFillsOneField(st, r, isTitle);
    }
  }

  /** The loop keeps every job well formed. */
  lemma {:induction false} RunWellFormed(refs: seq<Ref>, maxResults: int, st: Scan, isTitle: string -> bool)
    requires AllWellFormed(st, isTitle)
    ensures AllWellFormed(Run(refs, maxResults, st, isTitle), isTitle)
  {
    if refs != [] {
      if !IsLink(refs[0]) {
        RunWellFormed(refs[1..], maxResults, st, isTitle);
      } else {
        StepWellFormed(st, refs[0], isTitle);
        var next := Step(st, refs[0], isTitle);
        if |next.jobs| < maxResults {
          RunWellFormed(refs[1..], maxResults, next, isTitle);
        }
      }
    }
  }

  /** From fewer than max_results closed jobs the loop closes at most max_results. */
  lemma {:induction false} RunBounded(refs: seq<Ref>, maxResults: int, st: Scan, isTitle: string -> bool)
    requires |st.jobs| < maxResults
    ensures |Run(refs, maxResults, st, isTitle).jobs| <= maxResults
  {
    if refs != [] {
      if !IsLink(refs[0]) {
        RunBounded(refs[1..], maxResults, st, isTitle);
      } else {
        StepCloses(st, refs[0], isTitle);
        var next := Step(st, refs[0], isTitle);
        if |next.jobs| < maxResults {
          RunBounded(refs[1..], maxResults, next, isTitle);
        }
      }
    }
  }

  /** With no job open and none closed, a non-positive max_results stops the loop before any job is closed. */
  lemma {:induction false} RunNonPositive(refs: seq<Ref>, maxResults: int, isTitle: string -> bool)
    requires maxResults <= 0
    ensures Run(refs, maxResults, Scan([], None), isTitle).jobs == []
  {
    if refs != [] {
      if !IsLink(refs[0]) {
        RunNonPositive(refs[1..], maxResults, isTitle);
      } else {
        assert Step(Scan([], None), refs[0], isTitle).jobs == [];
      }
    }
  }

  /** The result never exceeds max_results, is empty for a non-positive one, and holds only well-formed jobs. */
  lemma JobsBounded(snapshot: Option<seq<Ref>>, maxResults: int, isTitle: string -> bool)
    ensures maxResults >= 0 ==> |Jobs(snapshot, maxResults, isTitle)| <= maxResults
    ensures maxResults <= 0 ==> Jobs(snapshot, maxResults, isTitle) == []
    ensures forall j :: j in Jobs(snapshot, maxResults, isTitle) ==> WellFormed(j, isTitle)
  {
    if snapshot.Some? {
      var refs := snapshot.value;
      RunWellFormed(refs, maxResults, Scan([], None), isTitle);
      if maxResults <= 0 {
        RunNonPositive(refs, maxResults, isTitle);
      } else {
        RunBounded(refs, maxResults, Scan([], None), isTitle);
      }
    }
  }

  /** Refs whose role is not link make no difference to the scan. */
  lemma {:induction false} RunIgnoresNonLinks(refs: seq<Ref>, maxResults: int, st: Scan, isTitle: string -> bool)
    ensures Run(refs, maxResults, st, isTitle) == Run(Filter(refs, IsLink), maxResults, st, isTitle)
  {
    if refs != [] {
      var rest := Filter(refs[1..], IsLink);
      if !IsLink(refs[0]) {
        assert Filter(refs, IsLink) == rest;
        RunIgnoresNonLinks(refs[1..], maxResults, st, isTitle);
      } else {
        var f := Filter(refs, IsLink);
        assert f == [refs[0]] + rest;
        assert f[0] == refs[0] && f[1..] == rest;
        var next := Step(st, refs[0], isTitle);
        if |next.jobs| < maxResults {
          RunIgnoresNonLinks(refs[1..], maxResults, next, isTitle);
        }
      }
    }
  }

  // ---------------------------------------------------------------- output rows

  const DefaultMaxResults: int := 20

  /** One output row as main writes it. */
  datatype Row = Row(company: string, jobTitle: string, location: string, salary: string, url: string)

  function FormatJob(j: Job): Row
  {
    Row(j.company.GetOr("N/A"), j.title, j.location.GetOr("N/A"), j.salary.GetOr("N/A"), j.url)
  }

  /** A missing company, location or salary reads "N/A"; a present one is copied, as are the title and URL. */
  lemma FormatJobDefaults(j: Job)
    ensures FormatJob(j).company == (if j.company.Some? then j.company.value else "N/A")
    ensures FormatJob(j).location == (if j.location.Some? then j.location.value else "N/A")
    ensures FormatJob(j).salary == (if j.salary.Some? then j.salary.value else "N/A")
    ensures FormatJob(j).jobTitle == j.title && FormatJob(j).url == j.url
  {
  }

  /** The formatting loop of main. */
  method FormatJobs(jobs: seq<Job>) returns (rows: seq<Row>)
    ensures |rows| == |jobs|
    ensures forall k :: 0 <= k < |jobs| ==> rows[k] == FormatJob(jobs[k])
  {
    rows := [];
    for i := 0 to |jobs|
      invariant |rows| == i
      invariant forall k :: 0 <= k < i ==> rows[k] == FormatJob(jobs[k])
    {
      rows := rows + [FormatJob(jobs[i])];
    }
  }
}
