// The pipeline dashboard (skills/headhunter/scripts/dashboard.py): job and candidate lists, status
// updates and the overview built from them. The two files are the store's lists; the clock is a
// parameter and timestamps are whole seconds.
module Dashboard {
  import opened Wrappers
  import Text
  import Seqs

  const DaySeconds := 86400

  datatype Job = Job(
    id: string,
    client: string,
    title: string,
    requirements: seq<string>,
    salary: Option<string>,
    notes: Option<string>,
    status: Option<string>,
    createdAt: nat,
    candidates: seq<string>)

  datatype HistoryEntry = HistoryEntry(status: string, jobId: Option<string>, notes: string, timestamp: nat)

  /** A candidate record; a record read back from the file may lack status, updated_at or history. */
  datatype Candidate = Candidate(
    id: string,
    name: string,
    currentCompany: Option<string>,
    currentTitle: Option<string>,
    skills: seq<string>,
    experience: Option<string>,
    expectedSalary: Option<string>,
    status: Option<string>,
    jobs: seq<string>,
    createdAt: nat,
    updatedAt: Option<nat>,
    history: Option<seq<HistoryEntry>>)

  /** PIPELINE_STAGES: the display label of each stage. */
  function StageLabel(stage: string): Option<string>
  {
    if stage == "new" then Some("🆕 新進件")
    else if stage == "matching" then Some("🔍 匹配中")
    else if stage == "recommended" then Some("📤 已推薦")
    else if stage == "interview" then Some("🎤 面試中")
    else if stage == "offer" then Some("💰 Offer中")
    else if stage == "placed" then Some("✅ 已報到")
    else if stage == "closed" then Some("❌ 已結案")
    else if stage == "pool" then Some("📋 履歷池")
    else None
  }

  const Stages: set<string> := {"new", "matching", "recommended", "interview", "offer", "placed", "closed", "pool"}

  /** "<prefix>%03d". */
  function NumberedId(prefix: string, n: nat): string
  {
    prefix + Text.ZeroPad(n, 3)
  }

  /** Ids made from distinct numbers with the same prefix differ. */
  lemma NumberedIdInjective(prefix: string, a: nat, b: nat)
    requires NumberedId(prefix, a) == NumberedId(prefix, b)
    ensures a == b
  {
    assert Text.ZeroPad(a, 3) == NumberedId(prefix, a)[|prefix|..];
    assert Text.ZeroPad(b, 3) == NumberedId(prefix, b)[|prefix|..];
    Text.ZeroPadInjective(a, b, 3);
  }

  // ---------------------------------------------------------------- status updates

  /** Python truthiness of an optional string. */
  predicate Truthy(s: Option<string>) { s.Some? && s.value != "" }

  /** The record after a status update: new status and stamp, the job linked once, a history entry only with notes. */
  function StatusUpdated(c: Candidate, newStatus: string, jobId: Option<string>, notes: Option<string>, now: nat): Candidate
  {
    var jobs := if Truthy(jobId) && jobId.value !in c.jobs then c.jobs + [jobId.value] else c.jobs;
    var history := if Truthy(notes) then Some(c.history.GetOr([]) + [HistoryEntry(newStatus, jobId, notes.value, now)])
                   else c.history;
    c.(status := Some(newStatus), updatedAt := Some(now), jobs := jobs, history := history)
  }

  /** An update keeps the identity and profile, keeps the job links free of repeats, links the given job and logs only noted updates. */
  lemma StatusUpdatedShape(c: Candidate, newStatus: string, jobId: Option<string>, notes: Option<string>, now: nat)
    ensures var r := StatusUpdated(c, newStatus, jobId, notes, now);
      r.id == c.id && r.name == c.name && r.skills == c.skills && r.createdAt == c.createdAt
      && r.status == Some(newStatus) && r.updatedAt == Some(now)
      && (Seqs.NoDup(c.jobs) ==> Seqs.NoDup(r.jobs))
      && (forall j :: j in r.jobs <==> j in c.jobs || (Truthy(jobId) && j == jobId.value))
      && r.jobs[..|c.jobs|] == c.jobs
      && (Truthy(notes) ==> r.history.Some? && |r.history.value| == |c.history.GetOr([])| + 1
                            && r.history.value[..|c.history.GetOr([])|] == c.history.GetOr([]))
      && (!Truthy(notes) ==> r.history == c.history)
      && (Truthy(notes) ==> r.history.value[|c.history.GetOr([])|] == HistoryEntry(newStatus, jobId, notes.value, now))
      && r == c.(status := r.status, updatedAt := r.updatedAt, jobs := r.jobs, history := r.history)
  {
  }

  /** The index of the first candidate with the id, if any. */
  function FirstWithId(cs: seq<Candidate>, id: string): (r: Option<nat>)
    ensures r.Some? ==>
              r.value < |cs| && cs[r.value].id == id
              && forall j :: 0 <= j < r.value ==> cs[j].id != id
    ensures r.None? ==> forall j :: 0 <= j < |cs| ==> cs[j].id != id
  {
    Seqs.FirstWith(cs, CandidateId, id)
  }

  // ---------------------------------------------------------------- the overview

  /** c.get('status', 'pool'). */
  function StageOf(c: Candidate): string { c.status.GetOr("pool") }

  /** How many candidates sit in one of the given stages. */
  function CountIn(cs: seq<Candidate>, stages: set<string>): (n: nat)
    ensures n <= |cs|
  {
    if cs == [] then 0 else (if StageOf(cs[0]) in stages then 1 else 0) + CountIn(cs[1..], stages)
  }

  /** Counting two disjoint groups of stages separately is counting their union. */
  lemma {:induction false} CountInUnion(cs: seq<Candidate>, a: set<string>, b: set<string>)
    requires a !! b
    ensures CountIn(cs, a + b) == CountIn(cs, a) + CountIn(cs, b)
  {
    if cs != [] {
      CountInUnion(cs[1..], a, b);
    }
  }

  function StageCount(cs: seq<Candidate>, stage: string): nat
  {
    CountIn(cs, {stage})
  }

  datatype Summary = Summary(totalJobs: nat, activeJobs: nat, totalCandidates: nat, inPool: nat, inProcess: nat, placed: nat)

  /** One line of recent_activity. */
  datatype Activity = Activity(id: string, name: string, status: string, updated: Option<nat>)

  datatype Overview = Overview(
    generatedAt: nat,
    summary: Summary,
    pipeline: map<string, nat>,
    needFollowup: nat,
    recentActivity: seq<Activity>)

  /** The sort key of recent_activity: a missing updated_at sorts as the empty string, before every stamp. */
  function Stamp(c: Candidate): int
  {
    match c.updatedAt
    case None => -1
    case Some(t) => t
  }

  function Newest(c: Candidate): int { -Stamp(c) }

  /** The five most recently updated candidates, newest first, ties in file order. */
  function RecentCandidates(cs: seq<Candidate>): (r: seq<Candidate>)
    ensures |r| == if |cs| < 5 then |cs| else 5
    ensures forall i, j :: 0 <= i < j < |r| ==> Stamp(r[i]) >= Stamp(r[j])
    ensures forall c :: c in r ==> c in cs
    ensures multiset(r) <= multiset(cs)
  {
    var sorted := Seqs.SortBy(cs, Newest);
    Seqs.SortBySorted(cs, Newest);
    var n := if |cs| < 5 then |cs| else 5;
    assert forall c :: c in sorted[..n] ==> c in sorted;
    assert sorted == sorted[..n] + sorted[n..];
    sorted[..n]
  }

  /** Nobody left out of recent_activity was updated later than the last one shown. */
  lemma RecentAreLatest(cs: seq<Candidate>)
    ensures var r := RecentCandidates(cs);
      forall c :: c in cs && c !in r ==> |r| == 5 && Stamp(c) <= Stamp(r[4])
  {
    var sorted := Seqs.SortBy(cs, Newest);
    Seqs.SortBySorted(cs, Newest);
    var r := RecentCandidates(cs);
    forall c | c in cs && c !in r
      ensures |r| == 5 && Stamp(c) <= Stamp(r[4])
    {
      assert c in sorted;
      var j :| 0 <= j < |sorted| && sorted[j] == c;
      assert forall i :: 0 <= i < |r| ==> r[i] == sorted[i];
      assert j >= |r|;
      assert Newest(sorted[4]) <= Newest(sorted[j]);
    }
  }

  predicate IsActive(j: Job) { j.status == Some("active") }

  /** Recommended (status present and 'recommended') and not touched since the cutoff. */
  predicate Stale(cutoff: int, c: Candidate) { c.status == Some("recommended") && Stamp(c) < cutoff }

  function CountStale(cs: seq<Candidate>, cutoff: int): (n: nat)
    ensures n <= CountIn(cs, {"recommended"})
  {
    if cs == [] then 0 else (if Stale(cutoff, cs[0]) then 1 else 0) + CountStale(cs[1..], cutoff)
  }

  /** generate_dashboard. */
  function Generate(jobs: seq<Job>, cs: seq<Candidate>, now: nat): (d: Overview)
    ensures d.pipeline.Keys == Stages && forall s :: s in Stages ==> d.pipeline[s] == StageCount(cs, s)
    ensures d.summary.totalCandidates == |cs| && d.summary.totalJobs == |jobs| && d.summary.activeJobs <= |jobs|
    ensures d.needFollowup <= d.pipeline["recommended"]
    ensures |d.recentActivity| <= 5
    ensures d.generatedAt == now && d.summary.activeJobs == Seqs.Count(jobs, IsActive)
    ensures d.summary.inPool == d.pipeline["pool"] && d.summary.placed == d.pipeline["placed"]
    ensures d.needFollowup == CountStale(cs, now - 3 * DaySeconds)
    ensures var recent := RecentCandidates(cs);
      |d.recentActivity| == |recent|
      && forall i :: 0 <= i < |recent| ==>
        d.recentActivity[i].id == recent[i].id && d.recentActivity[i].name == recent[i].name
        && d.recentActivity[i].status == StageLabel(StageOf(recent[i])).GetOr(StageOf(recent[i]))
        && (recent[i].updatedAt.Some? <==> d.recentActivity[i].updated.Some?)
        && (recent[i].updatedAt.Some? ==> d.recentActivity[i].updated.value == recent[i].updatedAt.value / DaySeconds)
  {
    var recent := RecentCandidates(cs);
    Overview(
      now,
      Summary(
        |jobs|,
        Seqs.Count(jobs, IsActive),
        |cs|,
        StageCount(cs, "pool"),
        StageCount(cs, "matching") + StageCount(cs, "recommended") + StageCount(cs, "interview") + StageCount(cs, "offer"),
        StageCount(cs, "placed")),
      map s | s in Stages :: StageCount(cs, s),
      CountStale(cs, now - 3 * DaySeconds),
      seq(|recent|, i requires 0 <= i < |recent| =>
        Activity(recent[i].id, recent[i].name, StageLabel(StageOf(recent[i])).GetOr(StageOf(recent[i])),
                 match recent[i].updatedAt case None => None case Some(t) => Some(t / DaySeconds))))
  }

  /** The pool, the four in-process stages and the placed never count anyone twice, so they add up to at most the candidates. */
  lemma SummaryWithinTotal(jobs: seq<Job>, cs: seq<Candidate>, now: nat)
    ensures var s := Generate(jobs, cs, now).summary;
      s.inPool + s.inProcess + s.placed <= s.totalCandidates
    ensures Generate(jobs, cs, now).summary.inProcess == CountIn(cs, {"matching", "recommended", "interview", "offer"})
  {
    CountInUnion(cs, {"matching"}, {"recommended"});
    CountInUnion(cs, {"matching", "recommended"}, {"interview"});
    CountInUnion(cs, {"matching", "recommended", "interview"}, {"offer"});
    CountInUnion(cs, {"matching", "recommended", "interview", "offer"}, {"pool"});
    CountInUnion(cs, {"matching", "recommended", "interview", "offer", "pool"}, {"placed"});
    assert {"matching"} + {"recommended"} == {"matching", "recommended"};
    assert {"matching", "recommended"} + {"interview"} == {"matching", "recommended", "interview"};
    assert {"matching", "recommended", "interview"} + {"offer"} == {"matching", "recommended", "interview", "offer"};
    assert {"matching", "recommended", "interview", "offer"} + {"pool"}
        == {"matching", "recommended", "interview", "offer", "pool"};
    assert {"matching", "recommended", "interview", "offer", "pool"} + {"placed"}
        == {"matching", "recommended", "interview", "offer", "pool", "placed"};
  }

  // ---------------------------------------------------------------- the store

  class Store {
    /** The contents of the jobs file. */
    var jobs: seq<Job>
    /** The contents of the candidates file. */
    var candidates: seq<Candidate>

    /** Loads both files; a missing or unreadable one is an empty list. */
    constructor (storedJobs: Option<seq<Job>>, storedCandidates: Option<seq<Candidate>>)
      ensures jobs == storedJobs.GetOr([]) && candidates == storedCandidates.GetOr([])
    {
      jobs := storedJobs.GetOr([]);
      candidates := storedCandidates.GetOr([]);
    }

    /** add_job: appends an active job with no candidates, numbered JOB-nnn after the existing ones. */
    method AddJob(client: string, title: string, requirements: Option<seq<string>>, salary: Option<string>,
                  notes: Option<string>, now: nat)
      returns (job: Job)
      modifies this
      ensures jobs == old(jobs) + [job] && candidates == old(candidates)
      ensures job.id == NumberedId("JOB-", |old(jobs)| + 1)
      ensures job.status == Some("active") && job.candidates == [] && job.client == client && job.title == title
      ensures job.requirements == requirements.GetOr([]) && job.salary == salary && job.notes == notes
      ensures job.createdAt == now
      ensures old(Numbered(jobs, JobId, "JOB-")) ==> Numbered(jobs, JobId, "JOB-")
    {
      job := Job(NumberedId("JOB-", |jobs| + 1), client, title, requirements.GetOr([]), salary, notes,
                 Some("active"), now, []);
      if Numbered(jobs, JobId, "JOB-") {
        NumberedAppend(jobs, job, JobId, "JOB-");
      }
      jobs := jobs + [job];
    }

    /** add_candidate: appends a candidate numbered CAN-nnn after the existing ones, with no job links. */
    method AddCandidate(name: string, currentCompany: Option<string>, currentTitle: Option<string>,
                        skills: Option<seq<string>>, experience: Option<string>, expectedSalary: Option<string>,
                        status: string, now: nat)
      returns (c: Candidate)
      modifies this
      ensures candidates == old(candidates) + [c] && jobs == old(jobs)
      ensures c.id == NumberedId("CAN-", |old(candidates)| + 1)
      ensures c.status == Some(status) && c.jobs == [] && c.name == name && c.skills == skills.GetOr([])
      ensures c.createdAt == now && c.updatedAt == Some(now) && c.history.None?
      ensures c.currentCompany == currentCompany && c.currentTitle == currentTitle
      ensures c.experience == experience && c.expectedSalary == expectedSalary
      ensures old(Numbered(candidates, CandidateId, "CAN-")) ==> Numbered(candidates, CandidateId, "CAN-")
    {
      c := Candidate(NumberedId("CAN-", |candidates| + 1), name, currentCompany, currentTitle, skills.GetOr([]),
                     experience, expectedSalary, Some(status), [], now, Some(now), None);
      if Numbered(candidates, CandidateId, "CAN-") {
        NumberedAppend(candidates, c, CandidateId, "CAN-");
      }
      candidates := candidates + [c];
    }

    /** update_candidate_status: updates the first candidate with the id; an unknown id changes nothing and gives None. */
    method UpdateCandidateStatus(id: string, newStatus: string, jobId: Option<string>, notes: Option<string>, now: nat)
      returns (r: Option<Candidate>)
      modifies this
      ensures jobs == old(jobs)
      ensures FirstWithId(old(candidates), id).None? ==> r.None? && candidates == old(candidates)
      ensures FirstWithId(old(candidates), id).Some? ==>
        var k := FirstWithId(old(candidates), id).value;
        candidates == old(candidates)[k := StatusUpdated(old(candidates)[k], newStatus, jobId, notes, now)]
        && r == Some(candidates[k])
    {
      var i := 0;
      while i < |candidates|
        invariant 0 <= i <= |candidates| && candidates == old(candidates)
        invariant forall j :: 0 <= j < i ==> candidates[j].id != id
      {
        if candidates[i].id == id {
          var updated := StatusUpdated(candidates[i], newStatus, jobId, notes, now);
          candidates := candidates[i := updated];
          return Some(updated);
        }
        i := i + 1;
      }
      return None;
    }
  }

  function JobId(j: Job): string { j.id }
  function CandidateId(c: Candidate): string { c.id }

  /** Jobs and candidates added only through the store carry the ids of their positions, so ids never repeat. */
  predicate Numbered<T>(xs: seq<T>, idOf: T -> string, prefix: string)
  {
    forall k :: 0 <= k < |xs| ==> idOf(xs[k]) == NumberedId(prefix, k + 1)
  }

  lemma NumberedUnique<T>(xs: seq<T>, idOf: T -> string, prefix: string)
    requires Numbered(xs, idOf, prefix)
    ensures forall i, j :: 0 <= i < j < |xs| ==> idOf(xs[i]) != idOf(xs[j])
  {
    forall i, j | 0 <= i < j < |xs|
      ensures idOf(xs[i]) != idOf(xs[j])
    {
      if idOf(xs[i]) == idOf(xs[j]) {
        NumberedIdInjective(prefix, i + 1, j + 1);
      }
    }
  }

  /** Appending a record with the next number keeps the list numbered. */
  lemma NumberedAppend<T>(xs: seq<T>, x: T, idOf: T -> string, prefix: string)
    requires Numbered(xs, idOf, prefix) && idOf(x) == NumberedId(prefix, |xs| + 1)
    ensures Numbered(xs + [x], idOf, prefix)
  {
  }
}
