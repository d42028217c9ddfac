// The multi-dimensional candidate/JD match score (scripts/ai_matcher_v2.py): skills 0-40,
// experience 0-30, industry 0-20, bonus 0-10, red-flag penalties, clamped to 0-100 and banded.
// Scores are reals; the clock stamp of a result is left out.
module AiMatcher {
  import opened Wrappers
  import opened Text
  import Seqs

  // ---------------------------------------------------------------- skills

  /** The synonym table of normalize_skill. */
  function Synonym(skill: string): Option<string>
  {
    if skill == "js" then Some("javascript")
    else if skill == "ts" then Some("typescript")
    else if skill == "py" then Some("python")
    else if skill == "react.js" then Some("react")
    else if skill == "vue.js" then Some("vue")
    else if skill == "node.js" then Some("nodejs")
    else if skill == "mongo" then Some("mongodb")
    else if skill == "postgres" then Some("postgresql")
    else if skill == "k8s" then Some("kubernetes")
    else if skill == "ml" then Some("machine learning")
    else if skill == "ai" then Some("artificial intelligence")
    else None
  }

  /** Every synonym maps to a name the table leaves alone. */
  lemma SynonymCanonical(key: string)
    ensures Synonym(key).Some? ==> Synonym(Synonym(key).value).None?
  {
  }

  /** normalize_skill: lower-cased and stripped, then replaced by its synonym when it has one. */
  function NormalizeSkill(skill: string): (r: string)
    ensures Synonym(Strip(Lower(skill))).None? ==> r == Strip(Lower(skill))
    ensures Synonym(Strip(Lower(skill))).Some? ==> Synonym(r).None?
  {
    var key := Strip(Lower(skill));
    SynonymCanonical(key);
    match Synonym(key)
    case Some(canonical) => canonical
    case None => key
  }

  /** A name outside the table comes back lower-cased and stripped, and normalising it again changes nothing. */
  lemma NormalizeSkillUnlisted(skill: string)
    requires Synonym(Strip(Lower(skill))).None?
    ensures NormalizeSkill(skill) == Strip(Lower(skill))
    ensures NormalizeSkill(NormalizeSkill(skill)) == NormalizeSkill(skill)
  {
    LowerStripFixed(skill);
  }

  /** Lower-casing and stripping a lower-cased, stripped string changes nothing. */
  lemma LowerStripFixed(s: string)
    ensures Strip(Lower(Strip(Lower(s)))) == Strip(Lower(s))
  {
    var k := Strip(Lower(s));
    assert forall i :: 0 <= i < |k| ==> k[i] in Lower(s);
    assert forall i :: 0 <= i < |k| ==> !IsUpper(k[i]) by {
      forall i | 0 <= i < |k|
        ensures !IsUpper(k[i])
      {
        var low := Lower(s);
        var j :| 0 <= j < |low| && low[j] == k[i];
      }
    }
    assert Lower(k) == k;
    StripNoEdges(k, IsSpace);
  }

  function NormalizeAll(skills: seq<string>): (r: seq<string>)
    ensures |r| == |skills| && forall i :: 0 <= i < |skills| ==> r[i] == NormalizeSkill(skills[i])
  {
    seq(|skills|, i requires 0 <= i < |skills| => NormalizeSkill(skills[i]))
  }

  /** The names the synonym table maps to. */
  const CanonicalNames: seq<string> := [
    "javascript", "typescript", "python", "react", "vue", "nodejs", "mongodb", "postgresql",
    "kubernetes", "machine learning", "artificial intelligence"]

  /** Lower-case letters and inner spaces only. */
  predicate Plain(c: string)
  {
    c != [] && c[0] != ' ' && c[|c| - 1] != ' ' && forall i :: 0 <= i < |c| ==> IsLower(c[i]) || c[i] == ' '
  }

  lemma CanonicalNamesPlain()
    ensures forall k :: 0 <= k < |CanonicalNames| ==> Plain(CanonicalNames[k])
  {
  }

  /** A plain name is already lower-cased and stripped. */
  lemma PlainFixed(c: string)
    requires Plain(c)
    ensures Strip(Lower(c)) == c
  {
    assert Lower(c) == c;
    StripNoEdges(c, IsSpace);
  }

  /** A canonical name is plain and has no synonym, so normalising it keeps it. */
  lemma CanonicalFixed(key: string)
    requires Synonym(key).Some?
    ensures NormalizeSkill(Synonym(key).value) == Synonym(key).value
  {
    var c := Synonym(key).value;
    assert c in CanonicalNames;
    CanonicalNamesPlain();
    PlainFixed(c);
    SynonymCanonical(key);
  }

  /** Normalising a normalised skill changes nothing. */
  lemma NormalizeSkillIdempotent(skill: string)
    ensures NormalizeSkill(NormalizeSkill(skill)) == NormalizeSkill(skill)
  {
    var key := Strip(Lower(skill));
    if Synonym(key).None? {
      NormalizeSkillUnlisted(skill);
    } else {
      CanonicalFixed(key);
    }
  }

  /** Normalising a normalised list changes nothing. */
  lemma NormalizeAllIdempotent(skills: seq<string>)
    ensures NormalizeAll(NormalizeAll(skills)) == NormalizeAll(skills)
  {
    forall i | 0 <= i < |skills| ensures NormalizeSkill(NormalizeSkill(skills[i])) == NormalizeSkill(skills[i]) {
      NormalizeSkillIdempotent(skills[i]);
    }
  }

  /** Matching lists that were normalised beforehand counts the same as matching the raw lists. */
  lemma MatchedNormalized(jdSkills: seq<string>, candidateSkills: seq<string>)
    ensures Matched(NormalizeAll(jdSkills), NormalizeAll(candidateSkills)) == Matched(jdSkills, candidateSkills)
  {
    NormalizeAllIdempotent(jdSkills);
    NormalizeAllIdempotent(candidateSkills);
  }

  /** How many entries of the JD list (with repeats) the candidate's normalised skills contain. */
  function Matched(jdSkills: seq<string>, candidateSkills: seq<string>): (n: nat)
    ensures n <= |jdSkills|
  {
    var have := NormalizeAll(candidateSkills);
    Seqs.Count(NormalizeAll(jdSkills), s => s in have)
  }

  /** matched / listed, and 0 for an empty list. */
  function Ratio(matched: nat, listed: nat): (r: real)
    requires matched <= listed
    ensures 0.0 <= r <= 1.0
    ensures r == 1.0 <==> listed > 0 && matched == listed
  {
    if listed > 0 then
      UnitRatio(matched as real, listed as real);
      matched as real / listed as real
    else 0.0
  }

  /** A part over a positive whole lies in [0, 1] and is 1 only for the whole. */
  lemma UnitRatio(m: real, l: real)
    requires 0.0 <= m <= l && 0.0 < l
    ensures 0.0 <= m / l <= 1.0
    ensures m / l == 1.0 <==> m == l
  {
  }

  function RequiredRatio(candidateSkills: seq<string>, required: seq<string>): real
  {
    Ratio(Matched(required, candidateSkills), |required|)
  }

  function PreferredRatio(candidateSkills: seq<string>, preferred: seq<string>): real
  {
    Ratio(Matched(preferred, candidateSkills), |preferred|)
  }

  function Min(a: real, b: real): real { if a <= b then a else b }

  /** calculate_skill_match: 35 × required ratio + 5 × preferred ratio, capped at 40. */
  function SkillScore(candidateSkills: seq<string>, required: seq<string>, preferred: seq<string>): (r: real)
    ensures 0.0 <= r <= 40.0
  {
    Min(RequiredRatio(candidateSkills, required) * 35.0 + PreferredRatio(candidateSkills, preferred) * 5.0, 40.0)
  }

  /** Full marks exactly when both lists are non-empty and every entry of both is matched; the cap never bites. */
  lemma SkillScoreFull(candidateSkills: seq<string>, required: seq<string>, preferred: seq<string>)
    ensures SkillScore(candidateSkills, required, preferred)
      == RequiredRatio(candidateSkills, required) * 35.0 + PreferredRatio(candidateSkills, preferred) * 5.0
    ensures SkillScore(candidateSkills, required, preferred) == 40.0 <==>
      |required| > 0 && Matched(required, candidateSkills) == |required|
      && |preferred| > 0 && Matched(preferred, candidateSkills) == |preferred|
  {
    var rr := RequiredRatio(candidateSkills, required);
    var pr := PreferredRatio(candidateSkills, preferred);
    assert rr * 35.0 + pr * 5.0 == 40.0 ==> rr == 1.0 && pr == 1.0 by {
      if rr < 1.0 { assert rr * 35.0 < 35.0; }
      if pr < 1.0 { assert pr * 5.0 < 5.0; }
    }
  }

  // ---------------------------------------------------------------- experience, industry, bonus

  /** calculate_experience_score by diff = candidate − required. */
  function ExperienceScore(candidateYears: int, requiredYears: int): (r: int)
  {
    var diff := candidateYears - requiredYears;
    if diff >= 0 then
      if diff == 0 then 30 else if diff <= 2 then 28 else 25
    else
      if diff == -1 then 20 else if diff == -2 then 10 else 5
  }

  /** Exact fit scores best, any surplus beats any shortfall, and a shortfall costs more the larger it is. */
  lemma ExperienceScoreOrder(candidateYears: int, requiredYears: int, otherYears: int)
    ensures 5 <= ExperienceScore(candidateYears, requiredYears) <= 30
    ensures ExperienceScore(candidateYears, requiredYears) == 30 <==> candidateYears == requiredYears
    ensures ExperienceScore(candidateYears, requiredYears) >= 25 <==> candidateYears >= requiredYears
    ensures otherYears <= candidateYears < requiredYears ==>
      ExperienceScore(otherYears, requiredYears) <= ExperienceScore(candidateYears, requiredYears)
  {
  }

  /** calculate_industry_score: industry and role compared case-insensitively. */
  function IndustryScore(candidateIndustry: string, candidateRole: string, jdIndustry: string, jdRole: string): (r: int)
  {
    var industryMatch := Lower(candidateIndustry) == Lower(jdIndustry);
    var roleMatch := Lower(candidateRole) == Lower(jdRole);
    if industryMatch && roleMatch then 20
    else if industryMatch && !roleMatch then 15
    else if !industryMatch && roleMatch then 10
    else 0
  }

  /** The industry weighs more than the role, and nothing scores without one of them matching. */
  lemma IndustryScoreMeaning(ci: string, cr: string, ji: string, jr: string)
    ensures var r := IndustryScore(ci, cr, ji, jr);
      (r >= 15 <==> Lower(ci) == Lower(ji)) && (r > 0 <==> Lower(ci) == Lower(ji) || Lower(cr) == Lower(jr))
      && (r == 20 <==> Lower(ci) == Lower(ji) && Lower(cr) == Lower(jr))
  {
  }

  /** calculate_bonus_score: GitHub 5, company tier A 3 or B 2, community 2, capped at 10. */
  function BonusScore(githubActive: bool, companyTier: string, communityActive: bool): (r: int)
    ensures 0 <= r <= 10
  {
    var score := (if githubActive then 5 else 0)
      + (if companyTier == "A" then 3 else if companyTier == "B" then 2 else 0)
      + (if communityActive then 2 else 0);
    if score <= 10 then score else 10
  }

  /** The cap never bites: the bonus is the plain sum, 10 exactly for an active tier-A community member. */
  lemma BonusScoreSum(githubActive: bool, companyTier: string, communityActive: bool)
    ensures BonusScore(githubActive, companyTier, communityActive) == 10 <==>
      githubActive && companyTier == "A" && communityActive
    ensures BonusScore(githubActive, companyTier, communityActive) ==
      (if githubActive then 5 else 0) + (if companyTier == "A" then 3 else if companyTier == "B" then 2 else 0)
      + (if communityActive then 2 else 0)
  {
  }

  // ---------------------------------------------------------------- red flags

  /** The penalty table. */
  function PenaltyOf(flag: string): int
  {
    if flag == "frequent_job_hopping" then -15
    else if flag == "skill_mismatch" then -20
    else if flag == "location_mismatch" then -10
    else 0
  }

  function SumPenalties(flags: seq<string>): int
  {
    if flags == [] then 0 else PenaltyOf(flags[0]) + SumPenalties(flags[1..])
  }

  datatype RedFlags = RedFlags(penalty: int, flags: seq<string>)

  /** check_red_flags; `ratio` is the stored _skill_match_ratio, 1.0 when the record has none. */
  function CheckRedFlags(jobChanges: int, ratio: Option<real>, candidateLocation: string, jdLocation: string,
                         remoteOk: bool): (r: RedFlags)
    ensures r.penalty == SumPenalties(r.flags) && -45 <= r.penalty <= 0
    ensures Seqs.NoDup(r.flags) && |r.flags| <= 3
    ensures "frequent_job_hopping" in r.flags <==> jobChanges >= 3
    ensures "skill_mismatch" in r.flags <==> ratio.GetOr(1.0) < 0.3
    ensures "location_mismatch" in r.flags <==> Lower(candidateLocation) != Lower(jdLocation) && !remoteOk
  {
    var hop := jobChanges >= 3;
    var mismatch := ratio.GetOr(1.0) < 0.3;
    var away := Lower(candidateLocation) != Lower(jdLocation) && !remoteOk;
    FlaggedFacts(hop, mismatch, away);
    var flags := Flagged(hop, mismatch, away);
    RedFlags(SumPenalties(flags), flags)
  }

  /** The flags raised, in the order they are checked. */
  function Flagged(hop: bool, mismatch: bool, away: bool): seq<string>
  {
    (if hop then ["frequent_job_hopping"] else [])
    + (if mismatch then ["skill_mismatch"] else [])
    + (if away then ["location_mismatch"] else [])
  }

  /** Each flag is raised once exactly when its condition holds, and the penalties add up per flag. */
  lemma FlaggedFacts(hop: bool, mismatch: bool, away: bool)
    ensures var fs := Flagged(hop, mismatch, away);
      Seqs.NoDup(fs) && |fs| <= 3
      && ("frequent_job_hopping" in fs <==> hop) && ("skill_mismatch" in fs <==> mismatch)
      && ("location_mismatch" in fs <==> away)
      && SumPenalties(fs) == (if hop then -15 else 0) + (if mismatch then -20 else 0) + (if away then -10 else 0)
  {
    var f1: seq<string> := if hop then ["frequent_job_hopping"] else [];
    var f2: seq<string> := if mismatch then ["skill_mismatch"] else [];
    var f3: seq<string> := if away then ["location_mismatch"] else [];
    assert "frequent_job_hopping" != "skill_mismatch" && "frequent_job_hopping" != "location_mismatch"
      && "skill_mismatch" != "location_mismatch" by {
      assert "frequent_job_hopping"[0] == 'f' && "skill_mismatch"[0] == 's' && "location_mismatch"[0] == 'l';
    }
    assert SumPenalties(f1) == (if hop then -15 else 0) by { if hop { assert f1[1..] == []; } }
    assert SumPenalties(f2) == (if mismatch then -20 else 0) by { if mismatch { assert f2[1..] == []; } }
    assert SumPenalties(f3) == (if away then -10 else 0) by { if away { assert f3[1..] == []; } }
    assert SumPenalties(f1 + f2 + f3) == SumPenalties(f1) + SumPenalties(f2) + SumPenalties(f3) by {
      SumPenaltiesAppend(f1, f2);
      SumPenaltiesAppend(f1 + f2, f3);
    }
  }

  lemma {:induction false} SumPenaltiesAppend(a: seq<string>, b: seq<string>)
    ensures SumPenalties(a + b) == SumPenalties(a) + SumPenalties(b)
  {
    if a == [] {
      assert a + b == b;
    } else {
      assert (a + b)[1..] == a[1..] + b;
      SumPenaltiesAppend(a[1..], b);
    }
  }

  // ---------------------------------------------------------------- match

  /** Python's round(x, 2), taken as round-half-up. */
  function Round2(x: real): real
  {
    (x * 100.0 + 0.5).Floor as real / 100.0
  }

  /** The rounded ratio falls below 0.3 exactly when the ratio itself is below 0.295. */
  lemma Round2Below(x: real)
    ensures Round2(x) < 0.3 <==> x < 0.295
  {
    var f := (x * 100.0 + 0.5).Floor;
    assert Round2(x) < 0.3 <==> f < 30;
    assert f < 30 <==> x * 100.0 + 0.5 < 30.0;
  }

  /** The fields of a candidate record the matcher reads. */
  datatype Profile = Profile(
    id: Option<string>,
    name: Option<string>,
    skills: seq<string>,
    yearsOfExperience: int,
    industry: string,
    currentRole: string,
    location: string,
    githubActive: bool,
    companyTier: string,
    communityActive: bool,
    remoteExperience: bool,
    jobChangesLastYear: int)

  datatype Jd = Jd(
    id: string,
    title: string,
    industry: string,
    role: string,
    requiredSkills: seq<string>,
    preferredSkills: seq<string>,
    requiredYears: int,
    location: string,
    remoteOk: bool)

  datatype Confidence = P0 | P1 | P2 | Reject

  /** The band of a total score. */
  function Band(total: real): Confidence
  {
    if total >= 80.0 then P0 else if total >= 60.0 then P1 else if total >= 40.0 then P2 else Reject
  }

  datatype MatchResult = MatchResult(
    candidateId: string,
    candidateName: string,
    jdId: string,
    jdTitle: string,
    total: real,
    confidence: Confidence,
    skill: real,
    experience: int,
    industry: int,
    bonus: int,
    penalty: int,
    flags: seq<string>)

  /** The ratio match stores in the candidate before the red-flag check. */
  function StoredRatio(p: Profile, jd: Jd): real
  {
    Round2(RequiredRatio(p.skills, jd.requiredSkills))
  }

  /** A score held to [0, 100]. */
  function Clamped(raw: real): (r: real)
    ensures 0.0 <= r <= 100.0
    ensures 0.0 <= raw <= 100.0 ==> r == raw
  {
    if raw < 0.0 then 0.0 else if raw > 100.0 then 100.0 else raw
  }

  /** What match returns. */
  function MatchOf(p: Profile, jd: Jd): MatchResult
  {
    Assemble(p, jd,
      SkillScore(p.skills, jd.requiredSkills, jd.preferredSkills),
      ExperienceScore(p.yearsOfExperience, jd.requiredYears),
      IndustryScore(p.industry, p.currentRole, jd.industry, jd.role),
      BonusScore(p.githubActive, p.companyTier, p.communityActive),
      CheckRedFlags(p.jobChangesLastYear, Some(StoredRatio(p, jd)), p.location, jd.location,
                    p.remoteExperience || jd.remoteOk))
  }

  /** The result record built from the parts: their clamped sum as the total, and its band. */
  function Assemble(p: Profile, jd: Jd, skill: real, experience: int, industry: int, bonus: int, red: RedFlags): MatchResult
  {
    var total := Clamped(skill + experience as real + industry as real + bonus as real + red.penalty as real);
    MatchResult(
      if p.id.Some? then p.id.value else p.name.GetOr("unknown"),
      p.name.GetOr(""), jd.id, jd.title, total, Band(total),
      skill, experience, industry, bonus, red.penalty, red.flags)
  }

  /**
   * The result record: the candidate id is the profile's id, else its name, else "unknown"; the total is
   * a score in [0, 100] with its band; the JD's id and title and every part are copied unchanged.
   */
  lemma AssembleFields(p: Profile, jd: Jd, skill: real, experience: int, industry: int, bonus: int, red: RedFlags)
    ensures var m := Assemble(p, jd, skill, experience, industry, bonus, red);
      && (p.id.Some? ==> m.candidateId == p.id.value)
      && (p.id.None? && p.name.Some? ==> m.candidateId == p.name.value)
      && (p.id.None? && p.name.None? ==> m.candidateId == "unknown")
      && (p.name.Some? ==> m.candidateName == p.name.value) && (p.name.None? ==> m.candidateName == "")
      && 0.0 <= m.total <= 100.0 && m.confidence == Band(m.total)
      && m.jdId == jd.id && m.jdTitle == jd.title
      && m.skill == skill && m.experience == experience && m.industry == industry && m.bonus == bonus
      && m.penalty == red.penalty && m.flags == red.flags
  {
  }

  /** The record match builds field by field is the one Assemble gives. */
  lemma Assembled(p: Profile, jd: Jd, skill: real, experience: int, industry: int, bonus: int, red: RedFlags,
                  total: real, confidence: Confidence)
    requires total == Clamped(skill + experience as real + industry as real + bonus as real + red.penalty as real)
    requires confidence == Band(total)
    ensures Assemble(p, jd, skill, experience, industry, bonus, red)
         == MatchResult(if p.id.Some? then p.id.value else p.name.GetOr("unknown"), p.name.GetOr(""), jd.id, jd.title,
                        total, confidence, skill, experience, industry, bonus, red.penalty, red.flags)
  {
  }

  /** The total is the clamped sum of the parts, within [0, 100], banded by 80/60/40; only the lower clamp can bite. */
  lemma MatchTotal(p: Profile, jd: Jd)
    ensures var m := MatchOf(p, jd);
      var raw := m.skill + m.experience as real + m.industry as real + m.bonus as real + m.penalty as real;
      0.0 <= m.total <= 100.0 && raw <= 100.0 && (raw >= 0.0 ==> m.total == raw) && (raw < 0.0 ==> m.total == 0.0)
      && m.confidence == Band(m.total)
      && (m.confidence == P0 <==> m.total >= 80.0) && (m.confidence == Reject <==> m.total < 40.0)
  {
    var m := MatchOf(p, jd);
    ExperienceScoreOrder(p.yearsOfExperience, jd.requiredYears, p.yearsOfExperience);
    assert m.industry <= 20;
    PartsAtMost100(m.skill, m.experience, m.industry, m.bonus, m.penalty);
    BandCuts(m.total);
  }

  lemma PartsAtMost100(skill: real, experience: int, industry: int, bonus: int, penalty: int)
    requires skill <= 40.0 && experience <= 30 && industry <= 20 && bonus <= 10 && penalty <= 0
    ensures skill + experience as real + industry as real + bonus as real + penalty as real <= 100.0
  {
  }

  lemma BandCuts(total: real)
    ensures (Band(total) == P0 <==> total >= 80.0) && (Band(total) == Reject <==> total < 40.0)
  {
  }

  /** A JD without required skills stores the ratio 0, so every candidate gets the skill-mismatch flag. */
  lemma NoRequiredSkillsMismatch(p: Profile, jd: Jd)
    requires jd.requiredSkills == []
    ensures "skill_mismatch" in MatchOf(p, jd).flags
  {
    assert RequiredRatio(p.skills, jd.requiredSkills) == 0.0;
    Round2Below(0.0);
  }

  /** The skill-mismatch flag in a match follows the rounded ratio: it is raised exactly below 0.295. */
  lemma MatchMismatchThreshold(p: Profile, jd: Jd)
    ensures "skill_mismatch" in MatchOf(p, jd).flags <==> RequiredRatio(p.skills, jd.requiredSkills) < 0.295
  {
    Round2Below(RequiredRatio(p.skills, jd.requiredSkills));
  }

  /** A candidate dictionary: what the matcher reads, and the ratio match writes back into it. */
  class CandidateRecord {
    const profile: Profile
    var skillMatchRatio: Option<real>

    constructor (profile: Profile)
      ensures this.profile == profile && skillMatchRatio.None?
    {
      this.profile := profile;
      skillMatchRatio := None;
    }
  }

  /** The end of match: the total clamped to [0, 100], then banded by 80/60/40. */
  method Bounded(raw: real) returns (total: real, confidence: Confidence)
    ensures total == Clamped(raw) && confidence == Band(total)
  {
    total := raw;
    if total > 100.0 {
      total := 100.0;
    }
    if total < 0.0 {
      total := 0.0;
    }
    if total >= 80.0 {
      confidence := P0;
    } else if total >= 60.0 {
      confidence := P1;
    } else if total >= 40.0 {
      confidence := P2;
    } else {
      confidence := Reject;
    }
  }

  /** match: scores the candidate against the JD, writing _skill_match_ratio into the caller's record first. */
  method Match(c: CandidateRecord, jd: Jd) returns (r: MatchResult)
    modifies c
    ensures c.skillMatchRatio == Some(StoredRatio(c.profile, jd))
    ensures r == MatchOf(c.profile, jd)
  {
    var p := c.profile;
    var skill := SkillScore(p.skills, jd.requiredSkills, jd.preferredSkills);
    c.skillMatchRatio := Some(Round2(RequiredRatio(p.skills, jd.requiredSkills)));
    assert c.skillMatchRatio == Some(StoredRatio(p, jd));
    var experience := ExperienceScore(p.yearsOfExperience, jd.requiredYears);
    var industry := IndustryScore(p.industry, p.currentRole, jd.industry, jd.role);
    var bonus := BonusScore(p.githubActive, p.companyTier, p.communityActive);
    var red := CheckRedFlags(p.jobChangesLastYear, c.skillMatchRatio, p.location, jd.location,
                             p.remoteExperience || jd.remoteOk);
    var total, confidence := Bounded(skill + experience as real + industry as real + bonus as real + red.penalty as real);
    var id := if p.id.Some? then p.id.value else p.name.GetOr("unknown");
    r := MatchResult(id, p.name.GetOr(""), jd.id, jd.title, total, confidence,
                     skill, experience, industry, bonus, red.penalty, red.flags);
    Assembled(p, jd, skill, experience, industry, bonus, red, total, confidence);
  }
}
