// The preference-learning engine (scripts/learning-engine.py): a log of contact decisions, an
// analysis of the recent ones, weight suggestions drawn from it and their application to the
// learned weights. The log and the weights file are values given at start-up; clock readings
// are parameters, in seconds.
module LearningEngine {
  import opened Wrappers
  import Seqs

  /** The candidate dict as far as the engine reads it. */
  datatype Candidate = Candidate(fingerprint: Option<string>, name: Option<string>)

  /** The features dict of a decision; every key may be missing. */
  datatype Features = Features(
    githubActive: Option<bool>,
    companyTier: Option<string>,
    skillMatchRatio: Option<real>,
    redFlags: Option<seq<string>>)

  /** One record of the decision log. */
  datatype Decision = Decision(
    date: int,
    jdId: string,
    candidateFingerprint: string,
    candidateName: string,
    decision: string,
    score: real,
    features: Features)

  const DaySeconds := 86400

  // ---------------------------------------------------------------- analysis

  predicate IsContacted(d: Decision) { d.decision == "contacted" }
  predicate IsSkipped(d: Decision) { d.decision == "skipped" }
  predicate GithubActive(d: Decision) { d.features.githubActive.GetOr(false) }
  predicate TierA(d: Decision) { d.features.companyTier == Some("A") }
  predicate Flagged(d: Decision, flag: string) { flag in d.features.redFlags.GetOr([]) }
  function SkillMatchOf(d: Decision): real { d.features.skillMatchRatio.GetOr(0.0) }
  function ScoreOf(d: Decision): real { d.score }

  function InWindow(days: int, now: int): Decision -> bool
  {
    (d: Decision) => d.date > now - days * DaySeconds
  }

  /** The decisions dated strictly after now minus the given number of days. */
  function Recent(ds: seq<Decision>, days: int, now: int): (r: seq<Decision>)
    ensures forall d :: d in r <==> d in ds && d.date > now - days * DaySeconds
  {
    Seqs.Filter(ds, InWindow(days, now))
  }

  function Sum(ds: seq<Decision>, f: Decision -> real): real
  {
    if ds == [] then 0.0 else f(ds[0]) + Sum(ds[1..], f)
  }

  /** statistics.mean over a non-empty list. */
  function Mean(ds: seq<Decision>, f: Decision -> real): real
    requires ds != []
  {
    Sum(ds, f) / |ds| as real
  }

  /** The smallest value of f over a non-empty list, attained by one of its elements. */
  function Min(ds: seq<Decision>, f: Decision -> real): (m: real)
    requires ds != []
    ensures forall d :: d in ds ==> m <= f(d)
    ensures exists d :: d in ds && m == f(d)
  {
    if |ds| == 1 then f(ds[0])
    else
      var rest := Min(ds[1..], f);
      assert forall d :: d in ds[1..] ==> d in ds;
      assert forall d :: d in ds ==> d == ds[0] || d in ds[1..];
      if f(ds[0]) <= rest then f(ds[0]) else rest
  }

  /** No element is below the minimum, so the sum is at least the minimum times the length. */
  lemma {:induction false} SumAtLeastMin(ds: seq<Decision>, f: Decision -> real, m: real)
    requires forall d :: d in ds ==> m <= f(d)
    ensures m * |ds| as real <= Sum(ds, f)
  {
    if ds != [] {
      var rest := ds[1..];
      assert m * |rest| as real <= Sum(rest, f) by {
        assert forall d :: d in rest ==> d in ds;
        SumAtLeastMin(rest, f, m);
      }
      assert m <= f(ds[0]) by { assert ds[0] in ds; }
      OneMoreBound(m, |rest|, f(ds[0]), Sum(rest, f));
      assert |ds| == |rest| + 1;
      assert Sum(ds, f) == f(ds[0]) + Sum(rest, f);
    }
  }

  /** Adding one term of at least m to a sum of at least m·n gives at least m·(n + 1). */
  lemma OneMoreBound(m: real, n: nat, a: real, t: real)
    requires m * n as real <= t && m <= a
    ensures m * (n + 1) as real <= a + t
  {
  }

  /** A bound on a product with a positive factor is a bound on the quotient. */
  lemma QuotientAtLeast(m: real, total: real, n: real)
    requires n > 0.0 && m * n <= total
    ensures m <= total / n
  {
    var q := total / n;
    assert q * n == total;
    assert (q - m) * n >= 0.0;
  }

  /** The minimum never exceeds the mean. */
  lemma MinAtMostMean(ds: seq<Decision>, f: Decision -> real)
    requires ds != []
    ensures Min(ds, f) <= Mean(ds, f)
  {
    SumAtLeastMin(ds, f, Min(ds, f));
    QuotientAtLeast(Min(ds, f), Sum(ds, f), |ds| as real);
  }

  /** A count over a part of the list, as a fraction of it. */
  function Rate(part: nat, whole: nat): (r: real)
    requires part <= whole && whole > 0
    ensures 0.0 <= r <= 1.0
    ensures r * whole as real == part as real
  {
    part as real / whole as real
  }

  datatype Preferences = Preferences(
    githubActiveRate: real,
    companyARate: real,
    avgScore: real,
    avgSkillMatch: real,
    minScoreThreshold: real)

  datatype RedFlagRates = RedFlagRates(frequentJobHoppingRate: real, skillMismatchRate: real)

  /** What analyze_preferences returns: too few recent decisions, or the full analysis. */
  datatype Analysis =
    | InsufficientData(totalDecisions: nat)
    | Analysis(
        periodDays: int,
        totalDecisions: nat,
        contactedCount: nat,
        skippedCount: nat,
        contactRate: real,
        preferences: Option<Preferences>,
        redFlags: Option<RedFlagRates>)

  /** The preference rates, averages and threshold over the contacted decisions. */
  function PreferencesOf(contacted: seq<Decision>): (p: Preferences)
    requires contacted != []
    ensures 0.0 <= p.githubActiveRate <= 1.0 && 0.0 <= p.companyARate <= 1.0
    ensures p.githubActiveRate == Rate(Seqs.Count(contacted, GithubActive), |contacted|)
    ensures p.companyARate == Rate(Seqs.Count(contacted, TierA), |contacted|)
    ensures p.avgScore == Mean(contacted, ScoreOf) && p.avgSkillMatch == Mean(contacted, SkillMatchOf)
    ensures p.minScoreThreshold <= p.avgScore
    ensures forall d :: d in contacted ==> p.minScoreThreshold <= d.score
    ensures exists d :: d in contacted && p.minScoreThreshold == d.score
  {
    MinAtMostMean(contacted, ScoreOf);
    Preferences(
      Rate(Seqs.Count(contacted, GithubActive), |contacted|),
      Rate(Seqs.Count(contacted, TierA), |contacted|),
      Mean(contacted, ScoreOf),
      Mean(contacted, SkillMatchOf),
      Min(contacted, ScoreOf))
  }

  predicate HopsJobs(d: Decision) { Flagged(d, "frequent_job_hopping") }
  predicate MismatchesSkills(d: Decision) { Flagged(d, "skill_mismatch") }

  /** The share of skipped decisions carrying each red flag. */
  function RedFlagsOf(skipped: seq<Decision>): (f: RedFlagRates)
    requires skipped != []
    ensures 0.0 <= f.frequentJobHoppingRate <= 1.0 && 0.0 <= f.skillMismatchRate <= 1.0
    ensures f.frequentJobHoppingRate == Rate(Seqs.Count(skipped, HopsJobs), |skipped|)
    ensures f.skillMismatchRate == Rate(Seqs.Count(skipped, MismatchesSkills), |skipped|)
  {
    RedFlagRates(
      Rate(Seqs.Count(skipped, HopsJobs), |skipped|),
      Rate(Seqs.Count(skipped, MismatchesSkills), |skipped|))
  }

  /** analyze_preferences over a decision log, for the last `days` days before `now`. */
  function Analyze(ds: seq<Decision>, days: int, now: int): Analysis
  {
    var recent := Recent(ds, days, now);
    if |recent| < 5 then InsufficientData(|recent|)
    else
      var contacted := Seqs.Filter(recent, IsContacted);
      var skipped := Seqs.Filter(recent, IsSkipped);
      Analysis(
        days, |recent|, |contacted|, |skipped|,
        Rate(|contacted|, |recent|),
        if contacted != [] then Some(PreferencesOf(contacted)) else None,
        if skipped != [] then Some(RedFlagsOf(skipped)) else None)
  }

  /** Fewer than five recent decisions give insufficient_data with their number; five or more give an analysis of exactly those. */
  lemma AnalyzeThreshold(ds: seq<Decision>, days: int, now: int)
    ensures var a := Analyze(ds, days, now);
      (a.InsufficientData? <==> |Recent(ds, days, now)| < 5) && a.totalDecisions == |Recent(ds, days, now)|
  {
  }

  /** The counts split the recent decisions: contacted and skipped never overlap, and the contact rate is their share. */
  lemma AnalyzeCounts(ds: seq<Decision>, days: int, now: int)
    requires Analyze(ds, days, now).Analysis?
    ensures var a := Analyze(ds, days, now);
      a.contactedCount + a.skippedCount <= a.totalDecisions
      && a.contactedCount == Seqs.Count(Recent(ds, days, now), IsContacted)
      && a.skippedCount == Seqs.Count(Recent(ds, days, now), IsSkipped)
      && a.contactRate == Rate(a.contactedCount, a.totalDecisions)
  {
    var recent := Recent(ds, days, now);
    Seqs.CountDisjoint(recent, IsContacted, IsSkipped);
    Seqs.CountIsFilterLength(recent, IsContacted);
    Seqs.CountIsFilterLength(recent, IsSkipped);
  }

  /** Preferences exist exactly when something was contacted, red flags exactly when something was skipped. */
  lemma AnalyzeSections(ds: seq<Decision>, days: int, now: int)
    requires Analyze(ds, days, now).Analysis?
    ensures var a := Analyze(ds, days, now);
      (a.preferences.Some? <==> a.contactedCount > 0)
      && (a.redFlags.Some? <==> a.skippedCount > 0)
      && (a.preferences.Some? ==> a.preferences.value.minScoreThreshold <= a.preferences.value.avgScore)
  {
  }

  /** Decisions outside the window are never recent, wherever they stand in the log. */
  lemma RecentIgnoresOld(before: seq<Decision>, stale: seq<Decision>, after: seq<Decision>, days: int, now: int)
    requires forall d :: d in stale ==> d.date <= now - days * DaySeconds
    ensures Recent(before + stale + after, days, now) == Recent(before + after, days, now)
  {
    Seqs.FilterSkips(before, stale, after, InWindow(days, now));
  }

  /** Decisions outside the window play no part: adding them anywhere in the log changes nothing. */
  lemma AnalyzeIgnoresOld(before: seq<Decision>, stale: seq<Decision>, after: seq<Decision>, days: int, now: int)
    requires forall d :: d in stale ==> d.date <= now - days * DaySeconds
    ensures Analyze(before + stale + after, days, now) == Analyze(before + after, days, now)
  {
    RecentIgnoresOld(before, stale, after, days, now);
  }

  // ---------------------------------------------------------------- weights

  /** One suggested weight change. */
  datatype Adjustment = Adjustment(parameter: string, current: real, suggested: real)

  function MinReal(a: real, b: real): real { if a <= b then a else b }

  /** The default weights, used when no weights file exists. */
  function DefaultWeights(): (w: map<string, real>)
    ensures "bonus" in w && "skill_match" in w
  {
    map["skill_match" := 0.40, "experience" := 0.30, "industry" := 0.20, "bonus" := 0.10]
  }

  /**
   * suggest_weight_adjustments: none for insufficient data, otherwise the bonus, skill_match and
   * company_tier_bonus suggestions whose triggers fire, in that order. Reading a weight that is
   * missing from the weights raises KeyError, the error here.
   */
  function Suggest(a: Analysis, weights: map<string, real>): Result<seq<Adjustment>, string>
  {
    var prefs := PrefsOf(a);
    if a.InsufficientData? then Ok([])
    else if prefs.githubActiveRate > 0.7 && "bonus" !in weights then Err("bonus")
    else if prefs.avgSkillMatch > 0.8 && "skill_match" !in weights then Err("skill_match")
    else
      var bonus := if prefs.githubActiveRate > 0.7
        then [Adjustment("bonus", weights["bonus"], MinReal(0.15, weights["bonus"] + 0.05))] else [];
      var skill := if prefs.avgSkillMatch > 0.8
        then [Adjustment("skill_match", weights["skill_match"], MinReal(0.50, weights["skill_match"] + 0.05))] else [];
      var tier := if prefs.companyARate > 0.6 then [Adjustment("company_tier_bonus", 3.0, 5.0)] else [];
      Ok(bonus + skill + tier)
  }

  /** analysis.get('preferences', {}): a missing preference reads as 0. */
  function PrefsOf(a: Analysis): Preferences
  {
    if a.Analysis? && a.preferences.Some? then a.preferences.value else Preferences(0.0, 0.0, 0.0, 0.0, 0.0)
  }

  /** The suggestion of a parameter is among the adjustments. */
  predicate Suggests(adj: seq<Adjustment>, parameter: string)
  {
    exists i :: 0 <= i < |adj| && adj[i].parameter == parameter
  }

  /** KeyError exactly when a fired trigger reads a weight the weights lack. */
  lemma SuggestFails(a: Analysis, weights: map<string, real>)
    ensures Suggest(a, weights).Err? <==>
      a.Analysis? && ((PrefsOf(a).githubActiveRate > 0.7 && "bonus" !in weights)
                      || (PrefsOf(a).avgSkillMatch > 0.8 && "skill_match" !in weights))
  {
  }

  /**
   * When each suggestion is made and what it says: bonus iff GitHub activity is above 0.7, skill_match
   * iff the mean skill match is above 0.8, company_tier_bonus iff the A-tier share is above 0.6; the
   * first two rise by 0.05 from the current weight or stop at the cap 0.15 / 0.50, the third goes 3 to 5.
   */
  lemma SuggestTriggers(a: Analysis, weights: map<string, real>)
    requires Suggest(a, weights).Ok?
    ensures var adj := Suggest(a, weights).value;
      && (Suggests(adj, "bonus") <==> a.Analysis? && PrefsOf(a).githubActiveRate > 0.7)
      && (Suggests(adj, "skill_match") <==> a.Analysis? && PrefsOf(a).avgSkillMatch > 0.8)
      && (Suggests(adj, "company_tier_bonus") <==> a.Analysis? && PrefsOf(a).companyARate > 0.6)
    ensures var adj := Suggest(a, weights).value;
      forall i :: 0 <= i < |adj| ==>
        && (adj[i].parameter == "bonus" ==>
              "bonus" in weights && adj[i].current == weights["bonus"]
              && adj[i].suggested == (if weights["bonus"] <= 0.10 then weights["bonus"] + 0.05 else 0.15))
        && (adj[i].parameter == "skill_match" ==>
              "skill_match" in weights && adj[i].current == weights["skill_match"]
              && adj[i].suggested == (if weights["skill_match"] <= 0.45 then weights["skill_match"] + 0.05 else 0.50))
        && (adj[i].parameter == "company_tier_bonus" ==> adj[i].current == 3.0 && adj[i].suggested == 5.0)
  {
    var adj := Suggest(a, weights).value;
    var p := PrefsOf(a);
    if a.Analysis? {
      var bonus := if p.githubActiveRate > 0.7
        then [Adjustment("bonus", weights["bonus"], MinReal(0.15, weights["bonus"] + 0.05))] else [];
      var skill := if p.avgSkillMatch > 0.8
        then [Adjustment("skill_match", weights["skill_match"], MinReal(0.50, weights["skill_match"] + 0.05))] else [];
      var tier := if p.companyARate > 0.6 then [Adjustment("company_tier_bonus", 3.0, 5.0)] else [];
      assert adj == bonus + skill + tier;
      assert Suggests(adj, "bonus") <==> p.githubActiveRate > 0.7 by {
        if p.githubActiveRate > 0.7 { assert adj[0].parameter == "bonus"; }
      }
      assert Suggests(adj, "skill_match") <==> p.avgSkillMatch > 0.8 by {
        if p.avgSkillMatch > 0.8 { assert adj[|bonus|].parameter == "skill_match"; }
      }
      assert Suggests(adj, "company_tier_bonus") <==> p.companyARate > 0.6 by {
        if p.companyARate > 0.6 { assert adj[|bonus| + |skill|].parameter == "company_tier_bonus"; }
      }
    }
  }

  /** Where the suggestions come from: at most three, one per parameter, in fixed order, each raising its weight up to a cap. */
  lemma SuggestShape(a: Analysis, weights: map<string, real>)
    requires Suggest(a, weights).Ok?
    ensures var adj := Suggest(a, weights).value;
      |adj| <= 3
      && (a.InsufficientData? ==> adj == [])
      && (a.Analysis? && a.preferences.None? ==> adj == [])
      && (forall i, j :: 0 <= i < j < |adj| ==> Rank(adj[i].parameter) < Rank(adj[j].parameter))
      && (forall i :: 0 <= i < |adj| && adj[i].parameter == "bonus" ==>
            adj[i].suggested <= 0.15 && adj[i].current == weights["bonus"]
            && (adj[i].current <= 0.10 ==> adj[i].suggested == adj[i].current + 0.05))
      && (forall i :: 0 <= i < |adj| && adj[i].parameter == "skill_match" ==>
            adj[i].suggested <= 0.50 && adj[i].current == weights["skill_match"]
            && (adj[i].current <= 0.45 ==> adj[i].suggested == adj[i].current + 0.05))
  {
  }

  /** The position of a parameter in the fixed suggestion order. */
  function Rank(parameter: string): int
  {
    if parameter == "bonus" then 0 else if parameter == "skill_match" then 1 else 2
  }

  /** With the default weights and all three preferences strong, all three suggestions come out. */
  lemma SuggestAllThree(a: Analysis)
    requires a.Analysis? && a.preferences.Some?
    requires a.preferences.value.githubActiveRate > 0.7 && a.preferences.value.avgSkillMatch > 0.8
    requires a.preferences.value.companyARate > 0.6
    ensures Suggest(a, DefaultWeights()) == Ok([
      Adjustment("bonus", 0.10, 0.15),
      Adjustment("skill_match", 0.40, 0.45),
      Adjustment("company_tier_bonus", 3.0, 5.0)])
  {
    var w := DefaultWeights();
    assert w["bonus"] == 0.10 && w["skill_match"] == 0.40;
    assert MinReal(0.15, w["bonus"] + 0.05) == 0.15;
    assert MinReal(0.50, w["skill_match"] + 0.05) == 0.45;
    var x, y, z := Adjustment("bonus", 0.10, 0.15), Adjustment("skill_match", 0.40, 0.45),
      Adjustment("company_tier_bonus", 3.0, 5.0);
    assert Suggest(a, w) == Ok([x] + [y] + [z]);
    assert [x] + [y] + [z] == [x, y, z];
  }

  /** The weights after applying the adjustments one by one; a later adjustment of a parameter wins. */
  function Applied(weights: map<string, real>, adj: seq<Adjustment>): map<string, real>
  {
    if adj == [] then weights
    else Applied(weights, adj[..|adj| - 1])[adj[|adj| - 1].parameter := adj[|adj| - 1].suggested]
  }

  /** The index of the last adjustment of a parameter, if any. */
  function LastIndex(adj: seq<Adjustment>, parameter: string): (r: Option<nat>)
    ensures r.Some? ==>
              r.value < |adj| && adj[r.value].parameter == parameter
              && forall j :: r.value < j < |adj| ==> adj[j].parameter != parameter
    ensures r.None? ==> forall j :: 0 <= j < |adj| ==> adj[j].parameter != parameter
  {
    if adj == [] then None
    else if adj[|adj| - 1].parameter == parameter then Some(|adj| - 1)
    else LastIndex(adj[..|adj| - 1], parameter)
  }

  /** A parameter ends up with the value of its last adjustment, or keeps its old value; parameters are added, never removed. */
  lemma {:induction false} AppliedValue(weights: map<string, real>, adj: seq<Adjustment>, parameter: string)
    ensures var w := Applied(weights, adj);
      (parameter in w <==> parameter in weights || LastIndex(adj, parameter).Some?)
      && (LastIndex(adj, parameter).Some? ==> w[parameter] == adj[LastIndex(adj, parameter).value].suggested)
      && (LastIndex(adj, parameter).None? && parameter in weights ==> w[parameter] == weights[parameter])
  {
    if adj != [] {
      var init := adj[..|adj| - 1];
      AppliedValue(weights, init, parameter);
      if adj[|adj| - 1].parameter != parameter {
        assert LastIndex(adj, parameter) == LastIndex(init, parameter);
        if LastIndex(init, parameter).Some? {
          assert adj[LastIndex(init, parameter).value] == init[LastIndex(init, parameter).value];
        }
      }
    }
  }

  // ---------------------------------------------------------------- the engine

  class Engine {
    /** The decision log, in recording order. */
    var decisions: seq<Decision>
    /** The learned weights, without their last_updated stamp. */
    var weights: map<string, real>
    /** The last_updated stamp of the weights. */
    var lastUpdated: int

    /** Loads the log and the weights, or starts with an empty log and the default weights when a file is missing. */
    constructor (storedDecisions: Option<seq<Decision>>, storedWeights: Option<(map<string, real>, int)>, now: int)
      ensures decisions == storedDecisions.GetOr([])
      ensures storedWeights.Some? ==> weights == storedWeights.value.0 && lastUpdated == storedWeights.value.1
      ensures storedWeights.None? ==> weights == DefaultWeights() && lastUpdated == now
    {
      decisions := storedDecisions.GetOr([]);
      if storedWeights.Some? {
        weights := storedWeights.value.0;
        lastUpdated := storedWeights.value.1;
      } else {
        weights := DefaultWeights();
        lastUpdated := now;
      }
    }

    /** Appends one record for the candidate, identified by fingerprint, else name, else "unknown". */
    method RecordDecision(candidate: Candidate, jdId: string, decision: string, score: real, features: Features, now: int)
      returns (r: Decision)
      modifies this
      ensures decisions == old(decisions) + [r]
      ensures weights == old(weights) && lastUpdated == old(lastUpdated)
      ensures r.date == now && r.jdId == jdId && r.decision == decision && r.score == score && r.features == features
      ensures r.candidateFingerprint == candidate.fingerprint.GetOr(candidate.name.GetOr("unknown"))
      ensures r.candidateName == candidate.name.GetOr("")
    {
      r := Decision(now, jdId, candidate.fingerprint.GetOr(candidate.name.GetOr("unknown")),
                    candidate.name.GetOr(""), decision, score, features);
      decisions := decisions + [r];
    }

    /** Writes each adjustment's suggestion into the weights, in order, and stamps them. */
    method ApplyWeightAdjustments(adj: seq<Adjustment>, now: int)
      modifies this
      ensures weights == Applied(old(weights), adj)
      ensures lastUpdated == now && decisions == old(decisions)
    {
      var i := 0;
      while i < |adj|
        invariant 0 <= i <= |adj|
        invariant weights == Applied(old(weights), adj[..i])
        invariant decisions == old(decisions)
      {
        assert adj[..i + 1][..i] == adj[..i];
        weights := weights[adj[i].parameter := adj[i].suggested];
        i := i + 1;
      }
      assert adj[..|adj|] == adj;
      lastUpdated := now;
    }
  }
}
