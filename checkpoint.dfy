// The resume state of the contact-enrichment pipeline (crawlers/scraper-stable/checkpoint.py).
// The checkpoint file is a value the manager is given at start-up and the value it last wrote;
// clock readings are parameters.
module Checkpoint {
  import opened Wrappers
  import Utils

  /** One entry of success_companies or failed_companies; only success entries carry the scraped data. */
  datatype Entry = Entry(row: int, name: string, data: Option<Utils.CompanyData>, timestamp: int)

  /** The checkpoint record. A file written by hand may lack last_processed_row; the other keys are taken as present. */
  datatype State = State(
    lastProcessedRow: Option<int>,
    totalProcessed: int,
    totalSuccess: int,
    totalFailed: int,
    startTime: int,
    lastUpdate: int,
    failedCompanies: seq<Entry>,
    successCompanies: seq<Entry>)

  /** The counters agree with each other and with the two lists. */
  predicate Consistent(s: State)
  {
    s.totalProcessed == s.totalSuccess + s.totalFailed
    && s.totalSuccess == |s.successCompanies|
    && s.totalFailed == |s.failedCompanies|
  }

  /** The state of a run that starts from scratch: header row only, nothing counted. */
  function Fresh(now: int): (r: State)
    ensures Consistent(r) && r.totalProcessed == 0 && r.failedCompanies == [] && r.successCompanies == []
    ensures LastRowOf(r) == 1
  {
    State(Some(1), 0, 0, 0, now, now, [], [])
  }

  /** last_processed_row, or 1 when the record lacks it. */
  function LastRowOf(s: State): int
  {
    s.lastProcessedRow.GetOr(1)
  }

  /** The state after one company has been processed. */
  function Updated(s: State, row: int, name: string, success: bool, data: Option<Utils.CompanyData>, now: int): State
  {
    if success then
      s.(lastProcessedRow := Some(row), totalProcessed := s.totalProcessed + 1,
         totalSuccess := s.totalSuccess + 1, successCompanies := s.successCompanies + [Entry(row, name, data, now)])
    else
      s.(lastProcessedRow := Some(row), totalProcessed := s.totalProcessed + 1,
         totalFailed := s.totalFailed + 1, failedCompanies := s.failedCompanies + [Entry(row, name, None, now)])
  }

  /** An update counts the company once, in exactly one of the two lists, and touches nothing else but the row. */
  lemma UpdatedCounts(s: State, row: int, name: string, success: bool, data: Option<Utils.CompanyData>, now: int)
    ensures var r := Updated(s, row, name, success, data, now);
      r.totalProcessed == s.totalProcessed + 1
      && |r.successCompanies| + |r.failedCompanies| == |s.successCompanies| + |s.failedCompanies| + 1
      && (success ==> r.successCompanies[..|s.successCompanies|] == s.successCompanies && r.failedCompanies == s.failedCompanies
                      && r.totalSuccess == s.totalSuccess + 1 && r.totalFailed == s.totalFailed)
      && (!success ==> r.failedCompanies[..|s.failedCompanies|] == s.failedCompanies && r.successCompanies == s.successCompanies
                       && r.totalFailed == s.totalFailed + 1 && r.totalSuccess == s.totalSuccess)
      && LastRowOf(r) == row && r.startTime == s.startTime && r.lastUpdate == s.lastUpdate
  {
  }

  /** Every update keeps the counters consistent, so every state reached from a fresh one is consistent. */
  lemma UpdatedConsistent(s: State, row: int, name: string, success: bool, data: Option<Utils.CompanyData>, now: int)
    requires Consistent(s)
    ensures Consistent(Updated(s, row, name, success, data, now))
  {
  }

  /** The row is overwritten, not maxed: processing an earlier row moves the resume point back. */
  lemma LastRowCanDecrease(s: State, row: int, name: string, success: bool, now: int)
    requires LastRowOf(s) > row
    ensures LastRowOf(Updated(s, row, name, success, None, now)) < LastRowOf(s)
  {
  }

  /** success_rate in percent: 0 when nothing is processed. */
  function SuccessRate(success: int, processed: int): (r: real)
    ensures processed <= 0 ==> r == 0.0
    ensures processed > 0 ==> r * processed as real == success as real * 100.0
  {
    if processed > 0 then success as real / processed as real * 100.0 else 0.0
  }

  /** With consistent counters the success rate is a percentage, 100 exactly when nothing failed. */
  lemma SuccessRateBounds(s: State)
    requires Consistent(s)
    ensures var r := SuccessRate(s.totalSuccess, s.totalProcessed);
      0.0 <= r <= 100.0 && (r == 100.0 <==> s.totalProcessed > 0 && s.totalFailed == 0)
  {
    var r := SuccessRate(s.totalSuccess, s.totalProcessed);
    if s.totalProcessed > 0 {
      var p := s.totalProcessed as real;
      assert r * p == s.totalSuccess as real * 100.0;
      assert s.totalSuccess as real <= p;
      assert r <= 100.0;
      assert r == 100.0 ==> s.totalFailed == 0 by {
        if r == 100.0 { assert 100.0 * p == s.totalSuccess as real * 100.0; }
      }
    }
  }

  datatype Statistics = Statistics(totalProcessed: int, totalSuccess: int, totalFailed: int, successRate: real)

  class CheckpointManager {
    /** The record in memory. */
    var data: State
    /** What the checkpoint file holds: None when it is missing or cannot be read back. */
    var file: Option<State>

    /** Loads the file, or starts fresh when it is missing or unreadable. */
    constructor (stored: Option<State>, now: int)
      ensures file == stored
      ensures data == if stored.Some? then stored.value else Fresh(now)
    {
      file := stored;
      data := if stored.Some? then stored.value else Fresh(now);
    }

    /** Stamps last_update and writes the record out. */
    method Save(now: int)
      modifies this
      ensures data == old(data).(lastUpdate := now)
      ensures file == Some(data)
    {
      data := data.(lastUpdate := now);
      file := Some(data);
    }

    method UpdateProgress(row: int, name: string, success: bool, scraped: Option<Utils.CompanyData>, now: int)
      modifies this`data
      ensures data == Updated(old(data), row, name, success, scraped, now)
      ensures Consistent(old(data)) ==> Consistent(data)
    {
      if Consistent(data) { UpdatedConsistent(data, row, name, success, scraped, now); }
      var entry := Entry(row, name, if success then scraped else None, now);
      data := data.(lastProcessedRow := Some(row));
      data := data.(totalProcessed := data.totalProcessed + 1);
      if success {
        data := data.(totalSuccess := data.totalSuccess + 1);
        data := data.(successCompanies := data.successCompanies + [entry]);
      } else {
        data := data.(totalFailed := data.totalFailed + 1);
        data := data.(failedCompanies := data.failedCompanies + [entry]);
      }
    }

    function GetLastRow(): (r: int)
      reads this
      ensures data.lastProcessedRow.None? ==> r == 1
      ensures data.lastProcessedRow.Some? ==> r == data.lastProcessedRow.value
    {
      LastRowOf(data)
    }

    function GetStatistics(): (r: Statistics)
      reads this
      ensures r.totalProcessed == data.totalProcessed && r.totalSuccess == data.totalSuccess && r.totalFailed == data.totalFailed
      ensures Consistent(data) ==> 0.0 <= r.successRate <= 100.0
      ensures data.totalProcessed <= 0 ==> r.successRate == 0.0
      ensures data.totalProcessed > 0 ==> r.successRate * data.totalProcessed as real == data.totalSuccess as real * 100.0
    {
      assert Consistent(data) ==> 0.0 <= SuccessRate(data.totalSuccess, data.totalProcessed) <= 100.0 by {
        if Consistent(data) { SuccessRateBounds(data); }
      }
      Statistics(data.totalProcessed, data.totalSuccess, data.totalFailed, SuccessRate(data.totalSuccess, data.totalProcessed))
    }

    /** Starts over and writes the fresh record out at once. */
    method Reset(now: int)
      modifies this
      ensures data == Fresh(now) && file == Some(data)
    {
      data := Fresh(now);
      Save(now);
    }

    function GetFailedCompanies(): (r: seq<Entry>)
      reads this
      ensures Consistent(data) ==> |r| == data.totalFailed
      ensures forall j :: 0 <= j < |r| ==> r[j] in data.failedCompanies
      ensures r == data.failedCompanies
    {
      data.failedCompanies
    }

    /** Save every `interval` companies; true also before anything is processed. Python raises on a zero interval. */
    function ShouldSave(interval: int): (r: bool)
      reads this
      requires interval != 0
      ensures r <==> Divides(interval, data.totalProcessed)
    {
      DividesMod(interval, data.totalProcessed);
      data.totalProcessed % interval == 0
    }
  }

  function Mul(k: int, d: int): int { k * d }

  /** n is a whole multiple of d. */
  ghost predicate Divides(d: int, n: int)
  {
    exists k :: n == Mul(k, d)
  }

  lemma DividesMod(d: int, n: int)
    requires d != 0
    ensures Divides(d, n) <==> n % d == 0
  {
    if n % d == 0 {
      assert n == Mul(n / d, d);
    }
    if Divides(d, n) {
      var k :| n == Mul(k, d);
      MulMod(k, d);
    }
  }

  lemma MulMod(k: int, d: int)
    requires d != 0
    ensures (k * d) % d == 0
  {
    var q := (k * d) / d;
    var m := (k * d) % d;
    var t := k - q;
    assert t * d == k * d - q * d;
    assert t * d == m;
    if t != 0 {
      MulAtLeast(t, d);
      assert false;
    }
  }

  /** A non-zero multiple of d is at least |d| away from 0. */
  lemma MulAtLeast(t: int, d: int)
    requires t != 0 && d != 0
    ensures t * d >= (if d > 0 then d else -d) || t * d <= (if d > 0 then -d else d)
  {
    if t > 0 && d > 0 { assert t * d == (t - 1) * d + d; assert (t - 1) * d >= 0; }
    else if t > 0 { assert t * d == (t - 1) * d + d; assert (t - 1) * d <= 0; }
    else if d > 0 { assert t * d == (t + 1) * d - d; assert (t + 1) * d <= 0; }
    else { assert t * d == (t + 1) * d - d; assert (t + 1) * d >= 0; }
  }
}
